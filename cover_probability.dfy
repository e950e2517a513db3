/** Loss, push and cover probabilities from a margin-distribution table
    (nfelo/Utilities/cover_probability.py). */
module CoverProbability {
  import opened Numerics

  /** One row of the distribution table: for games whose spread (from the
      home side's point of view, sign flipped) is `spreadLine`, the home
      margin `result` has probability `prob`.  Both are in tenths of a point. */
  datatype DistRow = DistRow(spreadLine: int, result: int, prob: real)

  datatype CoverProbs = CoverProbs(loss: real, push: real, cover: real)

  /** `-round(x, 1)` in tenths, the key the source compares against. */
  function FlippedTenths(x: real): int {
    -RoundKey(x, 10)
  }

  /** Which side of the market line a result falls on. */
  datatype Side = Below | At | Above

  function SideOf(result: int, market: int): (s: Side)
    ensures s == Below <==> result < market
    ensures s == At <==> result == market
    ensures s == Above <==> result > market
  {
    if result < market then Below else if result == market then At else Above
  }

  /** Sum of the probabilities of the rows in bucket `spread` whose result
      lies on `side` of `market`. */
  function MassOn(dist: seq<DistRow>, spread: int, market: int, side: Side): real {
    if |dist| == 0 then 0.0
    else
      var row := dist[0];
      (if row.spreadLine == spread && SideOf(row.result, market) == side then row.prob else 0.0)
        + MassOn(dist[1..], spread, market, side)
  }

  /** The total probability of bucket `spread`. */
  function BucketMass(dist: seq<DistRow>, spread: int): real {
    if |dist| == 0 then 0.0
    else (if dist[0].spreadLine == spread then dist[0].prob else 0.0) + BucketMass(dist[1..], spread)
  }

  /** calc_cover_probs. */
  function CalcCoverProbs(dist: seq<DistRow>, projSpread: real, marketSpread: real): (r: CoverProbs) {
    var proj := FlippedTenths(projSpread);
    var market := FlippedTenths(marketSpread);
    CoverProbs(MassOn(dist, proj, market, Below), MassOn(dist, proj, market, At), MassOn(dist, proj, market, Above))
  }

  lemma {:induction false} MassPartition(dist: seq<DistRow>, spread: int, market: int)
    ensures MassOn(dist, spread, market, Below) + MassOn(dist, spread, market, At) + MassOn(dist, spread, market, Above)
         == BucketMass(dist, spread)
  {
    if |dist| > 0 {
      MassPartition(dist[1..], spread, market);
    }
  }

  /** Loss, push and cover split the projected bucket's total mass. */
  lemma CoverProbsPartition(dist: seq<DistRow>, projSpread: real, marketSpread: real)
    ensures var r := CalcCoverProbs(dist, projSpread, marketSpread);
            r.loss + r.push + r.cover == BucketMass(dist, FlippedTenths(projSpread))
  {
    MassPartition(dist, FlippedTenths(projSpread), FlippedTenths(marketSpread));
  }

  lemma {:induction false} MassOfAbsentBucket(dist: seq<DistRow>, spread: int, market: int, side: Side)
    requires forall i :: 0 <= i < |dist| ==> dist[i].spreadLine != spread
    ensures MassOn(dist, spread, market, side) == 0.0
  {
    if |dist| > 0 {
      assert forall i :: 0 <= i < |dist[1..]| ==> dist[1..][i] == dist[i + 1];
      MassOfAbsentBucket(dist[1..], spread, market, side);
    }
  }

  /** A projected spread that the table has no rows for gives (0, 0, 0). */
  lemma AbsentBucketIsZero(dist: seq<DistRow>, projSpread: real, marketSpread: real)
    requires forall i :: 0 <= i < |dist| ==> dist[i].spreadLine != FlippedTenths(projSpread)
    ensures CalcCoverProbs(dist, projSpread, marketSpread) == CoverProbs(0.0, 0.0, 0.0)
  {
    var p := FlippedTenths(projSpread);
    var q := FlippedTenths(marketSpread);
    MassOfAbsentBucket(dist, p, q, Below);
    MassOfAbsentBucket(dist, p, q, At);
    MassOfAbsentBucket(dist, p, q, Above);
  }

  lemma {:induction false} MassNonnegative(dist: seq<DistRow>, spread: int, market: int, side: Side)
    requires forall i :: 0 <= i < |dist| ==> dist[i].prob >= 0.0
    ensures MassOn(dist, spread, market, side) >= 0.0
  {
    if |dist| > 0 {
      assert forall i :: 0 <= i < |dist[1..]| ==> dist[1..][i] == dist[i + 1];
      MassNonnegative(dist[1..], spread, market, side);
    }
  }

  /** Nonnegative table probabilities give nonnegative outputs. */
  lemma CoverProbsNonnegative(dist: seq<DistRow>, projSpread: real, marketSpread: real)
    requires forall i :: 0 <= i < |dist| ==> dist[i].prob >= 0.0
    ensures var r := CalcCoverProbs(dist, projSpread, marketSpread);
            r.loss >= 0.0 && r.push >= 0.0 && r.cover >= 0.0
  {
    var p := FlippedTenths(projSpread);
    var q := FlippedTenths(marketSpread);
    MassNonnegative(dist, p, q, Below);
    MassNonnegative(dist, p, q, At);
    MassNonnegative(dist, p, q, Above);
  }

  /** Only rows of the projected bucket count: changing or adding rows of
      any other bucket leaves the result unchanged. */
  lemma {:induction false} OtherBucketsIgnored(dist: seq<DistRow>, row: DistRow, spread: int, market: int, side: Side)
    requires row.spreadLine != spread
    ensures MassOn([row] + dist, spread, market, side) == MassOn(dist, spread, market, side)
  {
    assert ([row] + dist)[1..] == dist;
  }
}
