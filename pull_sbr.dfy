/** The pure pieces of the SBR odds scraper: which season a pull ends at,
    how one API event (two participants and a list of score records)
    becomes one game row, and how a fresh pull replaces the rows saved
    before it, event id by event id. */
module PullSbr {
  import opened Wrappers
  import opened Text

  // -------------------------------------------------------------------
  // the last season to pull

  datatype Date = Date(year: int, month: int, day: int)

  /** `a < b` on calendar dates. */
  predicate Before(a: Date, b: Date) {
    a.year < b.year || (a.year == b.year && (a.month < b.month || (a.month == b.month && a.day < b.day)))
  }

  /** `season_end`: this year once September 6 has passed, last year
      until then. */
  function SeasonEnd(today: Date): (r: int)
    ensures r == today.year || r == today.year - 1
    ensures r == today.year <==> today.month > 9 || (today.month == 9 && today.day > 6)
  {
    if Before(Date(today.year, 9, 6), today) then today.year else today.year - 1
  }

  /** A later day never ends the pull at an earlier season. */
  lemma SeasonEndMonotone(a: Date, b: Date)
    requires !Before(b, a)
    ensures SeasonEnd(a) <= SeasonEnd(b)
  {
    if a.year == b.year && SeasonEnd(a) == a.year {
      assert b.month > 9 || (b.month == 9 && b.day > 6);
    }
  }

  // -------------------------------------------------------------------
  // one event

  /** The fields of a participant the scraper reads: its rotation number
      (as the API gives it), and its team's id and abbreviation. */
  datatype Participant = Participant(rot: string, tmid: int, abbr: string)

  /** One score record: the participant it belongs to, the points (as
      text) and the period number. */
  datatype Score = Score(partid: int, val: string, pn: int)

  /** The descriptive fields copied through unchanged. */
  datatype Details = Details(des: string, ven: string, cit: string, sta: string, cou: string, st: string)

  datatype Event = Event(eid: int, dt: string, details: Details, participants: seq<Participant>, scores: seq<Score>)

  datatype Sides = Sides(home: Participant, away: Participant)

  /** Indexing past the end of a list. */
  const IndexError := KeyMissing("list index out of range")

  /** The home team is the participant with the larger rotation number;
      on a tie the second participant is home. */
  function HomeAndAway(ps: seq<Participant>): (r: Result<Sides, Error>)
    ensures r.Err? <==> |ps| < 2 || ParseInt(ps[0].rot).Err? || ParseInt(ps[1].rot).Err?
    ensures r.Ok? ==> (r.value.home == ps[0] && r.value.away == ps[1]) || (r.value.home == ps[1] && r.value.away == ps[0])
    ensures r.Ok? ==> RotOrdered(r.value.home.rot, r.value.away.rot)
    ensures r.Ok? && ParseInt(ps[0].rot) == ParseInt(ps[1].rot) ==> r.value.home == ps[1]
  {
    if |ps| < 2 then Err(IndexError)
    else
      var rot0 := ParseInt(ps[0].rot);
      var rot1 := ParseInt(ps[1].rot);
      if rot0.Err? then Err(rot0.error)
      else if rot1.Err? then Err(rot1.error)
      else if rot0.value > rot1.value then Ok(Sides(ps[0], ps[1]))
      else Ok(Sides(ps[1], ps[0]))
  }

  /** Both rotation numbers parse and the home one is not the smaller. */
  predicate RotOrdered(homeRot: string, awayRot: string) {
    ParseInt(homeRot).Ok? && ParseInt(awayRot).Ok? && ParseInt(homeRot).value >= ParseInt(awayRot).value
  }

  /** Periods 1 and 2 make the first half, 3 and 4 the second; any other
      period (overtime) counts for the full game only. */
  datatype Period = FirstHalf | SecondHalf | OtherPeriod

  function PeriodOf(pn: int): Period {
    if pn == 1 || pn == 2 then FirstHalf
    else if pn == 3 || pn == 4 then SecondHalf
    else OtherPeriod
  }

  /** The six score accumulators of an event. */
  datatype Tally = Tally(home1h: int, home2h: int, homeFg: int, away1h: int, away2h: int, awayFg: int)

  const NoPoints := Tally(0, 0, 0, 0, 0, 0)

  /** One score record added to the accumulators: a record counts for the
      home team iff its participant id is the home team's id. */
  function AddScore(t: Tally, s: Score, v: int, homeTmid: int): Tally {
    var home := s.partid == homeTmid;
    match PeriodOf(s.pn)
    case FirstHalf =>
      if home then t.(home1h := t.home1h + v, homeFg := t.homeFg + v)
      else t.(away1h := t.away1h + v, awayFg := t.awayFg + v)
    case SecondHalf =>
      if home then t.(home2h := t.home2h + v, homeFg := t.homeFg + v)
      else t.(away2h := t.away2h + v, awayFg := t.awayFg + v)
    case OtherPeriod =>
      if home then t.(homeFg := t.homeFg + v) else t.(awayFg := t.awayFg + v)
  }

  /** The accumulators after the score records in order; the first value
      that is not an integer raises. */
  function TallySpec(scores: seq<Score>, homeTmid: int): Result<Tally, Error> {
    if |scores| == 0 then Ok(NoPoints)
    else
      var n := |scores| - 1;
      var prev := TallySpec(scores[..n], homeTmid);
      var v := ParseInt(scores[n].val);
      if prev.Err? then prev
      else if v.Err? then Err(v.error)
      else Ok(AddScore(prev.value, scores[n], v.value, homeTmid))
  }

  lemma {:induction false} TallyErrorPersists(scores: seq<Score>, homeTmid: int, i: nat)
    requires i <= |scores|
    requires TallySpec(scores[..i], homeTmid).Err?
    ensures TallySpec(scores, homeTmid) == TallySpec(scores[..i], homeTmid)
    decreases |scores| - i
  {
    if i < |scores| {
      assert scores[..i + 1][..i] == scores[..i];
      TallyErrorPersists(scores, homeTmid, i + 1);
    } else {
      assert scores[..i] == scores;
    }
  }

  /** The loop over an event's score records. */
  method TallyScores(scores: seq<Score>, homeTmid: int) returns (r: Result<Tally, Error>)
    ensures r == TallySpec(scores, homeTmid)
  {
    var home1h, home2h, homeFg, away1h, away2h, awayFg := 0, 0, 0, 0, 0, 0;
    for i := 0 to |scores|
      invariant TallySpec(scores[..i], homeTmid) == Ok(Tally(home1h, home2h, homeFg, away1h, away2h, awayFg))
    {
      assert scores[..i + 1][..i] == scores[..i];
      var s := scores[i];
      var v := ParseInt(s.val);
      if v.Err? {
        TallyErrorPersists(scores, homeTmid, i + 1);
        return Err(v.error);
      }
      ghost var next := AddScore(Tally(home1h, home2h, homeFg, away1h, away2h, awayFg), s, v.value, homeTmid);
      assert TallySpec(scores[..i + 1], homeTmid) == Ok(next);
      if s.pn == 1 || s.pn == 2 {
        if s.partid == homeTmid {
          home1h := home1h + v.value;
          homeFg := homeFg + v.value;
        } else {
          away1h := away1h + v.value;
          awayFg := awayFg + v.value;
        }
      } else if s.pn == 3 || s.pn == 4 {
        if s.partid == homeTmid {
          home2h := home2h + v.value;
          homeFg := homeFg + v.value;
        } else {
          away2h := away2h + v.value;
          awayFg := awayFg + v.value;
        }
      } else {
        if s.partid == homeTmid {
          homeFg := homeFg + v.value;
        } else {
          awayFg := awayFg + v.value;
        }
      }
    }
    assert scores[..|scores|] == scores;
    r := Ok(Tally(home1h, home2h, homeFg, away1h, away2h, awayFg));
  }

  // -------------------------------------------------------------------
  // the accumulators as sums

  /** Every score value as an integer, or the first one that is not. */
  function Values(scores: seq<Score>): (r: Result<seq<int>, Error>)
    ensures r.Ok? ==> |r.value| == |scores|
  {
    if |scores| == 0 then Ok([])
    else
      var n := |scores| - 1;
      var prev := Values(scores[..n]);
      var v := ParseInt(scores[n].val);
      if prev.Err? then prev
      else if v.Err? then Err(v.error)
      else Ok(prev.value + [v.value])
  }

  /** The points of one side (the home team's when `forHome`), over one
      period or, for `None`, over the whole game. */
  function SidePoints(scores: seq<Score>, vals: seq<int>, homeTmid: int, forHome: bool, period: Option<Period>): int
    requires |vals| == |scores|
  {
    if |scores| == 0 then 0
    else
      var n := |scores| - 1;
      var s := scores[n];
      var counts := (s.partid == homeTmid) == forHome && (period.None? || period.value == PeriodOf(s.pn));
      SidePoints(scores[..n], vals[..n], homeTmid, forHome, period) + (if counts then vals[n] else 0)
  }

  /** The sum of all score values. */
  function Total(vals: seq<int>): int {
    if |vals| == 0 then 0 else Total(vals[..|vals| - 1]) + vals[|vals| - 1]
  }

  /** The six per-side, per-period sums of a list of score values. */
  predicate TallyOf(t: Tally, scores: seq<Score>, vals: seq<int>, homeTmid: int)
    requires |vals| == |scores|
  {
    && t.home1h == SidePoints(scores, vals, homeTmid, true, Some(FirstHalf))
    && t.home2h == SidePoints(scores, vals, homeTmid, true, Some(SecondHalf))
    && t.homeFg == SidePoints(scores, vals, homeTmid, true, None)
    && t.away1h == SidePoints(scores, vals, homeTmid, false, Some(FirstHalf))
    && t.away2h == SidePoints(scores, vals, homeTmid, false, Some(SecondHalf))
    && t.awayFg == SidePoints(scores, vals, homeTmid, false, None)
  }

  /** The loop raises exactly when some value is not an integer, and
      otherwise each accumulator holds its side's points over its periods. */
  lemma {:induction false} TallyIsSidePoints(scores: seq<Score>, homeTmid: int)
    ensures TallySpec(scores, homeTmid).Ok? <==> Values(scores).Ok?
    ensures TallySpec(scores, homeTmid).Ok? ==>
              TallyOf(TallySpec(scores, homeTmid).value, scores, Values(scores).value, homeTmid)
  {
    if |scores| > 0 {
      var n := |scores| - 1;
      TallyIsSidePoints(scores[..n], homeTmid);
      if Values(scores).Ok? {
        var vals := Values(scores).value;
        assert vals[..n] == Values(scores[..n]).value;
      }
    }
  }

  /** A side's full-game points are its first-half, second-half and
      other-period points together. */
  lemma {:induction false} FullGameIsSumOfPeriods(scores: seq<Score>, vals: seq<int>, homeTmid: int, forHome: bool)
    requires |vals| == |scores|
    ensures SidePoints(scores, vals, homeTmid, forHome, None)
         == SidePoints(scores, vals, homeTmid, forHome, Some(FirstHalf))
          + SidePoints(scores, vals, homeTmid, forHome, Some(SecondHalf))
          + SidePoints(scores, vals, homeTmid, forHome, Some(OtherPeriod))
  {
    if |scores| > 0 {
      var n := |scores| - 1;
      FullGameIsSumOfPeriods(scores[..n], vals[..n], homeTmid, forHome);
    }
  }

  /** Every point goes to exactly one side. */
  lemma {:induction false} SidesShareTotal(scores: seq<Score>, vals: seq<int>, homeTmid: int)
    requires |vals| == |scores|
    ensures SidePoints(scores, vals, homeTmid, true, None) + SidePoints(scores, vals, homeTmid, false, None) == Total(vals)
  {
    if |scores| > 0 {
      var n := |scores| - 1;
      SidesShareTotal(scores[..n], vals[..n], homeTmid);
    }
  }

  // -------------------------------------------------------------------
  // the event rows

  /** `dt` is the event's timestamp, or the literal 0 of the fallback row. */
  datatype EventTime = Posted(dt: string) | Zeroed

  /** One row of `event_data`; `None` rotations and scores are NaN. */
  datatype EventRow = EventRow(
    season: int, dt: EventTime, eid: int, details: Details,
    awayTmid: int, awayAbbr: string, awayRot: Option<string>,
    homeTmid: int, homeAbbr: string, homeRot: Option<string>,
    scores: Option<Tally>)

  /** The body of the `try`: sides, then scores. */
  function ParseEvent(season: int, e: Event): (r: Result<EventRow, Error>)
    ensures r.Ok? ==> r.value.eid == e.eid && r.value.season == season && r.value.dt == Posted(e.dt)
    ensures r.Ok? <==> HomeAndAway(e.participants).Ok? && Values(e.scores).Ok?
  {
    var sides := HomeAndAway(e.participants);
    if sides.Err? then Err(sides.error)
    else
      var home := sides.value.home;
      var away := sides.value.away;
      TallyIsSidePoints(e.scores, home.tmid);
      var tally := TallySpec(e.scores, home.tmid);
      if tally.Err? then Err(tally.error)
      else Ok(EventRow(season, Posted(e.dt), e.eid, e.details, away.tmid, away.abbr, Some(away.rot),
                       home.tmid, home.abbr, Some(home.rot), Some(tally.value)))
  }

  /** The one event id whose failure is caught with a fixed record. */
  const FallbackEid := 73

  /** Jacksonville at Indianapolis with no rotations and no scores. */
  function FallbackRow(season: int, e: Event): EventRow {
    EventRow(season, Zeroed, e.eid, e.details, 1529, "JAC", None, 1527, "IND", None, None)
  }

  /** What one event contributes: its parsed row, the fixed record for
      event 73 when parsing fails, or nothing. */
  function EventOutcome(season: int, e: Event): (r: Option<EventRow>)
    ensures r.None? <==> ParseEvent(season, e).Err? && e.eid != FallbackEid
    ensures r.Some? ==> r.value.eid == e.eid && r.value.season == season
  {
    var parsed := ParseEvent(season, e);
    if parsed.Ok? then Some(parsed.value)
    else if e.eid == FallbackEid then Some(FallbackRow(season, e))
    else None
  }

  /** The rows of one season's events, in order. */
  function SeasonRows(season: int, events: seq<Event>): seq<EventRow> {
    if |events| == 0 then []
    else
      var n := |events| - 1;
      var out := EventOutcome(season, events[n]);
      SeasonRows(season, events[..n]) + (if out.Some? then [out.value] else [])
  }

  /** The rows of every season from `first` through `last`. */
  function AllSeasonRows(first: int, last: int, fetch: int -> seq<Event>): seq<EventRow>
    decreases last - first
  {
    if last < first then [] else AllSeasonRows(first, last - 1, fetch) + SeasonRows(last, fetch(last))
  }

  /** The loop over one season's events. */
  method PullSeason(season: int, events: seq<Event>) returns (rows: seq<EventRow>)
    ensures rows == SeasonRows(season, events)
  {
    rows := [];
    for i := 0 to |events|
      invariant rows == SeasonRows(season, events[..i])
    {
      assert events[..i + 1][..i] == events[..i];
      var parsed := ParseEvent(season, events[i]);
      if parsed.Ok? {
        rows := rows + [parsed.value];
      } else if events[i].eid == FallbackEid {
        rows := rows + [FallbackRow(season, events[i])];
      }
    }
    assert events[..|events|] == events;
  }

  /** `pull_sbr_events`' loop over seasons, each season's events given by
      `fetch` in place of the API request. */
  method PullEvents(first: int, seasonEnd: int, fetch: int -> seq<Event>) returns (rows: seq<EventRow>)
    ensures rows == AllSeasonRows(first, seasonEnd, fetch)
  {
    rows := [];
    if seasonEnd < first {
      return;
    }
    for year := first to seasonEnd + 1
      invariant rows == AllSeasonRows(first, year - 1, fetch)
    {
      var got := PullSeason(year, fetch(year));
      rows := rows + got;
    }
  }

  /** A row carries scores exactly when it was parsed: then its home team
      has the larger rotation number; otherwise it is the fixed record of
      event 73. */
  predicate WellFormedRow(x: EventRow) {
    if x.scores.Some? then x.homeRot.Some? && x.awayRot.Some? && RotOrdered(x.homeRot.value, x.awayRot.value)
    else x.eid == FallbackEid && x.homeAbbr == "IND" && x.awayAbbr == "JAC" && x.dt == Zeroed
  }

  lemma {:induction false} SeasonRowsWellFormed(season: int, events: seq<Event>)
    ensures forall k :: 0 <= k < |SeasonRows(season, events)| ==>
              SeasonRows(season, events)[k].season == season && WellFormedRow(SeasonRows(season, events)[k])
  {
    if |events| > 0 {
      var n := |events| - 1;
      SeasonRowsWellFormed(season, events[..n]);
      var out := EventOutcome(season, events[n]);
      if out.Some? && ParseEvent(season, events[n]).Ok? {
        var sides := HomeAndAway(events[n].participants).value;
        assert out.value.homeRot == Some(sides.home.rot);
      }
    }
  }

  /** Each event yields at most one row, and every event that parses, as
      well as event 73, yields exactly one. */
  lemma {:induction false} SeasonRowsCount(season: int, events: seq<Event>)
    ensures |SeasonRows(season, events)| <= |events|
    ensures (forall j :: 0 <= j < |events| ==> ParseEvent(season, events[j]).Ok? || events[j].eid == FallbackEid)
            ==> |SeasonRows(season, events)| == |events|
  {
    if |events| > 0 {
      var n := |events| - 1;
      SeasonRowsCount(season, events[..n]);
    }
  }

  // -------------------------------------------------------------------
  // replacing saved rows

  /** Some row of `rows` has event id `e`. */
  predicate HasEid<R>(rows: seq<R>, eid: R -> Option<int>, e: int) {
    exists j :: 0 <= j < |rows| && eid(rows[j]) == Some(e)
  }

  /** A saved row the new pull replaces: its event id occurs in the pull.
      A missing id (NaN) never matches anything, as in `numpy.isin`. */
  predicate Replaced<R>(x: R, update: seq<R>, eid: R -> Option<int>) {
    eid(x).Some? && HasEid(update, eid, eid(x).value)
  }

  /** The saved rows the pull does not replace, in their order. */
  function Unreplaced<R(!new)>(previous: seq<R>, update: seq<R>, eid: R -> Option<int>): (r: seq<R>)
    ensures forall x :: x in r <==> x in previous && !Replaced(x, update, eid)
  {
    if |previous| == 0 then []
    else
      var n := |previous| - 1;
      Unreplaced(previous[..n], update, eid) + (if Replaced(previous[n], update, eid) then [] else [previous[n]])
  }

  /** The saved rows (absent on a first run) merged with a fresh pull: the
      rows the pull does not replace, then the pull. */
  function MergeRows<R(!new)>(previous: Option<seq<R>>, update: seq<R>, eid: R -> Option<int>): (r: seq<R>)
    ensures |r| >= |update| && r[|r| - |update|..] == update
    ensures forall x :: x in r[..|r| - |update|] <==>
              previous.Some? && x in previous.value && !Replaced(x, update, eid)
  {
    if previous.None? then update
    else
      var kept := Unreplaced(previous.value, update, eid);
      assert (kept + update)[..|kept|] == kept;
      kept + update
  }

  /** Merging the same pull twice changes nothing, provided every row of
      the pull has an event id. */
  lemma MergeIdempotent<R(!new)>(previous: Option<seq<R>>, update: seq<R>, eid: R -> Option<int>)
    requires forall j :: 0 <= j < |update| ==> eid(update[j]).Some?
    ensures MergeRows(Some(MergeRows(previous, update, eid)), update, eid) == MergeRows(previous, update, eid)
  {
    var once := MergeRows(previous, update, eid);
    var kept := once[..|once| - |update|];
    assert once == kept + update;
    forall j | 0 <= j < |kept| ensures !Replaced(kept[j], update, eid) {
      assert kept[j] in kept;
    }
    UnreplacedOfKeptAndUpdate(kept, update, eid);
  }

  /** Helper: filtering rows already free of replaced ids, followed by
      the pull, leaves exactly those rows. */
  lemma UnreplacedOfKeptAndUpdate<R(!new)>(kept: seq<R>, update: seq<R>, eid: R -> Option<int>)
    requires forall j :: 0 <= j < |update| ==> eid(update[j]).Some?
    requires forall j :: 0 <= j < |kept| ==> !Replaced(kept[j], update, eid)
    ensures Unreplaced(kept + update, update, eid) == kept
  {
    forall k | 0 <= k < |update| ensures Replaced(update[k], update, eid) {
      assert eid(update[k]) == Some(eid(update[k]).value);
    }
    UnreplacedAllReplaced(update, update, eid);
    UnreplacedAppend(kept, update, update, eid);
    UnreplacedNone(kept, update, eid);
  }

  lemma {:induction false} UnreplacedAppend<R(!new)>(a: seq<R>, b: seq<R>, update: seq<R>, eid: R -> Option<int>)
    ensures Unreplaced(a + b, update, eid) == Unreplaced(a, update, eid) + Unreplaced(b, update, eid)
    decreases |b|
  {
    if |b| == 0 {
      assert a + b == a;
    } else {
      var n := |b| - 1;
      assert (a + b)[..|a + b| - 1] == a + b[..n];
      UnreplacedAppend(a, b[..n], update, eid);
    }
  }

  lemma {:induction false} UnreplacedNone<R(!new)>(kept: seq<R>, update: seq<R>, eid: R -> Option<int>)
    requires forall j :: 0 <= j < |kept| ==> !Replaced(kept[j], update, eid)
    ensures Unreplaced(kept, update, eid) == kept
  {
    if |kept| > 0 {
      var n := |kept| - 1;
      UnreplacedNone(kept[..n], update, eid);
      assert !Replaced(kept[n], update, eid);
      assert Unreplaced(kept, update, eid) == Unreplaced(kept[..n], update, eid) + [kept[n]];
      assert kept[..n] + [kept[n]] == kept;
    }
  }

  lemma {:induction false} UnreplacedAllReplaced<R(!new)>(rows: seq<R>, update: seq<R>, eid: R -> Option<int>)
    requires forall k :: 0 <= k < |rows| ==> Replaced(rows[k], update, eid)
    ensures Unreplaced(rows, update, eid) == []
  {
    if |rows| > 0 {
      var n := |rows| - 1;
      UnreplacedAllReplaced(rows[..n], update, eid);
      assert Replaced(rows[n], update, eid);
    }
  }

  /** A row of the game table after matching events to games; the event
      side is missing when no event matched (its id is then NaN). */
  datatype MatchedEvent = MatchedEvent(gameId: string, week: int, event: Option<EventRow>)

  function MatchedEid(m: MatchedEvent): Option<int> {
    if m.event.Some? then Some(m.event.value.eid) else None
  }

  /** The saved event table updated by a pull. */
  function MergeEvents(previous: Option<seq<MatchedEvent>>, update: seq<MatchedEvent>): (r: seq<MatchedEvent>)
    ensures |r| >= |update| && r[|r| - |update|..] == update
    ensures forall x :: x in r[..|r| - |update|] <==>
              previous.Some? && x in previous.value && !Replaced(x, update, MatchedEid)
  {
    MergeRows(previous, update, MatchedEid)
  }

  datatype LineKind = Closing | Opening

  /** One row of `line_data`; the price fields are copied through as text. */
  datatype LineRow = LineRow(eid: int, mtid: int, paid: int, partid: int, adj: string, pri: string,
                             ap: string, tim: string, kind: LineKind, season: int)

  function LineEid(x: LineRow): Option<int> {
    Some(x.eid)
  }

  /** The saved line table updated by a pull; applying the same pull
      again changes nothing. A pull that parsed no line builds a table
      without columns, and taking its `eid` column raises KeyError. */
  function MergeLineRows(previous: Option<seq<LineRow>>, update: seq<LineRow>): (r: Result<seq<LineRow>, Error>)
    ensures r.Err? <==> update == []
    ensures r.Err? ==> r.error == KeyMissing("eid")
    ensures r.Ok? ==> |r.value| >= |update| && r.value[|r.value| - |update|..] == update
    ensures r.Ok? ==> forall x :: x in r.value[..|r.value| - |update|] <==>
              previous.Some? && x in previous.value && !HasEid(update, LineEid, x.eid)
  {
    if update == [] then Err(KeyMissing("eid"))
    else Ok(MergeRows(previous, update, LineEid))
  }

  lemma MergeLineRowsIdempotent(previous: Option<seq<LineRow>>, update: seq<LineRow>)
    ensures MergeLineRows(previous, update).Ok? ==>
              MergeLineRows(Some(MergeLineRows(previous, update).value), update) == MergeLineRows(previous, update)
  {
    MergeIdempotent(previous, update, LineEid);
  }
}
