/** The pure pieces of the Pro Football Reference coach scraper: the coach
    id inside a coach page's link, the rows scraped from the coach table,
    how a scrape is merged into the saved coach list, and when a coach's
    headshot is looked up again. */
module PullPfr {
  import opened Wrappers
  import opened Text

  // -------------------------------------------------------------------
  // coach ids

  const CoachesPath := "/coaches/"
  const PageSuffix := ".htm"

  /** `id_from_url`: the text between `/coaches/` and `.htm`; NaN when the
      part before `.htm` has no `/coaches/`. */
  function IdFromUrl(url: string): (r: Option<string>)
    ensures r.Some? <==> Contains(Split(url, PageSuffix)[0], CoachesPath)
  {
    SplitHasTwoPiecesIffContains(Split(url, PageSuffix)[0], CoachesPath);
    var pieces := Split(Split(url, PageSuffix)[0], CoachesPath);
    if |pieces| < 2 then None else Some(pieces[1])
  }

  /** A string splits into two or more pieces exactly when it contains the
      separator. */
  lemma SplitHasTwoPiecesIffContains(s: string, sep: string)
    requires |sep| > 0
    ensures |Split(s, sep)| >= 2 <==> Contains(s, sep)
  {
  }

  /** An occurrence inside a prefix is an occurrence in the whole. */
  lemma ContainsInPrefix(s: string, i: nat, sub: string)
    requires i <= |s| && Contains(s[..i], sub)
    ensures Contains(s, sub)
  {
    var k := Find(s[..i], sub, 0).value;
    assert s[..i][k..k + |sub|] == s[k..k + |sub|];
    ContainsAt(s, sub, k);
  }

  /** The first piece of a split is a prefix of the string. */
  lemma FirstPieceIsPrefix(s: string, sep: string)
    requires |sep| > 0
    ensures |Split(s, sep)[0]| <= |s| && Split(s, sep)[0] == s[..|Split(s, sep)[0]|]
  {
  }

  /** A link without `/coaches/` has no id. */
  lemma NoCoachesPathNoId(url: string)
    requires !Contains(url, CoachesPath)
    ensures IdFromUrl(url).None?
  {
    var first := Split(url, PageSuffix)[0];
    FirstPieceIsPrefix(url, PageSuffix);
    if Contains(first, CoachesPath) {
      ContainsInPrefix(url, |first|, CoachesPath);
    }
  }

  /** The link of a coach page gives back the coach's id. */
  lemma IdOfCoachUrl(id: string)
    requires '.' !in id && '/' !in id
    ensures IdFromUrl(CoachesPath + id + PageSuffix) == Some(id)
  {
    var head := CoachesPath + id;
    assert '.' !in CoachesPath;
    assert '.' !in head by {
      forall k | 0 <= k < |head| ensures head[k] != '.' {
        if k >= |CoachesPath| { assert head[k] == id[k - |CoachesPath|]; }
      }
    }
    assert CoachesPath + id + PageSuffix == head + PageSuffix + "";
    MarkerNotBefore(head, PageSuffix, "", 0);
    SplitFirst(head, PageSuffix, "");
    assert Split(CoachesPath + id + PageSuffix, PageSuffix)[0] == head;
    assert head == "" + CoachesPath + id;
    MarkerNotBefore("", CoachesPath, id, 0);
    SplitFirst("", CoachesPath, id);
    NoCharNoOccurrence(id, CoachesPath, 0);
    SplitNone(id, CoachesPath);
  }

  // -------------------------------------------------------------------
  // the coach table

  /** A link with its target and text. */
  datatype Anchor = Anchor(href: string, text: string)

  /** One row of the coach list; `None` image fields are NaN, and the
      last-checked date is a day number. */
  datatype CoachRow = CoachRow(id: Option<string>, name: string, url: Option<string>,
                               imageUrl: Option<string>, lastChecked: Option<int>)

  /** A coach cell's first link, if it has one, as a row without image
      fields. */
  function CellRow(anchors: seq<Anchor>): (r: Option<CoachRow>)
    ensures r.Some? <==> |anchors| > 0
    ensures r.Some? ==> r.value.url == Some(anchors[0].href) && r.value.id == IdFromUrl(anchors[0].href)
  {
    if |anchors| == 0 then None
    else Some(CoachRow(IdFromUrl(anchors[0].href), anchors[0].text, Some(anchors[0].href), None, None))
  }

  /** The rows of the coach cells in order, cells without a link skipped. */
  function CellRows(cells: seq<seq<Anchor>>): seq<CoachRow> {
    if |cells| == 0 then []
    else
      var n := |cells| - 1;
      var row := CellRow(cells[n]);
      CellRows(cells[..n]) + (if row.Some? then [row.value] else [])
  }

  /** `scrape_coaches`, the page given as its coach cells (`None` when the
      request failed): the rows, or `None` when there are none. */
  method ScrapeCoaches(page: Option<seq<seq<Anchor>>>) returns (r: Option<seq<CoachRow>>)
    ensures page.None? ==> r.None?
    ensures page.Some? ==> r == if |CellRows(page.value)| > 0 then Some(CellRows(page.value)) else None
  {
    var data: seq<CoachRow> := [];
    if page.Some? {
      var cells := page.value;
      for i := 0 to |cells|
        invariant data == CellRows(cells[..i])
      {
        assert cells[..i + 1][..i] == cells[..i];
        var anchors := cells[i];
        if |anchors| > 0 {
          data := data + [CoachRow(IdFromUrl(anchors[0].href), anchors[0].text, Some(anchors[0].href), None, None)];
        }
      }
      assert cells[..|cells|] == cells;
    }
    if |data| > 0 {
      return Some(data);
    }
    return None;
  }

  /** Every scraped row carries its own link and the id read from it, and
      has no image fields. */
  lemma {:induction false} CellRowsCarryIds(cells: seq<seq<Anchor>>)
    ensures forall k :: 0 <= k < |CellRows(cells)| ==>
              CellRows(cells)[k].url.Some? && CellRows(cells)[k].id == IdFromUrl(CellRows(cells)[k].url.value)
              && CellRows(cells)[k].imageUrl.None? && CellRows(cells)[k].lastChecked.None?
  {
    if |cells| > 0 {
      CellRowsCarryIds(cells[..|cells| - 1]);
    }
  }

  // -------------------------------------------------------------------
  // merging a scrape into the saved list

  /** Some saved row has coach id `id`. */
  predicate HasId(rows: seq<CoachRow>, id: string) {
    exists j :: 0 <= j < |rows| && rows[j].id == Some(id)
  }

  /** A scraped coach already on the saved list; a missing id (NaN)
      matches nothing, as in `numpy.isin`. */
  predicate Known(x: CoachRow, existing: seq<CoachRow>) {
    x.id.Some? && HasId(existing, x.id.value)
  }

  /** The scraped rows with null image fields. */
  function Blank(x: CoachRow): CoachRow {
    x.(imageUrl := None, lastChecked := None)
  }

  /** The scraped coaches not on the saved list, blanked, in scrape order. */
  function NewCoaches(existing: seq<CoachRow>, scraped: seq<CoachRow>): (r: seq<CoachRow>)
    ensures |r| <= |scraped|
    ensures forall k :: 0 <= k < |r| ==> r[k].imageUrl.None? && r[k].lastChecked.None? && !Known(r[k], existing)
  {
    if |scraped| == 0 then []
    else
      var n := |scraped| - 1;
      NewCoaches(existing, scraped[..n]) + (if Known(scraped[n], existing) then [] else [Blank(scraped[n])])
  }

  /** `merge`: with no saved list the blanked scrape; otherwise the saved
      rows unchanged and in order, then the new coaches. A failed scrape
      (`None`) raises, since the source assigns columns on `None`. */
  function Merge(existing: Option<seq<CoachRow>>, scraped: Option<seq<CoachRow>>): (r: Result<seq<CoachRow>, Error>)
    ensures r.Err? <==> scraped.None?
    ensures r.Ok? && existing.Some? ==> r.value == existing.value + NewCoaches(existing.value, scraped.value)
    ensures r.Ok? && existing.None? ==> |r.value| == |scraped.value|
    ensures r.Ok? && existing.None? ==> forall k :: 0 <= k < |r.value| ==>
              r.value[k] == Blank(scraped.value[k]) && r.value[k].imageUrl.None? && r.value[k].lastChecked.None?
  {
    if scraped.None? then Err(NoneOperand)
    else if existing.None? then Ok(BlankAll(scraped.value))
    else Ok(existing.value + NewCoaches(existing.value, scraped.value))
  }

  function BlankAll(rows: seq<CoachRow>): (r: seq<CoachRow>)
    ensures |r| == |rows| && forall k :: 0 <= k < |rows| ==> r[k] == Blank(rows[k])
  {
    seq(|rows|, k requires 0 <= k < |rows| => Blank(rows[k]))
  }

  /** No coach with an id is added twice: merging the same scrape again
      adds nothing, provided every scraped row has an id. */
  lemma MergeAgainAddsNothing(existing: seq<CoachRow>, scraped: seq<CoachRow>)
    requires forall k :: 0 <= k < |scraped| ==> scraped[k].id.Some?
    ensures NewCoaches(existing + NewCoaches(existing, scraped), scraped) == []
  {
    var merged := existing + NewCoaches(existing, scraped);
    NewCoachesKnown(existing, scraped, merged);
  }

  /** Every scraped coach is either already saved or among the new ones,
      so all of them are on the merged list. */
  lemma {:induction false} NewCoachesKnown(existing: seq<CoachRow>, scraped: seq<CoachRow>, merged: seq<CoachRow>)
    requires forall k :: 0 <= k < |scraped| ==> scraped[k].id.Some?
    requires merged == existing + NewCoaches(existing, scraped)
    ensures forall k :: 0 <= k < |scraped| ==> Known(scraped[k], merged)
    ensures NewCoaches(merged, scraped) == []
  {
    if |scraped| > 0 {
      var n := |scraped| - 1;
      var x := scraped[n];
      var before := NewCoaches(existing, scraped[..n]);
      var tail := if Known(x, existing) then [] else [Blank(x)];
      assert merged == existing + before + tail;
      NewCoachesKnown(existing, scraped[..n], existing + before);
      forall k | 0 <= k < n ensures Known(scraped[k], merged) {
        assert scraped[..n][k] == scraped[k];
        KnownExtends(scraped[k], existing + before, tail);
      }
      if Known(x, existing) {
        KnownExtends(x, existing, before + tail);
        assert existing + (before + tail) == merged;
      } else {
        assert merged[|merged| - 1] == Blank(x);
      }
      NewCoachesNoneKnown(merged, scraped);
    }
  }

  lemma KnownExtends(x: CoachRow, rows: seq<CoachRow>, more: seq<CoachRow>)
    requires Known(x, rows)
    ensures Known(x, rows + more)
  {
    var j :| 0 <= j < |rows| && rows[j].id == Some(x.id.value);
    assert (rows + more)[j] == rows[j];
  }

  lemma {:induction false} NewCoachesNoneKnown(merged: seq<CoachRow>, scraped: seq<CoachRow>)
    requires forall k :: 0 <= k < |scraped| ==> Known(scraped[k], merged)
    ensures NewCoaches(merged, scraped) == []
  {
    if |scraped| > 0 {
      var n := |scraped| - 1;
      assert Known(scraped[n], merged);
      NewCoachesNoneKnown(merged, scraped[..n]);
    }
  }

  // -------------------------------------------------------------------
  // headshots

  /** Days after which a checked headshot is looked up again. */
  const RecheckDays := 365

  /** A row is looked up when it has a link and was never checked, or was
      last checked more than a year ago. */
  predicate Due(row: CoachRow, today: int) {
    row.url.Some? && (row.lastChecked.None? || today - row.lastChecked.value > RecheckDays)
  }

  /** `apply_headshot` on one row, `today` being the day number of the
      current date and `lookup` the image link found on a coach page
      (`None` when there is none or the request failed). */
  function ApplyHeadshot(row: CoachRow, today: int, lookup: string -> Option<string>): (r: CoachRow)
    ensures !Due(row, today) ==> r == row
    ensures Due(row, today) ==> r == row.(imageUrl := lookup(row.url.value), lastChecked := Some(today))
  {
    if row.url.None? then row
    else if row.lastChecked.None? then row.(imageUrl := lookup(row.url.value), lastChecked := Some(today))
    else if today - row.lastChecked.value > RecheckDays then row.(imageUrl := lookup(row.url.value), lastChecked := Some(today))
    else row
  }

  /** A row checked today is not looked up again the same day. */
  lemma HeadshotIdempotent(row: CoachRow, today: int, lookup: string -> Option<string>)
    ensures ApplyHeadshot(ApplyHeadshot(row, today, lookup), today, lookup) == ApplyHeadshot(row, today, lookup)
  {
  }

  /** After the pass every row with a link was checked within the last
      year. */
  lemma HeadshotFresh(row: CoachRow, today: int, lookup: string -> Option<string>)
    requires row.lastChecked.Some? ==> row.lastChecked.value <= today
    ensures var r := ApplyHeadshot(row, today, lookup);
            r.url.Some? ==> r.lastChecked.Some? && 0 <= today - r.lastChecked.value <= RecheckDays
  {
  }

  /** `update_urls`: the headshot rule applied to every row in order. */
  method UpdateUrls(rows: seq<CoachRow>, today: int, lookup: string -> Option<string>) returns (r: seq<CoachRow>)
    ensures |r| == |rows|
    ensures forall k :: 0 <= k < |rows| ==> r[k] == ApplyHeadshot(rows[k], today, lookup)
  {
    r := [];
    for i := 0 to |rows|
      invariant |r| == i
      invariant forall k :: 0 <= k < i ==> r[k] == ApplyHeadshot(rows[k], today, lookup)
    {
      r := r + [ApplyHeadshot(rows[i], today, lookup)];
    }
  }
}
