/**
 * The pagination bar that the success callback of `getUserData` renders from
 * the page number and the page count the server returned.
 */
module Pagination {
  import opened Js

  /**
   * One anchor of the bar. `Prev` and `Next` carry their `data-page` target,
   * or None when they are rendered disabled (without `data-page`); `Gap` is
   * the disabled `???` marker; `Link` is a numbered page, `active` when it is
   * the current page.
   */
  datatype Item =
    | Prev(target: Option<int>)
    | Gap
    | Link(n: int, active: bool)
    | Next(target: Option<int>)

  function Max(a: int, b: int): int { if a < b then b else a }
  function Min(a: int, b: int): int { if a < b then a else b }

  /** The `???` marker after Prev. */
  predicate LeadingGap(page: int, nbPages: int) { page > 4 && nbPages > 5 }

  /** The `???` marker before Next: `page < 3`, not the mirror of LeadingGap. */
  predicate TrailingGap(page: int, nbPages: int) { page < 3 && nbPages > 5 }

  /** Page `i` gets a numbered link: it exists and is within two of the current page. */
  predicate InWindow(page: int, nbPages: int, i: int) {
    1 <= i <= nbPages && page - 2 <= i <= page + 2
  }

  /** Numbered links for the pages lo..hi, in order; only `page` is active. */
  function Links(lo: int, hi: int, page: int): seq<Item>
    decreases hi - lo
  {
    if lo > hi then [] else [Link(lo, lo == page)] + Links(lo + 1, hi, page)
  }

  /** First and last numbered page of the window. */
  function Lo(page: int): int { Max(1, page - 2) }
  function Hi(page: int, nbPages: int): int { Min(nbPages, page + 2) }

  function PrevItem(page: int): Item {
    if page == 1 then Prev(None) else Prev(Some(page - 1))
  }

  function NextItem(page: int, nbPages: int): Item {
    if page == nbPages then Next(None) else Next(Some(page + 1))
  }

  /** The whole bar, as a reference: Prev, markers, the window, Next. */
  function Bar(page: int, nbPages: int): seq<Item> {
    [PrevItem(page)]
    + (if LeadingGap(page, nbPages) then [Gap] else [])
    + Links(Lo(page), Hi(page, nbPages), page)
    + (if TrailingGap(page, nbPages) then [Gap] else [])
    + [NextItem(page, nbPages)]
  }

  lemma {:induction false} LinksShape(lo: int, hi: int, page: int)
    ensures |Links(lo, hi, page)| == if lo > hi then 0 else hi - lo + 1
    ensures forall k :: 0 <= k < |Links(lo, hi, page)| ==>
              Links(lo, hi, page)[k] == Link(lo + k, lo + k == page)
    decreases hi - lo
  {
    if lo <= hi {
      LinksShape(lo + 1, hi, page);
    }
  }

  lemma {:induction false} LinksSnoc(lo: int, hi: int, page: int)
    requires lo <= hi + 1
    ensures Links(lo, hi + 1, page) == Links(lo, hi, page) + [Link(hi + 1, hi + 1 == page)]
    decreases hi - lo
  {
    if lo <= hi {
      LinksSnoc(lo + 1, hi, page);
      assert Links(lo, hi + 1, page)
          == [Link(lo, lo == page)] + (Links(lo + 1, hi, page) + [Link(hi + 1, hi + 1 == page)]);
    }
  }

  /** One step of the scan: page `i` extends the window iff it is within two of `page`. */
  lemma WindowStep(page: int, i: int)
    requires 1 <= i
    ensures Links(Lo(page), Min(i, page + 2), page)
         == Links(Lo(page), Min(i - 1, page + 2), page)
            + (if page - 2 <= i <= page + 2 then [Link(i, page == i)] else [])
  {
    if page - 2 <= i <= page + 2 {
      LinksSnoc(Lo(page), i - 1, page);
    }
  }

  /**
   * Renders the bar as the callback does: push Prev, maybe the leading marker,
   * then scan every page 1..nbPages and push those near the current one, then
   * maybe the trailing marker, then Next.
   */
  method BuildBar(page: int, nbPages: int) returns (p: seq<Item>)
    ensures p == Bar(page, nbPages)
  {
    p := [if page == 1 then Prev(None) else Prev(Some(page - 1))];
    if page > 4 && nbPages > 5 {
      p := p + [Gap];
    }
    ghost var head := p;
    var i := 1;
    while i <= nbPages
      invariant 1 <= i <= Max(nbPages + 1, 1)
      invariant p == head + Links(Lo(page), Min(i - 1, page + 2), page)
    {
      WindowStep(page, i);
      if i >= page - 2 && i <= page + 2 {
        p := p + [Link(i, page == i)];
      }
      i := i + 1;
    }
    assert Links(Lo(page), Min(i - 1, page + 2), page) == Links(Lo(page), Hi(page, nbPages), page);
    if page < 3 && nbPages > 5 {
      p := p + [Gap];
    }
    p := p + [if page == nbPages then Next(None) else Next(Some(page + 1))];
  }

  /** Where the numbered links start in the bar. */
  function Offset(page: int, nbPages: int): int {
    if LeadingGap(page, nbPages) then 2 else 1
  }

  function WindowSize(page: int, nbPages: int): int {
    if Lo(page) > Hi(page, nbPages) then 0 else Hi(page, nbPages) - Lo(page) + 1
  }

  /** The item at each position of the bar, region by region. */
  lemma BarAt(page: int, nbPages: int, k: int)
    requires 0 <= k < |Bar(page, nbPages)|
    ensures |Bar(page, nbPages)| == Offset(page, nbPages) + WindowSize(page, nbPages)
                                     + (if TrailingGap(page, nbPages) then 2 else 1)
    ensures k == 0 ==> Bar(page, nbPages)[k] == PrevItem(page)
    ensures 0 < k < Offset(page, nbPages) ==> Bar(page, nbPages)[k] == Gap
    ensures Offset(page, nbPages) <= k < Offset(page, nbPages) + WindowSize(page, nbPages) ==>
              Bar(page, nbPages)[k]
              == Link(Lo(page) + k - Offset(page, nbPages), Lo(page) + k - Offset(page, nbPages) == page)
    ensures Offset(page, nbPages) + WindowSize(page, nbPages) <= k < |Bar(page, nbPages)| - 1 ==>
              Bar(page, nbPages)[k] == Gap
    ensures k == |Bar(page, nbPages)| - 1 ==> Bar(page, nbPages)[k] == NextItem(page, nbPages)
  {
    var w := Links(Lo(page), Hi(page, nbPages), page);
    LinksShape(Lo(page), Hi(page, nbPages), page);
    var head := [PrevItem(page)] + (if LeadingGap(page, nbPages) then [Gap] else []);
    var tail := (if TrailingGap(page, nbPages) then [Gap] else []) + [NextItem(page, nbPages)];
    assert Bar(page, nbPages) == head + w + tail;
    if k < |head| {
      assert Bar(page, nbPages)[k] == head[k];
    } else if k < |head| + |w| {
      assert Bar(page, nbPages)[k] == w[k - |head|];
    } else {
      assert Bar(page, nbPages)[k] == tail[k - |head| - |w|];
    }
  }

  /**
   * Prev comes first and Next last, nothing else is either: Prev is disabled
   * exactly on page 1 and otherwise targets the page before; Next is disabled
   * exactly when the page is the last one and otherwise targets the page after.
   */
  lemma BarEnds(page: int, nbPages: int)
    ensures var b := Bar(page, nbPages);
      && b[0].Prev? && (b[0].target == None <==> page == 1)
      && (page != 1 ==> b[0].target == Some(page - 1))
      && b[|b| - 1].Next? && (b[|b| - 1].target == None <==> page == nbPages)
      && (page != nbPages ==> b[|b| - 1].target == Some(page + 1))
      && forall k :: 0 < k < |b| - 1 ==> b[k].Gap? || b[k].Link?
  {
    var b := Bar(page, nbPages);
    BarAt(page, nbPages, 0);
    BarAt(page, nbPages, |b| - 1);
    forall k | 0 < k < |b| - 1 ensures b[k].Gap? || b[k].Link? {
      BarAt(page, nbPages, k);
    }
  }

  /**
   * The numbered links are exactly the pages in the window, in strictly
   * increasing order (so each at most once), and a link is active exactly
   * when it is the current page.
   */
  lemma BarLinks(page: int, nbPages: int)
    ensures var b := Bar(page, nbPages);
      && (forall k :: 0 <= k < |b| && b[k].Link? ==>
            InWindow(page, nbPages, b[k].n) && (b[k].active <==> b[k].n == page))
      && (forall i :: InWindow(page, nbPages, i) ==>
            exists k :: 0 <= k < |b| && b[k] == Link(i, i == page))
      && (forall j, k :: 0 <= j < k < |b| && b[j].Link? && b[k].Link? ==> b[j].n < b[k].n)
  {
    var b := Bar(page, nbPages);
    forall k | 0 <= k < |b| && b[k].Link?
      ensures InWindow(page, nbPages, b[k].n) && (b[k].active <==> b[k].n == page)
      ensures Offset(page, nbPages) <= k < Offset(page, nbPages) + WindowSize(page, nbPages)
      ensures b[k].n == Lo(page) + k - Offset(page, nbPages)
    {
      BarAt(page, nbPages, k);
      BarAt(page, nbPages, 0);
    }
    forall i | InWindow(page, nbPages, i)
      ensures exists k :: 0 <= k < |b| && b[k] == Link(i, i == page)
    {
      var k := Offset(page, nbPages) + i - Lo(page);
      BarAt(page, nbPages, 0);
      BarAt(page, nbPages, k);
      assert b[k] == Link(i, i == page);
    }
  }

  /**
   * At most one `???` marker is shown: right after Prev when LeadingGap holds,
   * right before Next when TrailingGap holds, and none otherwise.
   */
  lemma BarGaps(page: int, nbPages: int)
    ensures var b := Bar(page, nbPages);
      && !(LeadingGap(page, nbPages) && TrailingGap(page, nbPages))
      && (LeadingGap(page, nbPages) ==> b[1] == Gap)
      && (TrailingGap(page, nbPages) ==> b[|b| - 2] == Gap)
      && forall k :: 0 <= k < |b| && b[k] == Gap ==>
           (k == 1 && LeadingGap(page, nbPages)) || (k == |b| - 2 && TrailingGap(page, nbPages))
  {
    var b := Bar(page, nbPages);
    BarAt(page, nbPages, 0);
    BarAt(page, nbPages, 1);
    BarAt(page, nbPages, |b| - 2);
    forall k | 0 <= k < |b| && b[k] == Gap
      ensures (k == 1 && LeadingGap(page, nbPages)) || (k == |b| - 2 && TrailingGap(page, nbPages))
    {
      BarAt(page, nbPages, k);
    }
  }

  /**
   * The `data-page` of the first active link, as `$('#pagination li.active a')`
   * reads it; None when no link is active.
   */
  function FirstActive(b: seq<Item>): (r: Option<int>)
    ensures r == None <==> forall k :: 0 <= k < |b| ==> !(b[k].Link? && b[k].active)
    ensures r.Some? ==> exists k :: 0 <= k < |b| && b[k] == Link(r.value, true)
                                 && forall j :: 0 <= j < k ==> !(b[j].Link? && b[j].active)
  {
    if b == [] then None
    else if b[0].Link? && b[0].active then Some(b[0].n)
    else
      var r := FirstActive(b[1..]);
      assert forall k :: 1 <= k < |b| ==> b[k] == b[1..][k - 1];
      r
  }

  /** The active page read back from a rendered bar is the current page, if it exists. */
  lemma ActiveOfBar(page: int, nbPages: int)
    ensures FirstActive(Bar(page, nbPages)) == if 1 <= page <= nbPages then Some(page) else None
  {
    BarLinks(page, nbPages);
    var b := Bar(page, nbPages);
    if 1 <= page <= nbPages {
      assert InWindow(page, nbPages, page);
      var k :| 0 <= k < |b| && b[k] == Link(page, true);
      assert FirstActive(b).Some?;
    }
  }

  /**
   * The trailing marker is not the mirror image of the leading one: on page 1
   * of 10 the marker stands for the unlinked pages 4 to 10, and on page 5 of
   * 10 a marker stands for pages 1 and 2, but none for pages 8 to 10.
   */
  lemma TrailingGapAsymmetric()
    ensures Bar(1, 10) == [Prev(None), Link(1, true), Link(2, false), Link(3, false), Gap,
                           Next(Some(2))]
    ensures Bar(5, 10) == [Prev(Some(4)), Gap, Link(3, false), Link(4, false), Link(5, true),
                           Link(6, false), Link(7, false), Next(Some(6))]
  {
  }
}
