/**
 * The pagination control, as a sequence of tokens rather than markup: the
 * numbered window around the current page, the first/last shortcuts with their
 * ellipses, the Previous/Next buttons and the "Showing N of M" line. The server
 * (render_pagination) and the client (renderPagination) emit the same tokens.
 */
module Pager {
  import opened Base
  import opened Store
  import opened Pagination

  datatype Token =
    | Open(current: int, pages: int, planType: Category)  // the wrapper with data-current / data-total
    | Prev(target: int)
    | PageButton(page: int, active: bool)
    | Dots
    | Next(target: int)
    | Info(showing: int, total: int)

  function WindowStart(d: Descriptor): int {
    Max(1, d.currentPage - 2)
  }

  function WindowEnd(d: Descriptor): int {
    Min(d.pages, d.currentPage + 2)
  }

  /** Buttons lo..hi in increasing order, the one equal to `current` marked active. */
  function Window(lo: int, hi: int, current: int): (w: seq<Token>)
    ensures |w| == Max(0, hi - lo + 1)
    decreases hi - lo
  {
    if lo > hi then [] else Window(lo, hi - 1, current) + [PageButton(hi, hi == current)]
  }

  lemma {:induction false} WindowAt(lo: int, hi: int, current: int, k: int)
    requires 0 <= k < hi - lo + 1
    ensures Window(lo, hi, current)[k] == PageButton(lo + k, lo + k == current)
    decreases hi - lo
  {
    if k < hi - lo {
      WindowAt(lo, hi - 1, current, k);
    }
  }

  function Leading(start: int): seq<Token> {
    if start > 1 then [PageButton(1, false)] + (if start > 2 then [Dots] else []) else []
  }

  function Trailing(end: int, pages: int): seq<Token> {
    if end < pages then (if end < pages - 1 then [Dots] else []) + [PageButton(pages, false)] else []
  }

  /** The page-numbers strip. */
  function Numbers(d: Descriptor): seq<Token> {
    Leading(WindowStart(d)) + Window(WindowStart(d), WindowEnd(d), d.currentPage) + Trailing(WindowEnd(d), d.pages)
  }

  /** Everything the pagination renderer emits for one descriptor; nothing for a single page. */
  function Tokens(d: Descriptor): seq<Token> {
    if d.pages <= 1 then []
    else
      [Open(d.currentPage, d.pages, d.planType)]
      + (if d.hasPrev then [Prev(d.currentPage - 1)] else [])
      + Numbers(d)
      + (if d.hasNext then [Next(d.currentPage + 1)] else [])
      + [Info(Showing(d), d.total)]
  }

  /** The loop over the window: one button per page from `lo` to `hi`. */
  method RenderWindow(lo: int, hi: int, current: int) returns (out: seq<Token>)
    ensures out == Window(lo, hi, current)
  {
    out := [];
    var i := lo;
    while i <= hi
      invariant lo <= i <= Max(lo, hi + 1)
      invariant out == Window(lo, i - 1, current)
    {
      out := out + [PageButton(i, i == current)];
      i := i + 1;
    }
  }

  /** render_pagination: each part of the template in turn, then the parts in output order. */
  method RenderPagination(d: Descriptor) returns (out: seq<Token>)
    ensures out == Tokens(d)
  {
    if d.pages <= 1 {
      return [];
    }
    var prev := [];
    if d.hasPrev {
      prev := [Prev(d.currentPage - 1)];
    }
    var start := Max(1, d.currentPage - 2);
    var end := Min(d.pages, d.currentPage + 2);
    var lead := [];
    if start > 1 {
      lead := [PageButton(1, false)];
      if start > 2 {
        lead := lead + [Dots];
      }
    }
    var buttons := RenderWindow(start, end, d.currentPage);
    var trail := [];
    if end < d.pages {
      if end < d.pages - 1 {
        trail := [Dots];
      }
      trail := trail + [PageButton(d.pages, false)];
    }
    var next := [];
    if d.hasNext {
      next := [Next(d.currentPage + 1)];
    }
    assert start == WindowStart(d) && end == WindowEnd(d);
    assert lead == Leading(start);
    assert trail == Trailing(end, d.pages);
    var numbers := lead + buttons + trail;
    assert numbers == Numbers(d);
    out := [Open(d.currentPage, d.pages, d.planType)] + prev + numbers + next + [Info(Showing(d), d.total)];
  }

  // ---------------------------------------------------------------------------
  // The shape of the page-numbers strip

  ghost predicate OnlyButtonsAndDots(m: seq<Token>) {
    forall i :: 0 <= i < |m| ==> m[i].PageButton? || m[i].Dots?
  }

  /** Two buttons side by side are consecutive pages. */
  ghost predicate AdjacentButtonsConsecutive(m: seq<Token>) {
    forall i :: 0 <= i < |m| - 1 && m[i].PageButton? && m[i + 1].PageButton? ==> m[i + 1].page == m[i].page + 1
  }

  /** An ellipsis sits between two buttons and stands for at least one skipped page. */
  ghost predicate DotsMarkGaps(m: seq<Token>) {
    forall i :: 0 <= i < |m| && m[i].Dots? ==>
      0 < i < |m| - 1 && m[i - 1].PageButton? && m[i + 1].PageButton? && m[i + 1].page > m[i - 1].page + 1
  }

  /** How many tokens precede the window: the first-page button and its ellipsis. */
  function LeadCount(d: Descriptor): int {
    var start := WindowStart(d);
    if start > 2 then 2 else if start > 1 then 1 else 0
  }

  /** How many tokens follow the window: an ellipsis and the last-page button. */
  function TrailCount(d: Descriptor): int {
    var end := WindowEnd(d);
    if end < d.pages - 1 then 2 else if end < d.pages then 1 else 0
  }

  /** The strip's i-th token, by position: leading part, window, trailing part. */
  function StripAt(d: Descriptor, i: int): Token {
    var start, end := WindowStart(d), WindowEnd(d);
    var l, w := LeadCount(d), end - start + 1;
    if i < l then (if i == 0 then PageButton(1, false) else Dots)
    else if i < l + w then PageButton(start + (i - l), start + (i - l) == d.currentPage)
    else if TrailCount(d) == 2 && i == l + w then Dots
    else PageButton(d.pages, false)
  }

  lemma NumbersAt(d: Descriptor, i: int)
    requires 1 <= d.currentPage <= d.pages
    requires 0 <= i < |Numbers(d)|
    ensures |Numbers(d)| == LeadCount(d) + (WindowEnd(d) - WindowStart(d) + 1) + TrailCount(d)
    ensures Numbers(d)[i] == StripAt(d, i)
  {
    var start, end, cp := WindowStart(d), WindowEnd(d), d.currentPage;
    var L, W, T := Leading(start), Window(start, end, cp), Trailing(end, d.pages);
    assert Numbers(d) == L + W + T;
    if |L| <= i < |L| + |W| {
      WindowAt(start, end, cp, i - |L|);
    }
  }

  lemma NumbersLength(d: Descriptor)
    requires 1 <= d.currentPage <= d.pages
    ensures WindowStart(d) <= d.currentPage <= WindowEnd(d)
    ensures |Numbers(d)| == LeadCount(d) + (WindowEnd(d) - WindowStart(d) + 1) + TrailCount(d)
  {
  }

  /** The strip starts with page 1 and ends with the last page. */
  lemma StripEnds(d: Descriptor)
    requires 1 <= d.currentPage <= d.pages
    ensures |Numbers(d)| >= 1
    ensures Numbers(d)[0] == PageButton(1, d.currentPage == 1)
    ensures Numbers(d)[|Numbers(d)| - 1] == PageButton(d.pages, d.currentPage == d.pages)
  {
    NumbersLength(d);
    NumbersAt(d, 0);
    NumbersAt(d, |Numbers(d)| - 1);
  }

  /**
   * Only buttons and ellipses; every button is a page in 1..pages, active exactly
   * when it is the current page, and all but the first and last lie within two of it.
   */
  lemma StripButtons(d: Descriptor)
    requires 1 <= d.currentPage <= d.pages
    ensures OnlyButtonsAndDots(Numbers(d))
    ensures forall i :: 0 <= i < |Numbers(d)| && Numbers(d)[i].PageButton? ==>
      1 <= Numbers(d)[i].page <= d.pages && (Numbers(d)[i].active <==> Numbers(d)[i].page == d.currentPage)
    ensures forall i :: 0 < i < |Numbers(d)| - 1 && Numbers(d)[i].PageButton? ==>
      d.currentPage - 2 <= Numbers(d)[i].page <= d.currentPage + 2
  {
    var m := Numbers(d);
    forall i | 0 <= i < |m|
      ensures m[i].PageButton? || m[i].Dots?
      ensures m[i].PageButton? ==> 1 <= m[i].page <= d.pages && (m[i].active <==> m[i].page == d.currentPage)
      ensures 0 < i < |m| - 1 && m[i].PageButton? ==> d.currentPage - 2 <= m[i].page <= d.currentPage + 2
    {
      NumbersAt(d, i);
    }
  }

  lemma StripAscends(d: Descriptor)
    requires 1 <= d.currentPage <= d.pages
    ensures AdjacentButtonsConsecutive(Numbers(d))
  {
    var m := Numbers(d);
    forall i | 0 <= i < |m| - 1 && m[i].PageButton? && m[i + 1].PageButton?
      ensures m[i + 1].page == m[i].page + 1
    {
      NumbersAt(d, i);
      NumbersAt(d, i + 1);
    }
  }

  lemma StripGaps(d: Descriptor)
    requires 1 <= d.currentPage <= d.pages
    ensures DotsMarkGaps(Numbers(d))
  {
    var m := Numbers(d);
    forall i | 0 <= i < |m| && m[i].Dots?
      ensures 0 < i < |m| - 1 && m[i - 1].PageButton? && m[i + 1].PageButton? && m[i + 1].page > m[i - 1].page + 1
    {
      NumbersAt(d, i);
      assert 0 < i < |m| - 1;
      NumbersAt(d, i - 1);
      NumbersAt(d, i + 1);
    }
  }

  lemma StripShowsCurrent(d: Descriptor)
    requires 1 <= d.currentPage <= d.pages
    ensures exists i :: 0 <= i < |Numbers(d)| && Numbers(d)[i] == PageButton(d.currentPage, true)
  {
    NumbersLength(d);
    var i := LeadCount(d) + (d.currentPage - WindowStart(d));
    NumbersAt(d, i);
  }

  /**
   * For a current page within 1..pages: the strip runs from page 1 to the last page,
   * the buttons ascend, an ellipsis appears exactly where pages are skipped, every
   * button other than the first and last lies within two of the current page, and a
   * button is active exactly when it is the current page, which is shown.
   */
  lemma NumbersShape(d: Descriptor)
    requires 1 <= d.currentPage <= d.pages
    ensures var m := Numbers(d);
      && |m| >= 1
      && OnlyButtonsAndDots(m)
      && m[0] == PageButton(1, d.currentPage == 1)
      && m[|m| - 1] == PageButton(d.pages, d.currentPage == d.pages)
      && AdjacentButtonsConsecutive(m)
      && DotsMarkGaps(m)
      && (forall i :: 0 <= i < |m| && m[i].PageButton? ==> 1 <= m[i].page <= d.pages)
      && (forall i :: 0 <= i < |m| && m[i].PageButton? ==>
            (m[i].active <==> m[i].page == d.currentPage))
      && (forall i :: 0 < i < |m| - 1 && m[i].PageButton? ==>
            d.currentPage - 2 <= m[i].page <= d.currentPage + 2)
      && (exists i :: 0 <= i < |m| && m[i] == PageButton(d.currentPage, true))
  {
    StripEnds(d);
    StripButtons(d);
    StripAscends(d);
    StripGaps(d);
    StripShowsCurrent(d);
  }

  // ---------------------------------------------------------------------------
  // Against the endpoint's pages

  /** Whatever page a token points to lies in 1..pages, for a consistent descriptor. */
  lemma TargetsWithinRange(d: Descriptor)
    requires 1 <= d.currentPage <= d.pages
    requires d.hasPrev ==> d.currentPage > 1
    requires d.hasNext ==> d.currentPage < d.pages
    ensures forall t :: t in Tokens(d) && t.PageButton? ==> 1 <= t.page <= d.pages
    ensures forall t :: t in Tokens(d) && t.Prev? ==> 1 <= t.target <= d.pages
    ensures forall t :: t in Tokens(d) && t.Next? ==> 1 <= t.target <= d.pages
  {
    if d.pages >= 2 {
      var m := Numbers(d);
      StripButtons(d);
      var ends := [Open(d.currentPage, d.pages, d.planType), Info(Showing(d), d.total)];
      var prev := if d.hasPrev then [Prev(d.currentPage - 1)] else [];
      var next := if d.hasNext then [Next(d.currentPage + 1)] else [];
      forall t | t in Tokens(d)
        ensures t in ends || t in prev || t in m || t in next
      {
        TokensParts(d, t);
      }
      forall t | t in m && t.PageButton?
        ensures 1 <= t.page <= d.pages
      {
        var i :| 0 <= i < |m| && m[i] == t;
      }
    }
  }

  /** A token of a multi-page control is the wrapper, the info line, Previous, Next or part of the strip. */
  lemma TokensParts(d: Descriptor, t: Token)
    requires d.pages >= 2 && t in Tokens(d)
    ensures t == Open(d.currentPage, d.pages, d.planType) || t == Info(Showing(d), d.total)
      || (d.hasPrev && t == Prev(d.currentPage - 1)) || (d.hasNext && t == Next(d.currentPage + 1))
      || t in Numbers(d)
  {
    var prev := if d.hasPrev then [Prev(d.currentPage - 1)] else [];
    var next := if d.hasNext then [Next(d.currentPage + 1)] else [];
    var m := Numbers(d);
    var upToPrev := [Open(d.currentPage, d.pages, d.planType)] + prev;
    var upToNext := upToPrev + m + next;
    assert Tokens(d) == upToNext + [Info(Showing(d), d.total)];
    if t in upToNext {
      assert t in upToPrev + m || t in next;
    }
  }

  /** Every target the server's pagination offers for a cached page is itself a cached page. */
  lemma EveryTargetIsCached(pages: map<int, PageData>, plans: seq<PlanRecord>, c: Category, perPage: int, p: int)
    requires perPage >= 1 && IsPartition(pages, plans, c, perPage) && p in pages
    ensures forall t :: t in Tokens(pages[p].pagination) && t.PageButton? ==> t.page in pages
    ensures forall t :: t in Tokens(pages[p].pagination) && t.Prev? ==> t.target in pages
    ensures forall t :: t in Tokens(pages[p].pagination) && t.Next? ==> t.target in pages
  {
    PartitionKeys(pages, plans, c, perPage);
    DescriptorFlags(pages, plans, c, perPage, p, p);
    TargetsWithinRange(pages[p].pagination);
  }
}
