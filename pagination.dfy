/**
 * The server's page arithmetic: the map from page number to page payload that the
 * "load all plans" endpoint returns for one category, and the single page the
 * shortcode renders first.
 */
module Pagination {
  import opened Base
  import opened Store
  import opened Plans

  /** The `pagination` part of a page payload. */
  datatype Descriptor = Descriptor(
    currentPage: int,
    perPage: int,
    total: int,
    pages: int,
    hasPrev: bool,
    hasNext: bool,
    planType: Category)

  /** One page payload: `{plans, pagination}`. */
  datatype PageData = PageData(plans: seq<PlanView>, pagination: Descriptor)

  /** PHP's ceil($t / $d) for a count `t` and a non-zero divisor (a zero divisor is a DivisionByZeroError). */
  function CeilDiv(t: nat, d: int): (r: int)
    requires d != 0
    ensures d > 0 ==> r >= 0 && r * d >= t && (r - 1) * d < t
    ensures d < 0 ==> r <= 0
  {
    if d > 0 then
      var r := (t + d - 1) / d;
      CeilDivBounds(t, d, r);
      r
    else -(t / -d)
  }

  lemma CeilDivBounds(t: nat, d: int, r: int)
    requires d > 0 && r == (t + d - 1) / d
    ensures r >= 0 && r * d >= t && (r - 1) * d < t
  {
    var m := (t + d - 1) % d;
    assert t + d - 1 == r * d + m && 0 <= m < d;
    assert (r - 1) * d == r * d - d;
  }

  function TotalPages(total: nat, perPage: int): int
    requires perPage != 0
  {
    CeilDiv(total, perPage)
  }

  /** `current_page * per_page` capped at `total`: the "Showing N of M" count. */
  function Showing(d: Descriptor): int {
    Min(d.currentPage * d.perPage, d.total)
  }

  /**
   * The payload that get_all_plans_data stores under page number `page`: the
   * payloads, as get_single_plan_data builds them, of the plans from offset
   * (page - 1) * perPage on, at most perPage of them.
   */
  function PageEntry(plans: seq<PlanRecord>, c: Category, perPage: int, page: int): PageData
    requires perPage >= 1 && page >= 1
  {
    var pages := TotalPages(|plans|, perPage);
    var off := PageOffset(page, perPage);
    PageData(
      Views(SinglePlanDataAsWritten, plans[Min(off, |plans|)..Min(off + perPage, |plans|)]),
      Descriptor(page, perPage, |plans|, pages, page > 1, page < pages, c))
  }

  /**
   * What get_all_plans_data returns: a key for each page number from 1 to the page
   * count whose slice is non-empty, holding that page's payload.
   */
  ghost predicate IsPartition(pages: map<int, PageData>, plans: seq<PlanRecord>, c: Category, perPage: int)
    requires perPage != 0
  {
    && (forall p :: p in pages <==> 1 <= p <= TotalPages(|plans|, perPage) && StartsInside(p, perPage, |plans|))
    && (forall p :: p in pages ==> perPage >= 1 && pages[p] == PageEntry(plans, c, perPage, p))
  }

  /** Page p's offset, (p - 1) * perPage, falls inside the result set: the paged query returns something. */
  predicate StartsInside(p: int, perPage: int, total: int) {
    (p - 1) * perPage < total
  }

  /**
   * get_all_plans_data. `limit` feeds only a query whose result is never used: every
   * paged query replaces the page size with `perPage`, so the pages do not depend on it.
   * `sitePerPage` is the site's `posts_per_page` option, which that unused query
   * falls back on for a limit of 0.
   */
  method GetAllPlansData(plans: seq<PlanRecord>, c: Category, perPage: int, limit: int, sitePerPage: int)
    returns (pages: map<int, PageData>)
    requires perPage != 0
    ensures IsPartition(pages, plans, c, perPage)
  {
    var total := |plans|;
    var totalPages := CeilDiv(total, perPage);
    var allPlans := Views(SinglePlanDataAsWritten, WpSlice(plans, 0, limit, sitePerPage));  // computed and then not used
    pages := map[];
    var page := 1;
    while page <= totalPages
      invariant 1 <= page && (totalPages >= 1 ==> page <= totalPages + 1)
      invariant forall p :: p in pages <==> 1 <= p < page && p <= totalPages && StartsInside(p, perPage, total)
      invariant forall p :: p in pages ==> perPage >= 1 && pages[p] == PageEntry(plans, c, perPage, p)
    {
      var offset := (page - 1) * perPage;
      var pagePlans := Views(SinglePlanDataAsWritten, WpSlice(plans, offset, perPage, sitePerPage));
      PageSliceFacts(plans, perPage, page, sitePerPage);
      if |pagePlans| > 0 {
        pages := pages[page := PageData(pagePlans,
          Descriptor(page, perPage, total, totalPages, page > 1, page < totalPages, c))];
      }
      page := page + 1;
    }
  }

  /** The paged query for page p (p >= 1) returns the slice starting at (p - 1) * perPage. */
  lemma PageSliceFacts(plans: seq<PlanRecord>, perPage: int, page: int, sitePerPage: int)
    requires perPage != 0 && page >= 1 && page <= CeilDiv(|plans|, perPage)
    ensures perPage >= 1 && (page - 1) * perPage == PageOffset(page, perPage)
    ensures var off := (page - 1) * perPage;
      WpSlice(plans, off, perPage, sitePerPage) == plans[Min(off, |plans|)..Min(off + perPage, |plans|)]
    ensures var off := (page - 1) * perPage;
      |WpSlice(plans, off, perPage, sitePerPage)| > 0 <==> StartsInside(page, perPage, |plans|)
  {
    MulMonotone(0, page - 1, perPage);
  }

  /** A page that starts inside the result set holds the payloads from its offset on. */
  lemma PageEntryPlans(plans: seq<PlanRecord>, c: Category, perPage: int, page: int)
    requires perPage >= 1 && page >= 1 && StartsInside(page, perPage, |plans|)
    ensures var off := PageOffset(page, perPage);
      off < |plans|
      && PageEntry(plans, c, perPage, page).plans
         == Views(SinglePlanDataAsWritten, plans)[off..Min(off + perPage, |plans|)]
  {
    var off := PageOffset(page, perPage);
    ViewsSlice(SinglePlanDataAsWritten, plans, off, Min(off + perPage, |plans|));
  }

  /** A page that starts inside the result set holds perPage plans, or the rest of them. */
  lemma PageEntrySize(plans: seq<PlanRecord>, c: Category, perPage: int, page: int)
    requires perPage >= 1 && page >= 1 && StartsInside(page, perPage, |plans|)
    ensures var off := (page - 1) * perPage;
      0 <= off < |plans| && |PageEntry(plans, c, perPage, page).plans| == Min(off + perPage, |plans|) - off
  {
    assert PageOffset(page, perPage) == (page - 1) * perPage;
  }

  // ---------------------------------------------------------------------------
  // Properties of the partition

  lemma MulMonotone(a: int, b: int, d: int)
    requires a <= b && d >= 0
    ensures a * d <= b * d
  {
  }

  /** With a positive page size no page between 1 and the page count is empty, so there are no gaps. */
  lemma {:induction false} PartitionKeys(pages: map<int, PageData>, plans: seq<PlanRecord>, c: Category, perPage: int)
    requires perPage >= 1 && IsPartition(pages, plans, c, perPage)
    ensures forall p :: p in pages <==> 1 <= p <= TotalPages(|plans|, perPage)
  {
    var n := TotalPages(|plans|, perPage);
    forall p | 1 <= p <= n
      ensures StartsInside(p, perPage, |plans|)
    {
      MulMonotone(p - 1, n - 1, perPage);
    }
  }

  /** A negative page size makes the page count non-positive: the endpoint returns no pages. */
  lemma NegativePageSizeGivesNoPages(pages: map<int, PageData>, plans: seq<PlanRecord>, c: Category, perPage: int)
    requires perPage < 0 && IsPartition(pages, plans, c, perPage)
    ensures pages == map[]
  {
    assert forall p :: p !in pages;
  }

  /** The plans of pages 1..k, in page order. */
  function Concat(pages: map<int, PageData>, k: int): seq<PlanView> {
    if k <= 0 then [] else Concat(pages, k - 1) + (if k in pages then pages[k].plans else [])
  }

  lemma ConcatPrefix(pages: map<int, PageData>, plans: seq<PlanRecord>, c: Category, perPage: int, k: int)
    requires perPage >= 1 && IsPartition(pages, plans, c, perPage)
    requires 0 <= k <= TotalPages(|plans|, perPage)
    ensures Concat(pages, k) == Views(SinglePlanDataAsWritten, plans)[..Min(k * perPage, |plans|)]
  {
    var all := Views(SinglePlanDataAsWritten, plans);
    forall j | 1 <= j <= k
      ensures j in pages && pages[j].plans == SliceOf(all, j, perPage)
    {
      PartitionSlice(pages, plans, c, perPage, j);
    }
    ConcatSlices(pages, all, perPage, k);
  }

  lemma PartitionSlice(pages: map<int, PageData>, plans: seq<PlanRecord>, c: Category, perPage: int, j: int)
    requires perPage >= 1 && IsPartition(pages, plans, c, perPage)
    requires 1 <= j <= TotalPages(|plans|, perPage)
    ensures j in pages && pages[j].plans == SliceOf(Views(SinglePlanDataAsWritten, plans), j, perPage)
  {
    PartitionPage(pages, plans, c, perPage, j);
    assert j * perPage == (j - 1) * perPage + perPage;
  }

  /** Page k's share of a list cut into pages of perPage items. */
  function SliceOf(all: seq<PlanView>, k: int, perPage: int): seq<PlanView>
    requires k >= 1 && perPage >= 1
  {
    MulMonotone(0, k - 1, perPage);
    MulMonotone(k - 1, k, perPage);
    all[Min((k - 1) * perPage, |all|)..Min(k * perPage, |all|)]
  }

  /** Pages holding consecutive slices of a list concatenate to a prefix of it. */
  lemma {:induction false} ConcatSlices(pages: map<int, PageData>, all: seq<PlanView>, perPage: int, k: int)
    requires perPage >= 1 && k >= 0
    requires forall j :: 1 <= j <= k ==> j in pages && pages[j].plans == SliceOf(all, j, perPage)
    ensures Concat(pages, k) == all[..Min(k * perPage, |all|)]
  {
    if k > 0 {
      ConcatSlices(pages, all, perPage, k - 1);
      MulMonotone(0, k - 1, perPage);
      MulMonotone(k - 1, k, perPage);
      var lo, hi := Min((k - 1) * perPage, |all|), Min(k * perPage, |all|);
      assert 0 <= lo <= hi <= |all|;
      assert pages[k].plans == all[lo..hi];
      assert Concat(pages, k) == all[..lo] + all[lo..hi];
      PrefixThenSlice(all, lo, hi);
    }
  }

  lemma PrefixThenSlice(all: seq<PlanView>, lo: int, hi: int)
    requires 0 <= lo <= hi <= |all|
    ensures all[..lo] + all[lo..hi] == all[..hi]
  {
    assert all[..hi] == all[..hi][..lo] + all[..hi][lo..];
  }

  /** Page k of 1..page count is present and holds the views from (k - 1) * perPage on. */
  lemma PartitionPage(pages: map<int, PageData>, plans: seq<PlanRecord>, c: Category, perPage: int, k: int)
    requires perPage >= 1 && IsPartition(pages, plans, c, perPage)
    requires 1 <= k <= TotalPages(|plans|, perPage)
    ensures 0 <= (k - 1) * perPage < |plans|
    ensures k in pages
    ensures pages[k].plans == Views(SinglePlanDataAsWritten, plans)[(k - 1) * perPage..Min((k - 1) * perPage + perPage, |plans|)]
  {
    var n := TotalPages(|plans|, perPage);
    MulMonotone(k - 1, n - 1, perPage);
    MulMonotone(0, k - 1, perPage);
    assert StartsInside(k, perPage, |plans|);
    PageEntryPlans(plans, c, perPage, k);
  }

  /** Concatenating the pages in key order gives back the payload of every listed plan of the category, whatever the limit. */
  lemma PartitionConcatenates(pages: map<int, PageData>, plans: seq<PlanRecord>, c: Category, perPage: int)
    requires perPage >= 1 && IsPartition(pages, plans, c, perPage)
    ensures Concat(pages, TotalPages(|plans|, perPage)) == Views(SinglePlanDataAsWritten, plans)
  {
    var n := TotalPages(|plans|, perPage);
    ConcatPrefix(pages, plans, c, perPage, n);
    assert Min(n * perPage, |plans|) == |plans|;
  }

  /** Every page holds between 1 and perPage plans; all but the last hold exactly perPage. */
  lemma PageSizes(pages: map<int, PageData>, plans: seq<PlanRecord>, c: Category, perPage: int, p: int)
    requires perPage >= 1 && IsPartition(pages, plans, c, perPage) && p in pages
    ensures 1 <= |pages[p].plans| <= perPage
    ensures p < TotalPages(|plans|, perPage) ==> |pages[p].plans| == perPage
    ensures p == TotalPages(|plans|, perPage) ==> |pages[p].plans| == |plans| - (p - 1) * perPage
  {
    var n := TotalPages(|plans|, perPage);
    assert 1 <= p <= n && StartsInside(p, perPage, |plans|);
    PageEntrySize(plans, c, perPage, p);
    if p < n {
      MulMonotone(p, n - 1, perPage);
      MulStep(p, perPage);
    }
  }

  lemma MulStep(a: int, d: int)
    ensures a * d == (a - 1) * d + d
  {
  }

  /**
   * Every descriptor has has_prev iff it is not the first page and has_next iff it is
   * not the last, and all pages agree on total and page count.
   */
  lemma DescriptorFlags(pages: map<int, PageData>, plans: seq<PlanRecord>, c: Category, perPage: int, p: int, q: int)
    requires perPage >= 1 && IsPartition(pages, plans, c, perPage) && p in pages && q in pages
    ensures pages[p].pagination.currentPage == p
    ensures pages[p].pagination.hasPrev <==> p > 1
    ensures pages[p].pagination.hasNext <==> p < pages[p].pagination.pages
    ensures pages[p].pagination.total == pages[q].pagination.total == |plans|
    ensures pages[p].pagination.pages == pages[q].pagination.pages == TotalPages(|plans|, perPage)
  {
  }

  /** On page p, "Showing N" counts exactly the plans on pages 1..p. */
  lemma ShowingCountsShownPlans(pages: map<int, PageData>, plans: seq<PlanRecord>, c: Category, perPage: int, p: int)
    requires perPage >= 1 && IsPartition(pages, plans, c, perPage) && p in pages
    ensures Showing(pages[p].pagination) == |Concat(pages, p)|
    ensures p == TotalPages(|plans|, perPage) ==> Showing(pages[p].pagination) == |plans|
  {
    ConcatPrefix(pages, plans, c, perPage, p);
    var n := TotalPages(|plans|, perPage);
    if p == n {
      assert p * perPage >= |plans|;
    }
  }

  /** Two per page and five plans: pages 1, 2 and 3 of sizes 2, 2 and 1; page 3 shows "5 of 5". */
  lemma FiveAtTwoPerPage(pages: map<int, PageData>, plans: seq<PlanRecord>, c: Category)
    requires |plans| == 5 && IsPartition(pages, plans, c, 2)
    ensures pages.Keys == {1, 2, 3}
    ensures |pages[1].plans| == 2 && |pages[2].plans| == 2 && |pages[3].plans| == 1
    ensures pages[3].pagination.hasPrev && !pages[3].pagination.hasNext
    ensures Showing(pages[3].pagination) == 5
  {
    assert TotalPages(5, 2) == 3;
    PartitionKeys(pages, plans, c, 2);
    assert forall p :: p in pages.Keys <==> p in {1, 2, 3};
    PageSizes(pages, plans, c, 2, 1);
    PageSizes(pages, plans, c, 2, 2);
    PageSizes(pages, plans, c, 2, 3);
  }

  // ---------------------------------------------------------------------------
  // The single page the shortcode renders

  /** The page size of get_plans_data's query: per_page, capped by limit unless limit is -1. */
  function QuerySize(perPage: int, limit: int): int {
    if limit == -1 then perPage else Min(perPage, limit)
  }

  /**
   * get_plans_data: one page, with the page number clamped to at least 1. `sitePerPage`
   * is the site's `posts_per_page` option, which WordPress uses when the query size is 0.
   */
  function GetPlansData(plans: seq<PlanRecord>, c: Category, page: int, perPage: int, limit: int, sitePerPage: int)
    : (r: PageData)
    requires perPage != 0
    ensures r.pagination.currentPage == Max(1, page) >= 1
    ensures r.pagination.hasPrev <==> r.pagination.currentPage > 1
    ensures r.pagination.hasNext <==> r.pagination.currentPage < r.pagination.pages
    ensures r.pagination.total == |plans| && r.pagination.pages == TotalPages(|plans|, perPage)
    ensures QuerySize(perPage, limit) >= 1 ==> |r.plans| <= QuerySize(perPage, limit)
    ensures QuerySize(perPage, limit) == 0 && sitePerPage >= 1 ==> |r.plans| <= sitePerPage
  {
    var cp := Max(1, page);
    var n := TotalPages(|plans|, perPage);
    PageData(
      Views(SinglePlanDataAsWritten, WpSlice(plans, (cp - 1) * perPage, QuerySize(perPage, limit), sitePerPage)),
      Descriptor(cp, perPage, |plans|, n, cp > 1, cp < n, c))
  }

  /** The query offset of a requested page: (page - 1) * per_page, the page clamped to at least 1. */
  function PageOffset(page: int, perPage: int): (off: int)
    requires perPage >= 1
    ensures off >= 0
  {
    MulMonotone(0, Max(1, page) - 1, perPage);
    (Max(1, page) - 1) * perPage
  }

  /** The page holds the plans from offset (page - 1) * per_page on, at most QuerySize of them. */
  lemma GetPlansDataSlice(plans: seq<PlanRecord>, c: Category, page: int, perPage: int, limit: int, sitePerPage: int)
    requires perPage >= 1 && QuerySize(perPage, limit) >= 1
    ensures var off, n := PageOffset(page, perPage), QuerySize(perPage, limit);
      GetPlansData(plans, c, page, perPage, limit, sitePerPage).plans
        == Views(SinglePlanDataAsWritten, plans)[Min(off, |plans|)..Min(off + n, |plans|)]
  {
    var off, n := PageOffset(page, perPage), QuerySize(perPage, limit);
    QueriedSlice(plans, off, n, sitePerPage);
    GetPlansDataQueries(plans, c, page, perPage, limit, sitePerPage);
  }

  lemma GetPlansDataQueries(plans: seq<PlanRecord>, c: Category, page: int, perPage: int, limit: int, sitePerPage: int)
    requires perPage >= 1
    ensures GetPlansData(plans, c, page, perPage, limit, sitePerPage).plans
      == Views(SinglePlanDataAsWritten, WpSlice(plans, PageOffset(page, perPage), QuerySize(perPage, limit), sitePerPage))
  {
  }

  lemma QueriedSlice(plans: seq<PlanRecord>, off: int, n: int, sitePerPage: int)
    requires off >= 0 && n >= 1
    ensures Views(SinglePlanDataAsWritten, WpSlice(plans, off, n, sitePerPage))
      == Views(SinglePlanDataAsWritten, plans)[Min(off, |plans|)..Min(off + n, |plans|)]
  {
    ViewsSlice(SinglePlanDataAsWritten, plans, Min(off, |plans|), Min(off + n, |plans|));
  }

  /** Without a limit below per_page, the shortcode's page equals the cached page with the same number. */
  lemma SinglePageMatchesPartition(plans: seq<PlanRecord>, c: Category, page: int, perPage: int, limit: int, sitePerPage: int)
    requires perPage >= 1 && (limit == -1 || limit >= perPage)
    requires 1 <= page
    ensures GetPlansData(plans, c, page, perPage, limit, sitePerPage) == PageEntry(plans, c, perPage, page)
  {
  }

  /**
   * With 1 <= limit < per_page the shortcode's first page shows only `limit` plans,
   * while page 1 of the cached data (which ignores the limit) shows per_page of them.
   */
  lemma FirstPageShorterUnderLimit(plans: seq<PlanRecord>, c: Category, perPage: int, limit: int, sitePerPage: int)
    requires 1 <= limit < perPage <= |plans|
    ensures |GetPlansData(plans, c, 1, perPage, limit, sitePerPage).plans| == limit
    ensures |PageEntry(plans, c, perPage, 1).plans| == perPage
  {
  }

  /**
   * A limit of 0 makes the query size 0, which WordPress replaces with the site's
   * page size: the shortcode's first page then holds that many plans, not per_page.
   */
  lemma ZeroLimitTakesSitePageSize(plans: seq<PlanRecord>, c: Category, perPage: int, sitePerPage: int)
    requires perPage >= 1 && sitePerPage >= 1
    ensures |GetPlansData(plans, c, 1, perPage, 0, sitePerPage).plans| == Min(sitePerPage, |plans|)
  {
  }
}
