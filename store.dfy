/**
 * The content store as the plugin sees it: plan records in menu order, the
 * enabled/category filter of its meta queries, and the slice a paged query returns.
 */
module Store {
  import opened Base

  /** The two display categories; `_plans_is_annual` decides which one a plan is in. */
  datatype Category = Monthly | Annual

  /** One post of type `plan` with the meta fields the plugin reads. */
  datatype PlanRecord = PlanRecord(
    id: int,
    title: string,
    price: string,              // `_plans_price` as stored (a string)
    priceCents: Option<int>,    // Some(rounded cents) iff PHP's is_numeric accepts `price`
    customLabel: string,        // `_plans_custom_price_label`
    buttonText: string,
    buttonLink: string,
    features: seq<string>,      // `_plans_features`, blanks included
    starred: bool,
    annual: bool,
    enabled: bool,
    published: bool)            // post_status is 'publish'

  /** PHP's empty() on a string: only "" and "0" are empty. */
  predicate PhpEmpty(s: string) {
    s == "" || s == "0"
  }

  /** A published plan is listed when it is enabled; it then belongs to exactly one category. */
  predicate Listed(p: PlanRecord) {
    p.published && p.enabled
  }

  predicate InCategory(p: PlanRecord, c: Category) {
    Listed(p) && (p.annual <==> c == Annual)
  }

  /**
   * The listed plans of one category, in store order: the result set of the plugin's
   * query (post status, both meta conditions, menu order).
   */
  function PlansOf(store: seq<PlanRecord>, c: Category): (r: seq<PlanRecord>)
    ensures |r| <= |store|
    ensures forall i :: 0 <= i < |r| ==> InCategory(r[i], c) && r[i] in store
    ensures forall i :: 0 <= i < |store| && InCategory(store[i], c) ==> store[i] in r
  {
    if store == [] then []
    else (if InCategory(store[0], c) then [store[0]] else []) + PlansOf(store[1..], c)
  }

  /** Each record of the category appears in the result set as often as in the store; others never. */
  lemma {:induction false} PlansOfMultiplicity(store: seq<PlanRecord>, c: Category)
    ensures forall x :: multiset(PlansOf(store, c))[x] == if InCategory(x, c) then multiset(store)[x] else 0
  {
    if store != [] {
      PlansOfMultiplicity(store[1..], c);
      assert store == [store[0]] + store[1..];
    }
  }

  function CountListed(store: seq<PlanRecord>): nat {
    if store == [] then 0 else (if Listed(store[0]) then 1 else 0) + CountListed(store[1..])
  }

  /** Every published, enabled plan is shown in exactly one of the two tabs. */
  lemma {:induction false} CategoriesPartitionListed(store: seq<PlanRecord>)
    ensures |PlansOf(store, Monthly)| + |PlansOf(store, Annual)| == CountListed(store)
  {
    if store != [] {
      CategoriesPartitionListed(store[1..]);
    }
  }

  /**
   * The page a WordPress query returns for `posts_per_page` and `offset` over its
   * ordered result set. These are WordPress core's rules, which this plugin relies on:
   * an empty (0) page size is replaced by the site's `posts_per_page` option
   * (`sitePerPage`); then -1 disables paging (and the offset), 0 means 1 and a value
   * below -1 means its absolute value; a negative offset is taken as its absolute value.
   */
  function WpSlice<T>(items: seq<T>, offset: int, perPage: int, sitePerPage: int): (r: seq<T>)
    ensures perPage == -1 ==> r == items
    ensures perPage >= 1 && offset >= 0 ==>
      r == items[Min(offset, |items|)..Min(offset + perPage, |items|)]
    ensures perPage == 0 && sitePerPage >= 1 && offset >= 0 ==>
      r == items[Min(offset, |items|)..Min(offset + sitePerPage, |items|)]
  {
    var asked := if perPage == 0 then sitePerPage else perPage;
    if asked == -1 then items
    else
      var n := if asked < -1 then -asked else if asked == 0 then 1 else asked;
      var off := if offset < 0 then -offset else offset;
      items[Min(off, |items|)..Min(off + n, |items|)]
  }
}
