/**
 * The browser side: the PlansManager that fetches every page of both categories
 * once, keeps them in memory, and redraws the cards and the pager from that cache
 * when a tab or page button is clicked.
 *
 * The page's markup is abstracted: the container's data attributes are a `Config`,
 * the `data-current` attribute of the pager is a parameter, and the rendered
 * content and pager are values (`Content`, `Token`s). The fetch is split into its
 * start (a request in flight) and its settlement (a `FetchOutcome` chosen by the
 * environment); sessionStorage's `plans_cache` item is a `StoredItem`.
 *
 * Each operation is a function from the manager's `State` to the next one; the
 * class `PlansManager` holds the same fields and its methods are proved to follow
 * those functions.
 */
module Client {
  import opened Base
  import opened Store
  import opened Plans
  import opened Pagination
  import opened Pager
  import opened Cards
  import opened Html

  // ---------------------------------------------------------------------------
  // JavaScript's parseInt(s, 10)

  /** The white space parseInt skips before a number (the common ones; see README). */
  predicate IsJsSpace(c: char) {
    c == ' ' || c == '\t' || c == '\n' || c == '\r' || c == '\U{000B}' || c == '\U{000C}'
    || c == '\U{00A0}' || c == '\U{FEFF}'
  }

  function SkipSpaces(s: string): (r: string)
    ensures |r| <= |s| && r == s[|s| - |r|..]
    ensures r != [] ==> !IsJsSpace(r[0])
  {
    if s != [] && IsJsSpace(s[0]) then SkipSpaces(s[1..]) else s
  }

  /** The longest run of decimal digits at the start of `s`. */
  function DigitRun(s: string): (r: string)
    ensures AllDigits(r)
  {
    if s != [] && IsDigit(s[0]) then [s[0]] + DigitRun(s[1..]) else []
  }

  /** parseInt(s, 10): spaces, an optional sign, then the leading digits; `None` is NaN. */
  function ParseInt(s: string): Option<int> {
    var t := SkipSpaces(s);
    var negative := t != [] && t[0] == '-';
    var body := if t != [] && (t[0] == '-' || t[0] == '+') then t[1..] else t;
    var digits := DigitRun(body);
    var magnitude: int := Value(digits);
    if digits == [] then None
    else if negative then Some(-magnitude)
    else Some(magnitude)
  }

  lemma SkipNothing(s: string)
    requires s != [] && !IsJsSpace(s[0])
    ensures SkipSpaces(s) == s
  {
  }

  lemma {:induction false} DigitRunAll(s: string, rest: string)
    requires AllDigits(s)
    requires rest == [] || !IsDigit(rest[0])
    ensures DigitRun(s + rest) == s
  {
    if s != [] {
      assert (s + rest)[0] == s[0];
      assert (s + rest)[1..] == s[1..] + rest;
      DigitRunAll(s[1..], rest);
    } else {
      assert s + rest == rest;
    }
  }

  /**
   * Reading back a number the page printed gives the number, whatever follows it
   * that is not a digit ("12px" reads as 12).
   */
  lemma ParseIntRoundTrip(n: int, rest: string)
    requires rest == [] || !IsDigit(rest[0])
    ensures ParseInt(IntToString(n) + rest) == Some(n)
  {
    if n < 0 {
      var m: nat := -n;
      NegativeText(n, m);
      ParseNegative(m, rest);
    } else {
      ParseNatural(n, rest);
    }
  }

  lemma NegativeText(n: int, m: nat)
    requires n < 0 && m == -n
    ensures IntToString(n) == "-" + NatToString(m)
  {
  }

  lemma ParseNatural(n: nat, rest: string)
    requires rest == [] || !IsDigit(rest[0])
    ensures ParseInt(NatToString(n) + rest) == Some(n)
  {
    var digits := NatToString(n);
    var s := digits + rest;
    assert s[0] == digits[0];
    SkipNothing(s);
    DigitRunAll(digits, rest);
    NatToStringValue(n);
  }

  lemma ParseNegative(n: nat, rest: string)
    requires rest == [] || !IsDigit(rest[0])
    ensures ParseInt("-" + NatToString(n) + rest) == Some(-(n as int))
  {
    NatToStringValue(n);
    ParseSignedDigits(NatToString(n), rest, n);
  }

  /** A minus sign, then digits, then a non-digit: the negated value of the digits. */
  lemma ParseSignedDigits(digits: string, rest: string, magnitude: nat)
    requires digits != [] && AllDigits(digits) && Value(digits) == magnitude
    requires rest == [] || !IsDigit(rest[0])
    ensures ParseInt("-" + digits + rest) == Some(-(magnitude as int))
  {
    var s := "-" + digits + rest;
    assert s[0] == '-';
    SkipNothing(s);
    assert s[1..] == digits + rest;
    DigitRunAll(digits, rest);
    assert DigitRun(s[1..]) == digits;
  }

  /** A string with no digit at all is NaN. */
  lemma NoDigitIsNaN(s: string)
    requires forall i :: 0 <= i < |s| ==> !IsDigit(s[i])
    ensures ParseInt(s) == None
  {
    var t := SkipSpaces(s);
    var body := if t != [] && (t[0] == '-' || t[0] == '+') then t[1..] else t;
    if body != [] {
      var k := |s| - |body|;
      assert body == s[k..];
      assert !IsDigit(body[0]);
    }
    assert DigitRun(body) == [];
  }

  // ---------------------------------------------------------------------------
  // The container's settings

  /** The container's data-per-page, data-limit and data-cache-enabled attributes (`None`: absent). */
  datatype Config = Config(perPageAttr: string, limitAttr: string, cacheAttr: Option<string>)

  /** JavaScript's `n || fallback` for a parsed number: NaN and 0 are falsy. */
  function OrFallback(n: Option<int>, fallback: int): (r: int)
    ensures n.Some? && n.value != 0 ==> r == n.value
    ensures n.None? || n.value == 0 ==> r == fallback
  {
    if n.Some? && n.value != 0 then n.value else fallback
  }

  /** getPerPage: the attribute's number, or 6. */
  function GetPerPage(cfg: Config): (r: int)
    ensures r != 0
  {
    OrFallback(ParseInt(cfg.perPageAttr), 6)
  }

  /** getLimit: the attribute's number, or -1. */
  function GetLimit(cfg: Config): (r: int)
    ensures r != 0
  {
    OrFallback(ParseInt(cfg.limitAttr), -1)
  }

  /** isCacheEnabled: anything but the exact string "false" enables the cache, absence included. */
  predicate IsCacheEnabled(cfg: Config) {
    cfg.cacheAttr != Some("false")
  }

  /**
   * For the attributes the shortcode prints from whole numbers, the client asks the
   * endpoint for the page size and limit the shortcode used, except that 0 becomes
   * the fallback.
   */
  lemma ConfigReadsPrintedNumbers(perPage: int, limit: int, cache: Option<string>)
    ensures GetPerPage(Config(IntToString(perPage), IntToString(limit), cache)) == if perPage != 0 then perPage else 6
    ensures GetLimit(Config(IntToString(perPage), IntToString(limit), cache)) == if limit != 0 then limit else -1
  {
    ParseIntRoundTrip(perPage, []);
    ParseIntRoundTrip(limit, []);
    assert IntToString(perPage) + [] == IntToString(perPage);
    assert IntToString(limit) + [] == IntToString(limit);
  }

  /** Only "false" turns the cache off: "0", "no" and an absent attribute leave it on. */
  lemma CacheSwitch(perPage: string, limit: string)
    ensures !IsCacheEnabled(Config(perPage, limit, Some("false")))
    ensures IsCacheEnabled(Config(perPage, limit, Some("0")))
    ensures IsCacheEnabled(Config(perPage, limit, Some("no")))
    ensures IsCacheEnabled(Config(perPage, limit, None))
  {
  }

  // ---------------------------------------------------------------------------
  // The manager's state

  type Pages = map<int, PageData>

  /** `this.cache`: each category's pages by page number, or null. */
  datatype Slots = Slots(monthly: Option<Pages>, annual: Option<Pages>) {
    function Get(c: Category): Option<Pages> {
      match c
      case Monthly => monthly
      case Annual => annual
    }
  }

  const EmptySlots := Slots(None, None)

  /** What `#plans-content` holds: the server's first page, a page the client drew, or an error box. */
  datatype Content = ServerRendered | Page(cards: CardsHtml) | ErrorBox(message: string)

  const LoadError := "Error loading plans. Please try again."
  const MissingPage := "No data available for this page"

  /** The `settings` object of a stored snapshot; `None` for a value that is absent or not a number. */
  datatype SnapshotSettings = SnapshotSettings(perPage: Option<int>, limit: Option<int>)

  /**
   * A parsed `plans_cache` item. `timestamp` is `None` when it is absent or not a
   * number (NaN), `settings` when the object has none.
   */
  datatype Snapshot = Snapshot(timestamp: Option<int>, settings: Option<SnapshotSettings>, data: Slots)

  /** sessionStorage's `plans_cache`: no item (or an empty one), text that does not parse to an object, or a snapshot. */
  datatype StoredItem = NoEntry | Unparsable | Stored(snapshot: Snapshot)

  /** How the preload request settles: a success payload, `success: false` with an optional message, or a failed fetch. */
  datatype FetchOutcome =
    | Success(monthly: Option<Pages>, annual: Option<Pages>)
    | Refused(message: Option<string>)
    | Failed

  /** `e.state` of a popstate event that carries a tab. */
  datatype HistoryState = HistoryState(plansTab: Category, plansPage: Option<int>)

  /**
   * Everything the manager's methods read and write. `activeTab` is the tab button
   * marked active in the page; `pager` is `None` while the server's pager is still
   * shown; `inFlight` counts preload requests that have not settled yet.
   */
  datatype State = State(
    currentTab: Category,
    currentPage: int,
    isLoading: bool,
    cache: Slots,
    isDataLoaded: bool,
    activeTab: Category,
    content: Content,
    pager: Option<seq<Token>>,
    stored: StoredItem,
    inFlight: nat)

  /** The manager's own bookkeeping: nothing is cached before it is loaded, and loading means a request is out. */
  predicate Valid(s: State) {
    && (!s.isDataLoaded ==> s.cache == EmptySlots)
    && (s.isLoading ==> s.inFlight > 0)
  }

  // ---------------------------------------------------------------------------
  // Operations

  /** updatePaginationData: when a pager is on the page, its data-current (or 1) becomes the current page. */
  function ReadPagerPage(s: State, dataCurrent: Option<string>): State {
    match dataCurrent
    case None => s
    case Some(v) => s.(currentPage := OrFallback(ParseInt(v), 1))
  }

  /** preloadAllData: unless the cache is off or loaded, mark loading when nothing is cached and send the request. */
  function Preload(cfg: Config, s: State): State {
    if !IsCacheEnabled(cfg) || s.isDataLoaded then s
    else s.(isLoading := s.isLoading || (s.cache.monthly.None? && s.cache.annual.None?), inFlight := s.inFlight + 1)
  }

  /** The data-current attribute the client's pager carries, if it draws one. */
  function DataCurrent(tokens: seq<Token>): Option<string> {
    if tokens != [] && tokens[0].Open? then Some(IntToString(tokens[0].current)) else None
  }

  /** renderPlansFromCache: draw the page's cards and pager, then read the pager's current page back. */
  function RenderFromCache(s: State, pd: PageData): State {
    var tokens := Tokens(pd.pagination);
    ReadPagerPage(s.(content := Page(ClientCards(pd.plans)), pager := Some(tokens)), DataCurrent(tokens))
  }

  /**
   * displayCachedData: before loading, start the preload; with the tab's pages
   * cached, draw the current page or, when it is missing, an error.
   */
  function Display(cfg: Config, s: State): State {
    if !s.isDataLoaded then Preload(cfg, s)
    else if s.cache.Get(s.currentTab).None? then s
    else
      var pages := s.cache.Get(s.currentTab).value;
      if s.currentPage in pages then RenderFromCache(s, pages[s.currentPage])
      else s.(content := ErrorBox(MissingPage))
  }

  /** `result.data?.message || plans_ajax.error`: a missing or empty message gives the generic error. */
  function RefusalMessage(message: Option<string>): string {
    if message.Some? && message.value != "" then message.value else LoadError
  }

  /** The settlement of one preload request, ending in hideLoading. */
  function Resolve(cfg: Config, s: State, outcome: FetchOutcome): State
    requires s.inFlight > 0
  {
    var s1 := s.(inFlight := s.inFlight - 1);
    var s2 :=
      match outcome
      case Success(m, a) =>
        Display(cfg, s1.(cache := Slots(Some(m.GetOr(map[])), Some(a.GetOr(map[]))), isDataLoaded := true))
      case Refused(message) => s1.(content := ErrorBox(RefusalMessage(message)))
      case Failed => s1.(content := ErrorBox(LoadError));
    s2.(isLoading := false)
  }

  /** handleTabSwitch: ignored on the active tab or while loading; otherwise page 1 of the new tab. */
  function TabSwitch(cfg: Config, s: State, newTab: Category): State {
    if newTab == s.activeTab || s.isLoading then s
    else Display(cfg, s.(activeTab := newTab, currentTab := newTab, currentPage := 1))
  }

  /** loadPage: ignored while loading or for the current page; otherwise show that page. */
  function GoToPage(cfg: Config, s: State, page: int): State {
    if s.isLoading || page == s.currentPage then s
    else Display(cfg, s.(currentPage := page))
  }

  /** The popstate handler: take the tab and page (or 1) from the history entry and show them. */
  function PopState(cfg: Config, s: State, state: Option<HistoryState>): State {
    match state
    case None => s
    case Some(h) => Display(cfg, s.(currentTab := h.plansTab, currentPage := OrFallback(h.plansPage, 1)))
  }

  /** clearCache: forget both categories and, when storage works, remove the stored item. */
  function Cleared(s: State, available: bool): State {
    s.(cache := EmptySlots, isDataLoaded := false, stored := if available then NoEntry else s.stored)
  }

  /** refreshCache (and the error box's retry button): clear, then preload again. */
  function Refresh(cfg: Config, s: State, available: bool): State {
    Preload(cfg, Cleared(s, available))
  }

  const MaxAge := 30 * 60 * 1000

  /** What loadCacheFromStorage makes of the stored item. */
  datatype Verdict = Absent | Rejected | Accepted(data: Slots)

  /**
   * A snapshot is used when it is at most 30 minutes old (a missing timestamp never
   * ages) and was saved with the same page size and limit; a snapshot without
   * settings, or text that does not parse, is rejected.
   */
  function Judge(item: StoredItem, now: int, perPage: int, limit: int): (v: Verdict)
    ensures v.Accepted? ==> item.Stored? && v.data == item.snapshot.data
    ensures item.NoEntry? <==> v.Absent?
    ensures v.Accepted? <==>
      && item.Stored?
      && (item.snapshot.timestamp.None? || now - item.snapshot.timestamp.value <= MaxAge)
      && item.snapshot.settings == Some(SnapshotSettings(Some(perPage), Some(limit)))
  {
    match item
    case NoEntry => Absent
    case Unparsable => Rejected
    case Stored(snap) =>
      if snap.timestamp.Some? && now - snap.timestamp.value > MaxAge then Rejected
      else if snap.settings.None? then Rejected
      else if snap.settings.value.perPage != Some(perPage) || snap.settings.value.limit != Some(limit) then Rejected
      else Accepted(snap.data)
  }

  /** loadCacheFromStorage: take an accepted snapshot as the cache, remove a rejected one. */
  function LoadFromStorage(cfg: Config, s: State, available: bool, now: int): (State, bool) {
    if !available then (s, false)
    else
      match Judge(s.stored, now, GetPerPage(cfg), GetLimit(cfg))
      case Absent => (s, false)
      case Rejected => (s.(stored := NoEntry), false)
      case Accepted(data) => (s.(cache := data, isDataLoaded := true), true)
  }

  /** The constructor followed by init(): the initial fields, the server pager's page, then the preload. */
  function Init(cfg: Config, dataCurrent: Option<string>, stored: StoredItem): State {
    var s := State(Monthly, 1, false, EmptySlots, false, Monthly, ServerRendered, None, stored, 0);
    Preload(cfg, ReadPagerPage(s, dataCurrent))
  }

  /** The page's start-up: a new manager, then loadCacheFromStorage. */
  function Boot(cfg: Config, dataCurrent: Option<string>, stored: StoredItem, available: bool, now: int): State {
    LoadFromStorage(cfg, Init(cfg, dataCurrent, stored), available, now).0
  }

  /** getCacheStats's result. */
  datatype CacheStats = CacheStats(isLoaded: bool, hasMonthly: bool, hasAnnual: bool, monthlyPages: nat, annualPages: nat)

  function PageCount(slot: Option<Pages>): (n: nat)
    ensures slot.None? ==> n == 0
    ensures slot.Some? ==> n == |slot.value.Keys|
  {
    if slot.Some? then |slot.value.Keys| else 0
  }

  function Stats(s: State): CacheStats {
    CacheStats(s.isDataLoaded, s.cache.monthly.Some?, s.cache.annual.Some?, PageCount(s.cache.monthly), PageCount(s.cache.annual))
  }

  // ---------------------------------------------------------------------------
  // Everything that can happen to the manager

  datatype Event =
    | TabClick(tab: Category)
    | PageClick(page: int)
    | Back(state: Option<HistoryState>)
    | Settled(outcome: FetchOutcome)
    | Restore(available: bool, now: int)
    | Clear(available: bool)
    | Reload(available: bool)

  /** One event's effect; a settlement with no request out cannot happen and changes nothing. */
  function Step(cfg: Config, s: State, e: Event): State {
    match e
    case TabClick(tab) => TabSwitch(cfg, s, tab)
    case PageClick(page) => GoToPage(cfg, s, page)
    case Back(state) => PopState(cfg, s, state)
    case Settled(outcome) => if s.inFlight > 0 then Resolve(cfg, s, outcome) else s
    case Restore(available, now) => LoadFromStorage(cfg, s, available, now).0
    case Clear(available) => Cleared(s, available)
    case Reload(available) => Refresh(cfg, s, available)
  }

  function Run(cfg: Config, s: State, es: seq<Event>): State
    decreases |es|
  {
    if es == [] then s else Run(cfg, Step(cfg, s, es[0]), es[1..])
  }

  // ---------------------------------------------------------------------------
  // The manager object

  /**
   * PlansManager: the fields main.js keeps on `this`, and the parts of the page its
   * methods write (the active tab, the content area, the pager) and the stored item.
   */
  class PlansManager {
    const config: Config
    var currentTab: Category
    var currentPage: int
    var isLoading: bool
    var cache: Slots
    var isDataLoaded: bool
    var activeTab: Category
    var content: Content
    var pager: Option<seq<Token>>
    var stored: StoredItem
    var inFlight: nat

    function Snapshot(): State
      reads this
    {
      State(currentTab, currentPage, isLoading, cache, isDataLoaded, activeTab, content, pager, stored, inFlight)
    }

    constructor(config: Config, dataCurrent: Option<string>, stored: StoredItem)
      ensures this.config == config
      ensures Snapshot() == Init(config, dataCurrent, stored)
    {
      this.config := config;
      currentTab := Monthly;
      currentPage := 1;
      isLoading := false;
      cache := EmptySlots;
      isDataLoaded := false;
      activeTab := Monthly;
      content := ServerRendered;
      pager := None;
      this.stored := stored;
      inFlight := 0;
      new;
      UpdatePaginationData(dataCurrent);
      PreloadAllData();
    }

    method UpdatePaginationData(dataCurrent: Option<string>)
      modifies this
      ensures Snapshot() == ReadPagerPage(old(Snapshot()), dataCurrent)
    {
      if dataCurrent.Some? {
        currentPage := OrFallback(ParseInt(dataCurrent.value), 1);
      }
    }

    method ShowLoading()
      modifies this
      ensures Snapshot() == old(Snapshot()).(isLoading := true)
    {
      isLoading := true;
    }

    method HideLoading()
      modifies this
      ensures Snapshot() == old(Snapshot()).(isLoading := false)
    {
      isLoading := false;
    }

    method ShowError(message: string)
      modifies this
      ensures Snapshot() == old(Snapshot()).(content := ErrorBox(message))
    {
      content := ErrorBox(message);
    }

    /** Sends the request; its settlement is `ResolvePreload`. */
    method PreloadAllData()
      modifies this
      ensures Snapshot() == Preload(config, old(Snapshot()))
    {
      if !IsCacheEnabled(config) || isDataLoaded {
        return;
      }
      if cache.monthly.None? && cache.annual.None? {
        ShowLoading();
      }
      inFlight := inFlight + 1;
    }

    /** The `.then`/`.catch`/`.finally` chain of the preload request. */
    method ResolvePreload(outcome: FetchOutcome)
      requires inFlight > 0
      modifies this
      ensures Snapshot() == Resolve(config, old(Snapshot()), outcome)
    {
      inFlight := inFlight - 1;
      ghost var settled := Snapshot();
      match outcome {
        case Success(m, a) =>
          cache := Slots(Some(m.GetOr(map[])), Some(a.GetOr(map[])));
          isDataLoaded := true;
          DisplayCachedData();
          assert Snapshot() == Display(config, settled.(cache := Slots(Some(m.GetOr(map[])), Some(a.GetOr(map[]))), isDataLoaded := true));
        case Refused(message) =>
          ShowError(RefusalMessage(message));
        case Failed =>
          ShowError(LoadError);
      }
      HideLoading();
    }

    method LoadCacheFromStorage(available: bool, now: int) returns (restored: bool)
      modifies this
      ensures (Snapshot(), restored) == LoadFromStorage(config, old(Snapshot()), available, now)
    {
      if !available {
        return false;
      }
      match stored {
        case NoEntry =>
          return false;
        case Unparsable =>
          stored := NoEntry;
          return false;
        case Stored(snap) =>
          if (snap.timestamp.Some? && now - snap.timestamp.value > MaxAge)
            || snap.settings.None?
            || snap.settings.value.perPage != Some(GetPerPage(config))
            || snap.settings.value.limit != Some(GetLimit(config))
          {
            stored := NoEntry;
            return false;
          }
          cache := snap.data;
          isDataLoaded := true;
          return true;
      }
    }

    method HandleTabSwitch(newTab: Category)
      modifies this
      ensures Snapshot() == TabSwitch(config, old(Snapshot()), newTab)
    {
      if newTab == activeTab || isLoading {
        return;
      }
      activeTab := newTab;
      currentTab := newTab;
      currentPage := 1;
      DisplayCachedData();
    }

    method LoadPage(page: int)
      modifies this
      ensures Snapshot() == GoToPage(config, old(Snapshot()), page)
    {
      if isLoading || page == currentPage {
        return;
      }
      currentPage := page;
      DisplayCachedData();
    }

    method HandlePopState(state: Option<HistoryState>)
      modifies this
      ensures Snapshot() == PopState(config, old(Snapshot()), state)
    {
      if state.Some? {
        currentTab := state.value.plansTab;
        currentPage := OrFallback(state.value.plansPage, 1);
        DisplayCachedData();
      }
    }

    method DisplayCachedData()
      modifies this
      ensures Snapshot() == Display(config, old(Snapshot()))
    {
      if !isDataLoaded || cache.Get(currentTab).None? {
        if !isDataLoaded {
          PreloadAllData();
        }
        return;
      }
      var pages := cache.Get(currentTab).value;
      if currentPage !in pages {
        ShowError(MissingPage);
        return;
      }
      RenderPlansFromCache(pages[currentPage]);
    }

    method RenderPlansFromCache(pageData: PageData)
      modifies this
      ensures Snapshot() == RenderFromCache(old(Snapshot()), pageData)
    {
      var cards := RenderPlanCards(pageData.plans);
      content := Page(cards);
      var tokens := RenderPagination(pageData.pagination);
      pager := Some(tokens);
      UpdatePaginationData(DataCurrent(tokens));
    }

    /** renderPlanCards: the empty message, or one card per plan in order. */
    method RenderPlanCards(plans: seq<PlanView>) returns (out: CardsHtml)
      ensures out == ClientCards(plans)
    {
      if |plans| == 0 {
        return EmptyMessage;
      }
      var cards := [];
      var i := 0;
      while i < |plans|
        invariant 0 <= i <= |plans|
        invariant |cards| == i && forall k :: 0 <= k < i ==> cards[k] == ClientCard(plans[k])
      {
        var card := RenderCard(plans[i]);
        cards := cards + [card];
        i := i + 1;
      }
      assert cards == ClientCards(plans).cards;
      out := Grid(cards);
    }

    /** The forEach callback for one plan: escaped fields, the feature list, the button when both parts are set. */
    method RenderCard(plan: PlanView) returns (card: Card)
      ensures card == ClientCard(plan)
    {
      var features := FeatureItems(ClientFeatures(JsonEncode(plan.features)));
      var cta := None;
      if plan.buttonText != "" && plan.buttonLink != "" {
        cta := Some((EscapeHtml(plan.buttonLink), EscapeHtml(plan.buttonText)));
      }
      card := Card(plan.starred, EscapeHtml(plan.title), EscapeHtml(plan.price), features, cta);
    }

    /** The forEach over a plan's features. */
    method FeatureItems(features: seq<string>) returns (items: seq<string>)
      ensures items == EscapeAll(features)
    {
      items := [];
      var j := 0;
      while j < |features|
        invariant 0 <= j <= |features|
        invariant |items| == j && forall k :: 0 <= k < j ==> items[k] == EscapeHtml(features[k])
      {
        items := items + [EscapeHtml(features[j])];
        j := j + 1;
      }
    }

    /** renderPagination: the same markup as the server's pager. */
    method RenderPagination(d: Descriptor) returns (out: seq<Token>)
      ensures out == Tokens(d)
    {
      if d.pages <= 1 {
        return [];
      }
      var prev := [];
      if d.hasPrev {
        prev := [Prev(d.currentPage - 1)];
      }
      var start := Max(1, d.currentPage - 2);
      var end := Min(d.pages, d.currentPage + 2);
      var lead := [];
      if start > 1 {
        lead := [PageButton(1, false)];
        if start > 2 {
          lead := lead + [Dots];
        }
      }
      var buttons := PageButtons(start, end, d.currentPage);
      var trail := [];
      if end < d.pages {
        if end < d.pages - 1 {
          trail := [Dots];
        }
        trail := trail + [PageButton(d.pages, false)];
      }
      var next := [];
      if d.hasNext {
        next := [Next(d.currentPage + 1)];
      }
      assert start == WindowStart(d) && end == WindowEnd(d);
      assert lead == Leading(start);
      assert trail == Trailing(end, d.pages);
      var numbers := lead + buttons + trail;
      assert numbers == Numbers(d);
      out := [Open(d.currentPage, d.pages, d.planType)] + prev + numbers + next + [Info(Showing(d), d.total)];
    }

    /** renderPagination's loop over the window of page numbers. */
    method PageButtons(start: int, end: int, current: int) returns (buttons: seq<Token>)
      ensures buttons == Window(start, end, current)
    {
      buttons := [];
      var i := start;
      while i <= end
        invariant start <= i <= Max(start, end + 1)
        invariant buttons == Window(start, i - 1, current)
      {
        buttons := buttons + [PageButton(i, i == current)];
        i := i + 1;
      }
    }

    /** getCacheStats. */
    method GetCacheStats() returns (stats: CacheStats)
      ensures stats == Stats(Snapshot())
    {
      var monthlyPages := if cache.monthly.Some? then |cache.monthly.value.Keys| else 0;
      var annualPages := if cache.annual.Some? then |cache.annual.value.Keys| else 0;
      stats := CacheStats(isDataLoaded, cache.monthly.Some?, cache.annual.Some?, monthlyPages, annualPages);
    }
  }

  /** The page's start-up script: create the manager, then try the stored snapshot. */
  method Start(config: Config, dataCurrent: Option<string>, stored: StoredItem, available: bool, now: int)
    returns (manager: PlansManager)
    ensures manager.Snapshot() == Boot(config, dataCurrent, stored, available, now)
  {
    manager := new PlansManager(config, dataCurrent, stored);
    var _ := manager.LoadCacheFromStorage(available, now);
  }

  // ---------------------------------------------------------------------------
  // Properties

  /** Before the preload, the manager shows monthly page 1 (or the server pager's page), with nothing cached. */
  lemma InitialState(cfg: Config, dataCurrent: Option<string>, stored: StoredItem)
    ensures var s := Init(cfg, dataCurrent, stored);
      && s.currentTab == Monthly && s.activeTab == Monthly
      && s.cache == EmptySlots && !s.isDataLoaded
      && s.content == ServerRendered && s.pager == None && s.stored == stored
      && (dataCurrent == None ==> s.currentPage == 1)
      && (s.isLoading <==> IsCacheEnabled(cfg))
      && s.inFlight == (if IsCacheEnabled(cfg) then 1 else 0)
      && Valid(s)
  {
  }

  /** The preload does nothing with the cache off or loaded; otherwise it sends exactly one request. */
  lemma PreloadFacts(cfg: Config, s: State)
    ensures !IsCacheEnabled(cfg) || s.isDataLoaded ==> Preload(cfg, s) == s
    ensures IsCacheEnabled(cfg) && !s.isDataLoaded ==>
      && Preload(cfg, s).inFlight == s.inFlight + 1
      && Preload(cfg, s).cache == s.cache && !Preload(cfg, s).isDataLoaded
      && (Preload(cfg, s).isLoading <==> s.isLoading || s.cache == EmptySlots)
      && Preload(cfg, s).content == s.content
  {
  }

  /**
   * A successful response fills both slots (a missing category becomes an empty
   * page map), marks the data loaded and ends the loading state.
   */
  lemma ResolveSuccess(cfg: Config, s: State, m: Option<Pages>, a: Option<Pages>)
    requires s.inFlight > 0
    ensures var r := Resolve(cfg, s, Success(m, a));
      && r.cache == Slots(Some(m.GetOr(map[])), Some(a.GetOr(map[])))
      && r.isDataLoaded && !r.isLoading
      && r.inFlight == s.inFlight - 1
      && r.currentTab == s.currentTab
      && r.stored == s.stored
  {
  }

  /** A refused or failed request leaves the cache as it was, shows an error and ends the loading state. */
  lemma ResolveFailure(cfg: Config, s: State, outcome: FetchOutcome)
    requires s.inFlight > 0 && !outcome.Success?
    ensures var r := Resolve(cfg, s, outcome);
      && r.cache == s.cache && r.isDataLoaded == s.isDataLoaded
      && !r.isLoading && r.inFlight == s.inFlight - 1
      && r.content.ErrorBox?
      && (outcome.Refused? && outcome.message.Some? && outcome.message.value != "" ==>
            r.content.message == outcome.message.value)
      && (outcome.Failed? || outcome.message.None? || outcome.message.value == "" ==> r.content.message == LoadError)
  {
  }

  /** The tab switch is ignored on the active tab or while loading; otherwise it selects the tab at page 1. */
  lemma TabSwitchFacts(cfg: Config, s: State, newTab: Category)
    ensures newTab == s.activeTab || s.isLoading ==> TabSwitch(cfg, s, newTab) == s
    ensures newTab != s.activeTab && !s.isLoading ==>
      var r := TabSwitch(cfg, s, newTab);
      && r.currentTab == newTab && r.activeTab == newTab
      && r.cache == s.cache && r.isDataLoaded == s.isDataLoaded && r.stored == s.stored
      && (!s.isDataLoaded ==> r.currentPage == 1 && r.inFlight >= s.inFlight)
  {
  }

  /** A page click is ignored while loading or on the current page. */
  lemma LoadPageIgnored(cfg: Config, s: State, page: int)
    requires s.isLoading || page == s.currentPage
    ensures GoToPage(cfg, s, page) == s
  {
  }

  /** Each page the endpoint returns sits under its own number, as get_all_plans_data builds them. */
  predicate SelfKeyed(pages: Pages) {
    forall p :: p in pages ==> pages[p].pagination.currentPage == p
  }

  /** Drawing a cached page keeps the current page when the page sits under its own number. */
  lemma RenderKeepsPage(s: State, pd: PageData)
    requires s.currentPage != 0 && pd.pagination.currentPage == s.currentPage
    ensures RenderFromCache(s, pd) == s.(content := Page(ClientCards(pd.plans)), pager := Some(Tokens(pd.pagination)))
  {
    var tokens := Tokens(pd.pagination);
    if tokens != [] {
      ParseIntRoundTrip(s.currentPage, []);
      assert IntToString(s.currentPage) + [] == IntToString(s.currentPage);
    }
  }

  /**
   * With the data loaded, a page click on another page draws that page from the
   * cache when it is there, and an error without any request when it is not; only
   * the current page and the drawn content change.
   */
  lemma LoadPageFromCache(cfg: Config, s: State, page: int, pages: Pages)
    requires !s.isLoading && page != s.currentPage && page != 0
    requires s.isDataLoaded && s.cache.Get(s.currentTab) == Some(pages) && SelfKeyed(pages)
    ensures var r := GoToPage(cfg, s, page);
      && (page in pages ==>
            r == s.(currentPage := page, content := Page(ClientCards(pages[page].plans)),
                    pager := Some(Tokens(pages[page].pagination))))
      && (page !in pages ==> r == s.(currentPage := page, content := ErrorBox(MissingPage)))
  {
    if page in pages {
      RenderKeepsPage(s.(currentPage := page), pages[page]);
    }
  }

  /** Before the data is loaded, a page click sends the preload instead of drawing anything. */
  lemma LoadPageBeforeData(cfg: Config, s: State, page: int)
    requires !s.isLoading && page != s.currentPage && !s.isDataLoaded
    ensures GoToPage(cfg, s, page) == Preload(cfg, s.(currentPage := page))
  {
  }

  /** On a loaded cache a tab switch draws page 1 of the new tab. */
  lemma TabSwitchShowsFirstPage(cfg: Config, s: State, newTab: Category, pages: Pages)
    requires newTab != s.activeTab && !s.isLoading
    requires s.isDataLoaded && s.cache.Get(newTab) == Some(pages) && SelfKeyed(pages) && 1 in pages
    ensures var r := TabSwitch(cfg, s, newTab);
      && r.currentPage == 1 && r.content == Page(ClientCards(pages[1].plans))
      && r.pager == Some(Tokens(pages[1].pagination))
  {
    RenderKeepsPage(s.(activeTab := newTab, currentTab := newTab, currentPage := 1), pages[1]);
  }

  /** Clearing twice is clearing once; afterwards nothing is cached and the stats say so. */
  lemma ClearCacheIdempotent(s: State, available: bool)
    ensures Cleared(Cleared(s, available), available) == Cleared(s, available)
    ensures Stats(Cleared(s, available)) == CacheStats(false, false, false, 0, 0)
    ensures available ==> Cleared(s, available).stored == NoEntry
  {
  }

  /** A refresh with the cache on always sends a new request and shows the loading state. */
  lemma RefreshRequests(cfg: Config, s: State, available: bool)
    requires IsCacheEnabled(cfg)
    ensures var r := Refresh(cfg, s, available);
      r.inFlight == s.inFlight + 1 && r.isLoading && !r.isDataLoaded && r.cache == EmptySlots
  {
  }

  /** The stats count the pages of each cached category. */
  lemma StatsCountPages(s: State, m: Pages, a: Pages)
    requires s.cache == Slots(Some(m), Some(a))
    ensures Stats(s) == CacheStats(s.isDataLoaded, true, true, |m.Keys|, |a.Keys|)
  {
  }

  /** A snapshot saved with the current settings less than 30 minutes ago becomes the cache. */
  lemma FreshSnapshotAccepted(cfg: Config, s: State, saved: int, now: int, data: Slots)
    requires s.stored == Stored(Snapshot(Some(saved), Some(SnapshotSettings(Some(GetPerPage(cfg)), Some(GetLimit(cfg)))), data))
    requires now - saved <= MaxAge
    ensures LoadFromStorage(cfg, s, true, now) == (s.(cache := data, isDataLoaded := true), true)
  {
  }

  /** A snapshot older than 30 minutes, or saved with another page size, is removed and not used. */
  lemma StaleSnapshotRemoved(cfg: Config, s: State, snap: Snapshot, now: int)
    requires s.stored == Stored(snap)
    requires (snap.timestamp.Some? && now - snap.timestamp.value > MaxAge)
          || (snap.settings.Some? && snap.settings.value.perPage != Some(GetPerPage(cfg)))
    ensures LoadFromStorage(cfg, s, true, now) == (s.(stored := NoEntry), false)
  {
  }

  /** Without working storage, or with nothing stored, the restore changes nothing. */
  lemma RestoreWithoutItem(cfg: Config, s: State, available: bool, now: int)
    requires !available || s.stored == NoEntry
    ensures LoadFromStorage(cfg, s, available, now) == (s, false)
  {
  }

  /**
   * The start-up sends its request before it reads the stored snapshot: even when
   * the snapshot is accepted the request stays out and the loading state stays on,
   * and the page is not redrawn from the snapshot.
   */
  lemma BootRestoresWithRequestOut(cfg: Config, dataCurrent: Option<string>, snap: Snapshot, now: int)
    requires IsCacheEnabled(cfg)
    requires Judge(Stored(snap), now, GetPerPage(cfg), GetLimit(cfg)).Accepted?
    ensures var s := Boot(cfg, dataCurrent, Stored(snap), true, now);
      && s.isDataLoaded && s.cache == snap.data
      && s.inFlight == 1 && s.isLoading
      && s.content == ServerRendered
  {
  }

  /** Every event keeps the manager's bookkeeping consistent. */
  lemma StepValid(cfg: Config, s: State, e: Event)
    requires Valid(s)
    ensures Valid(Step(cfg, s, e))
  {
  }

  /** Nothing the manager does writes a snapshot: the stored item stays as it was or is removed. */
  lemma StepNeverStores(cfg: Config, s: State, e: Event)
    ensures Step(cfg, s, e).stored == s.stored || Step(cfg, s, e).stored == NoEntry
  {
  }

  lemma {:induction false} RunValid(cfg: Config, s: State, es: seq<Event>)
    requires Valid(s)
    ensures Valid(Run(cfg, s, es))
    decreases |es|
  {
    if es != [] {
      StepValid(cfg, s, es[0]);
      RunValid(cfg, Step(cfg, s, es[0]), es[1..]);
    }
  }

  /** Over any run, the stored item is the one found at start-up or nothing. */
  lemma {:induction false} RunNeverStores(cfg: Config, s: State, es: seq<Event>)
    ensures Run(cfg, s, es).stored == s.stored || Run(cfg, s, es).stored == NoEntry
    decreases |es|
  {
    if es != [] {
      StepNeverStores(cfg, s, es[0]);
      RunNeverStores(cfg, Step(cfg, s, es[0]), es[1..]);
    }
  }

  /**
   * Hence in a session that starts with no stored item, no restore ever succeeds,
   * whatever happens on the page.
   */
  lemma FreshSessionNeverRestores(cfg: Config, dataCurrent: Option<string>, es: seq<Event>, available: bool, now: int)
    ensures var s := Run(cfg, Init(cfg, dataCurrent, NoEntry), es);
      !LoadFromStorage(cfg, s, available, now).1
  {
    RunNeverStores(cfg, Init(cfg, dataCurrent, NoEntry), es);
  }

  /**
   * When the cached pages are what the endpoint returns for a category, every page,
   * previous and next button the client draws for the current page leads to a
   * cached page, and clicking it draws that page rather than the error box (the
   * button of the current page itself is ignored).
   */
  lemma DrawnButtonsLeadToCachedPages(cfg: Config, s: State, plans: seq<PlanRecord>, perPage: int, t: Token)
    requires perPage >= 1 && s.isDataLoaded && !s.isLoading
    requires s.cache.Get(s.currentTab).Some?
    requires IsPartition(s.cache.Get(s.currentTab).value, plans, s.currentTab, perPage)
    requires s.currentPage in s.cache.Get(s.currentTab).value
    requires t in Tokens(s.cache.Get(s.currentTab).value[s.currentPage].pagination)
    requires t.PageButton? || t.Prev? || t.Next?
    ensures var pages := s.cache.Get(s.currentTab).value;
      var target := if t.PageButton? then t.page else t.target;
      && target in pages
      && (target != s.currentPage ==> GoToPage(cfg, s, target).content == Page(ClientCards(pages[target].plans)))
  {
    var pages := s.cache.Get(s.currentTab).value;
    var target := if t.PageButton? then t.page else t.target;
    TargetCached(pages, plans, s.currentTab, perPage, s.currentPage, t);
    if target != s.currentPage {
      LoadPageFromCache(cfg, s, target, pages);
    }
  }

  lemma TargetCached(pages: Pages, plans: seq<PlanRecord>, c: Category, perPage: int, p: int, t: Token)
    requires perPage >= 1 && IsPartition(pages, plans, c, perPage) && p in pages
    requires t in Tokens(pages[p].pagination) && (t.PageButton? || t.Prev? || t.Next?)
    ensures SelfKeyed(pages)
    ensures var target := if t.PageButton? then t.page else t.target;
      target in pages && target >= 1
  {
    EveryTargetIsCached(pages, plans, c, perPage, p);
    PartitionIsKeyed(pages, plans, c, perPage);
  }

  lemma PartitionIsKeyed(pages: Pages, plans: seq<PlanRecord>, c: Category, perPage: int)
    requires perPage >= 1 && IsPartition(pages, plans, c, perPage)
    ensures SelfKeyed(pages) && forall p :: p in pages ==> p >= 1
  {
    forall p | p in pages ensures pages[p].pagination.currentPage == p && p >= 1 {
      DescriptorFlags(pages, plans, c, perPage, p, p);
    }
  }
}
