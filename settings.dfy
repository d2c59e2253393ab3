/**
 * The plugin's settings (the `plans_settings` option) and the quick-edit save of
 * a plan's two flags. Submitted values arrive already converted by PHP's intval.
 */
module Settings {
  import opened Base

  const PerPageKey := "posts_per_page"
  const LimitKey := "default_limit"

  const StarredMeta := "_plans_is_starred"
  const EnabledMeta := "_plans_is_enabled"

  /** A stored page size the shortcode can divide by: between 1 and 50. */
  predicate PerPageOk(n: int) {
    1 <= n <= 50
  }

  /** A stored default limit: -1 for "no limit", or between 1 and 100. */
  predicate LimitOk(n: int) {
    n == -1 || 1 <= n <= 100
  }

  /** Settings whose known keys hold acceptable values. */
  predicate SettingsOk(s: map<string, int>) {
    && (PerPageKey in s ==> PerPageOk(s[PerPageKey]))
    && (LimitKey in s ==> LimitOk(s[LimitKey]))
  }

  /**
   * sanitize_settings: the page size clamped to 1..50, a non-positive limit turned
   * into -1 and a larger one capped at 100; any other submitted key is dropped.
   */
  function SanitizeSettings(input: map<string, int>): (r: map<string, int>)
    ensures SettingsOk(r)
    ensures forall k :: k in r <==> k in input && (k == PerPageKey || k == LimitKey)
    ensures PerPageKey in input && PerPageOk(input[PerPageKey]) ==> r[PerPageKey] == input[PerPageKey]
    ensures PerPageKey in input && input[PerPageKey] < 1 ==> r[PerPageKey] == 1
    ensures PerPageKey in input && input[PerPageKey] > 50 ==> r[PerPageKey] == 50
    ensures LimitKey in input && input[LimitKey] <= 0 ==> r[LimitKey] == -1
    ensures LimitKey in input && input[LimitKey] > 0 ==> r[LimitKey] == Min(100, input[LimitKey])
  {
    var withPerPage: map<string, int> :=
      if PerPageKey in input then map[PerPageKey := Max(1, Min(50, input[PerPageKey]))] else map[];
    if LimitKey in input then
      var limit := input[LimitKey];
      withPerPage[LimitKey := if limit <= 0 then -1 else Min(100, limit)]
    else withPerPage
  }

  /** Saving the settings form twice stores the same values as saving it once. */
  lemma SanitizeIdempotent(input: map<string, int>)
    ensures SanitizeSettings(SanitizeSettings(input)) == SanitizeSettings(input)
  {
    var once := SanitizeSettings(input);
    var twice := SanitizeSettings(once);
    assert forall k :: k in twice <==> k in once;
    assert forall k :: k in once ==> twice[k] == once[k];
  }

  /** Sanitising leaves acceptable settings as they are (restricted to the known keys). */
  lemma SanitizeKeepsAcceptable(input: map<string, int>)
    requires SettingsOk(input)
    requires forall k :: k in input ==> k == PerPageKey || k == LimitKey
    ensures SanitizeSettings(input) == input
  {
    var r := SanitizeSettings(input);
    assert forall k :: k in r <==> k in input;
    assert forall k :: k in r ==> r[k] == input[k];
  }

  /** get_default_settings. */
  function DefaultSettings(): (r: map<string, int>)
    ensures r.Keys == {PerPageKey, LimitKey}
    ensures r[PerPageKey] == 6 && r[LimitKey] == 6
  {
    map[PerPageKey := 6, LimitKey := 6]
  }

  /** get_settings: the stored option laid over the defaults (wp_parse_args); a stored key wins. */
  function GetSettings(stored: map<string, int>): (r: map<string, int>)
    ensures PerPageKey in r && LimitKey in r
    ensures forall k :: k in r <==> k in stored || k == PerPageKey || k == LimitKey
    ensures forall k :: k in stored ==> r[k] == stored[k]
    ensures forall k :: k !in stored && k in DefaultSettings() ==> r[k] == DefaultSettings()[k]
  {
    DefaultSettings() + stored
  }

  /** get_setting: the value under `key` in the merged settings, or the caller's fallback. */
  function GetSetting(stored: map<string, int>, key: string, fallback: Option<int>): (r: Option<int>)
    ensures key in stored ==> r == Some(stored[key])
    ensures key !in stored && (key == PerPageKey || key == LimitKey) ==> r == Some(6)
    ensures key !in stored && key != PerPageKey && key != LimitKey ==> r == fallback
  {
    var s := GetSettings(stored);
    if key in s then Some(s[key]) else fallback
  }

  /**
   * Whatever the settings form saved, the shortcode's default page size is at
   * least 1 (so its page count is defined) and its default limit is -1 or positive.
   */
  lemma SavedSettingsGiveUsableDefaults(input: map<string, int>)
    ensures var s := GetSettings(SanitizeSettings(input));
      PerPageOk(s[PerPageKey]) && LimitOk(s[LimitKey])
  {
  }

  // ---------------------------------------------------------------------------
  // Quick edit

  /**
   * save_quick_edit on a post's meta: nothing changes without a valid nonce or for a
   * post that is not a plan; otherwise each flag becomes 1 if its box was sent, else 0.
   */
  function SaveQuickEdit(meta: map<string, int>, nonceOk: bool, isPlan: bool, starredSent: bool, enabledSent: bool)
    : (r: map<string, int>)
    ensures !nonceOk || !isPlan ==> r == meta
    ensures nonceOk && isPlan ==> StarredMeta in r && EnabledMeta in r
    ensures nonceOk && isPlan ==> (r[StarredMeta] == 1 <==> starredSent) && (r[StarredMeta] == 0 <==> !starredSent)
    ensures nonceOk && isPlan ==> (r[EnabledMeta] == 1 <==> enabledSent) && (r[EnabledMeta] == 0 <==> !enabledSent)
    ensures forall k :: k != StarredMeta && k != EnabledMeta ==> (k in r <==> k in meta) && (k in r ==> r[k] == meta[k])
  {
    if !nonceOk || !isPlan then meta
    else meta[StarredMeta := if starredSent then 1 else 0][EnabledMeta := if enabledSent then 1 else 0]
  }

  /** Submitting the same quick edit twice leaves the meta as the first submission did. */
  lemma QuickEditIdempotent(meta: map<string, int>, nonceOk: bool, isPlan: bool, starredSent: bool, enabledSent: bool)
    ensures var once := SaveQuickEdit(meta, nonceOk, isPlan, starredSent, enabledSent);
      SaveQuickEdit(once, nonceOk, isPlan, starredSent, enabledSent) == once
  {
    var once := SaveQuickEdit(meta, nonceOk, isPlan, starredSent, enabledSent);
    var twice := SaveQuickEdit(once, nonceOk, isPlan, starredSent, enabledSent);
    assert forall k :: k in twice <==> k in once;
    assert forall k :: k in twice ==> twice[k] == once[k];
  }
}
