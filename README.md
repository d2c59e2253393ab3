# Plans plugin: a Dafny model of its pagination, cache and settings core

The plugin shows "plan" posts as price cards in two tabs, Monthly and Annual.

On the server, the `[plans]` shortcode renders page 1 of the monthly plans. An AJAX endpoint then returns every page of both categories at once. Each page is a `{plans, pagination}` payload, keyed by page number.

In the browser, a `PlansManager` object fetches that payload once and keeps it in memory. It redraws the cards and the pager from that cache when a tab or page button is clicked. It can also restore a snapshot from `sessionStorage`.

An admin screen stores the default page size and limit. Quick edit sets the two flags of a plan.

The project has these modules:

- `Base`: option values, decimal digits and integer printing.
- `Store`: plan records, the status, enabled and category filter of the plugin's queries, and the slice a paged WordPress query returns.
- `Html`: WordPress's `esc_html`, the client's `escapeHtml`, and `Shown`, the browser's decoding of character references, which is what a reader sees.
- `Plans`: `format_price`, the feature filter, the JSON shape of a PHP array, and `get_single_plan_data`.
- `Pagination`: `get_all_plans_data` as a loop, `get_plans_data`, and the facts about the pages they produce.
- `Pager`: `render_pagination` as a sequence of tokens, and the shape of the page-number strip.
- `Cards`: `render_plan_cards` and the client's `renderPlanCards`, and what a reader sees on either.
- `Settings`: `sanitize_settings`, the defaults, `get_settings`, `get_setting` and `save_quick_edit`.
- `Client`:
  - JavaScript's `parseInt` and the container's configuration attributes;
  - the snapshot rules;
  - each `PlansManager` operation as a function from state to state;
  - the class `PlansManager`, whose methods follow the JavaScript bodies and are proved to produce those states;
  - lemmas about every reachable run.

## Model

| member | source | states |
|---|---|---|
| Store.PlansOf | includes/class-plans-shortcode.php:184-205 | the result set holds only published, enabled plans of the requested category, all of them, taken from the store and no more of them than the store holds |
| Store.PlansOfMultiplicity | includes/class-plans-shortcode.php:184-205 | each plan of the category appears in the result set as often as in the store, and no other plan appears |
| Store.CategoriesPartitionListed | includes/class-plans-shortcode.php:187-202 | every published, enabled plan is in exactly one of the two tabs: the two result sets together count those plans |
| Store.WpSlice | includes/class-plans-shortcode.php:231-237 | a paged query returns the plans from the offset, at most `posts_per_page` of them; -1 returns every plan; a size of 0 takes the site's page size |
| Pagination.CeilDiv | includes/class-plans-shortcode.php:211 | for a positive page size, `ceil(total / per_page)` is the least page count whose pages hold every plan; a negative size gives no pages |
| Pagination.GetAllPlansData | includes/class-plans-shortcode.php:177-263 | the loop returns exactly the partition: one entry per page number from 1 to the page count whose slice is non-empty, each with the as-written payloads of that slice of the plans and its descriptor |
| Pagination.PartitionKeys | includes/class-plans-shortcode.php:229-249 | for a positive page size, the keys are exactly 1 to ceil(total / per_page): no gap and no empty page is skipped |
| Pagination.NegativePageSizeGivesNoPages | includes/class-plans-shortcode.php:211-229 | a negative page size produces no pages at all |
| Pagination.PartitionPage | includes/class-plans-shortcode.php:230-247 | page k holds the plans from position (k-1)·per_page, at most per_page of them |
| Pagination.ConcatPrefix | includes/class-plans-shortcode.php:229-247 | pages 1 to k, concatenated in order, are the first k·per_page plans |
| Pagination.PartitionConcatenates | includes/class-plans-shortcode.php:229-247 | over one fixed order of the result set, concatenating all pages in order gives back every plan's payload exactly once, in order |
| Pagination.PageSizes | includes/class-plans-shortcode.php:229-247 | every page holds between 1 and per_page plans; every page but the last holds exactly per_page; the last holds the remainder |
| Pagination.DescriptorFlags | includes/class-plans-shortcode.php:250-259 | each page carries its own number, `has_prev` iff it is not the first page, and `has_next` iff it is not the last; all pages agree on the total and the page count |
| Pagination.ShowingCountsShownPlans | includes/class-plans-shortcode.php:600-604 | "Showing N of M" on page p counts exactly the plans on pages 1 to p; on the last page it is the total |
| Pagination.FiveAtTwoPerPage | includes/class-plans-shortcode.php:211-259 | five plans at two per page give pages 1-3 of sizes 2, 2 and 1; the last page has only a previous link and shows 5 |
| Pagination.GetPlansData | includes/class-plans-shortcode.php:275-336 | the page is clamped to at least 1, the flags follow from it, total and page count come from the full result set, the plans are as-written payloads, and at most the query size is returned (the site's page size when the query size is 0) |
| Pagination.GetPlansDataQueries | includes/class-plans-shortcode.php:278-286 | the query asks for per_page plans (or min(per_page, limit) under a limit), starting at (page-1)·per_page |
| Pagination.GetPlansDataSlice | includes/class-plans-shortcode.php:282-286 | the single page is that slice of the category's plans |
| Pagination.SinglePageMatchesPartition | includes/class-plans-shortcode.php:275-336 | with no limit, or a limit of at least per_page, the server-rendered page equals the same page of the endpoint's payload |
| Pagination.ZeroLimitTakesSitePageSize | includes/class-plans-shortcode.php:286 | a limit of 0 makes the query size 0, so the server-rendered first page holds the site's page size of plans, not per_page |
| Pagination.FirstPageShorterUnderLimit | includes/class-plans-shortcode.php:286 | a limit below per_page shortens the server-rendered first page to `limit` plans; the endpoint's page 1 still holds per_page plans, because the limit does not reach the paged queries |
| Plans.FormatAmountRoundTrip | includes/class-plans-shortcode.php:383 | `number_format(…, 2)` output (thousands commas, two decimals) reads back as the same amount in cents |
| Plans.NegativeAmount | includes/class-plans-shortcode.php:383 | a negative amount prints as a minus sign followed by the amount's magnitude |
| Plans.FormatAmountChars | includes/class-plans-shortcode.php:383 | the formatted amount holds only digits, commas, the point and a minus sign |
| Plans.FormatPrice | includes/class-plans-shortcode.php:371-384 | a non-empty label wins; otherwise an empty or non-numeric price is "Free"; otherwise the result is '$' followed by an amount that reads back as the price |
| Plans.FormatPriceAsWritten | includes/class-plans-shortcode.php:373-375 | as written, the label comes back already through esc_html; the other cases agree with FormatPrice |
| Plans.FormatPriceExample | includes/class-plans-shortcode.php:383 | 19.5 is shown as "$19.50" |
| Plans.FormatPriceGroupsThousands | includes/class-plans-shortcode.php:383 | 1234.56 is shown as "$1,234.56" |
| Plans.FormatPriceZeroIsFree | includes/class-plans-shortcode.php:378-380 | the price "0" counts as empty and is shown as "Free" |
| Plans.FilterFeaturesAsWritten | includes/class-plans-shortcode.php:357 | array_filter keeps only non-empty features, each under its original key, keys increasing, and as many entries as there are non-empty features |
| Plans.FilterFeaturesAsWrittenKeepsAll | includes/class-plans-shortcode.php:357 | every non-empty feature is kept under its own key; with the contract above, the result is exactly the non-empty features with their keys, in order |
| Plans.FilterFeatures | includes/class-plans-shortcode.php:357 | the re-indexed list holds no empty feature and each non-empty feature as often as the input does; its order is fixed by FilterFeaturesKeepsFilteredValues |
| Plans.FilterFeaturesKeepsFilteredValues | includes/class-plans-shortcode.php:357 | the re-indexed list holds the same values as array_filter, in the same order |
| Plans.JsonEncode | includes/class-plans-shortcode.php:160-165 | an array becomes a JSON list only when its keys are 0, 1, 2, …, and the list then holds the array's values in order |
| Plans.SinglePlanDataFields | includes/class-plans-shortcode.php:345-361 | a plan's payload copies its fields, formats its price, and carries the filtered features as a list that encodes to a JSON list |
| Plans.SinglePlanDataAsWritten | includes/class-plans-shortcode.php:345-361 | as written, the payload's features keep array_filter's keys and its price is FormatPriceAsWritten |
| Plans.Views | includes/class-plans-shortcode.php:218-225 | one payload per plan, in order, built by the given per-plan function; the endpoint and the shortcode use SinglePlanDataAsWritten |
| Plans.ViewsSlice | includes/class-plans-shortcode.php:238-245 | building the payloads of a slice gives the same slice of the payloads |
| Pager.Window | includes/class-plans-shortcode.php:566-578 | the window has one button per page from start to end |
| Pager.RenderWindow | includes/class-plans-shortcode.php:566-578 | the loop emits one button per page from start to end, and only the current one is active (the client has its own copy of this loop, Client.PlansManager.PageButtons) |
| Pager.RenderPagination | includes/class-plans-shortcode.php:531-609 | the pager's output is `Tokens(d)`: nothing for one page; otherwise the wrapper, previous link, strip, next link and "Showing" line |
| Pager.NumbersShape | includes/class-plans-shortcode.php:553-589 | the strip starts at page 1 and ends at the last page; adjacent buttons are consecutive; each ellipsis stands for at least one skipped page; inner buttons lie within two of the current page; exactly the current page's button is active; NumbersAt gives the exact window |
| Pager.NumbersAt | includes/class-plans-shortcode.php:553-589 | the strip is page 1 and an ellipsis when the window starts after 2, the buttons max(1, current-2) to min(pages, current+2), then an ellipsis and the last page when the window ends before pages-1 |
| Pager.StripShowsCurrent | includes/class-plans-shortcode.php:566-578 | the current page always has an active button |
| Pager.TargetsWithinRange | includes/class-plans-shortcode.php:541-596 | every page, previous and next target lies between 1 and the page count |
| Pager.EveryTargetIsCached | includes/class-plans-shortcode.php:541-596 | for a page of the endpoint's payload, every target its pager offers is a page of the same payload |
| Cards.RenderFeatures | includes/class-plans-shortcode.php:500-508 | the loop emits each feature escaped, in order |
| Cards.RenderPlanCards | includes/class-plans-shortcode.php:467-522 | no plans gives only the empty message; otherwise the output has one card per plan, in order, with the starred class and badge, escaped text, and a button only when text and link are both non-empty |
| Cards.ServerShowsIntended | includes/class-plans-shortcode.php:467-522 | for text without references, a reader of the server's card sees the plan's title, formatted price, non-empty features and, when both are non-empty, its button; this holds for the payload get_single_plan_data builds as written and for the corrected one |
| Cards.ServerAsWrittenSame | includes/class-plans-shortcode.php:345-361 | on the server, the as-written payload renders the same card as the corrected one: foreach visits array_filter's values in order, and a second esc_html leaves the pre-escaped label unchanged |
| Cards.ClientCards | assets/scripts/main.js:198-232 | the client draws only the empty message for no plans, else one card per plan in order |
| Cards.ClientShowsIntended | assets/scripts/main.js:198-232 | a reader sees the same card on the client for any plan whose button fields are not "0" |
| Cards.ClientMatchesServer | assets/scripts/main.js:198-232 | over the corrected payload, the client and the server show the same cards for the same page, and both show what the plan means |
| Cards.ZeroButtonTextDiverges | assets/scripts/main.js:222-224 | a button text of "0" has no button on the server (PHP `empty`) but has one on the client (a truthy string) |
| Cards.BlankFirstFeatureLostOnClient | assets/scripts/main.js:212-218 | as written, features ["", "A"] show "A" on the server but no feature list on the client |
| Cards.AsWrittenFeaturesReachClient | includes/class-plans-shortcode.php:357 | when no feature is empty, the as-written payload reaches the client's list intact |
| Cards.KeptFeaturesKeepKeys | includes/class-plans-shortcode.php:357 | with no empty feature, array_filter keeps every feature under consecutive keys |
| Cards.LabelDoubleEscapedOnClient | assets/scripts/main.js:210-211 | as written, the label "R&D" reads "R&D" on the server but "R&amp;D" on the client |
| Cards.AsWrittenLabelOnServer | includes/class-plans-shortcode.php:495-498 | as written, the server still shows a label once, because esc_html does not encode a reference twice; the client shows it escaped |
| Html.EscapeHtmlShown | assets/scripts/main.js:349-353 | the browser shows exactly the text the client escaped |
| Html.EscapeHtmlNoTags | assets/scripts/main.js:349-353 | the client's escaped text holds no '<' or '>' |
| Html.EscHtmlNoTags | includes/class-plans-shortcode.php:491-515 | esc_html's output holds no '<' or '>', so a title such as `<script>` is shown as text by the server's cards |
| Html.EscapeHtmlAmpersands | assets/scripts/main.js:349-353 | every '&' in the client's escaped text begins a character reference |
| Html.EscHtmlShown | includes/class-plans-shortcode.php:491-515 | for text without references, the browser shows exactly what esc_html was given |
| Html.EscHtmlIdempotent | includes/class-plans-shortcode.php:495-498 | escaping twice with esc_html (format_price, then the card) is escaping once |
| Settings.SanitizeSettings | includes/class-plans-admin.php:245-260 | the page size is clamped to 1..50; a non-positive limit becomes -1 and a larger one is capped at 100; no other key is kept and an absent key stays absent |
| Settings.SanitizeIdempotent | includes/class-plans-admin.php:245-260 | sanitizing twice gives what sanitizing once gives |
| Settings.SanitizeKeepsAcceptable | includes/class-plans-admin.php:245-260 | acceptable settings come back unchanged |
| Settings.DefaultSettings | includes/class-plans-admin.php:469-474 | the defaults are a page size of 6 and a limit of 6 |
| Settings.GetSettings | includes/class-plans-admin.php:482-487 | both keys are always present; a stored key wins and a missing one takes its default |
| Settings.GetSetting | includes/class-plans-admin.php:497-501 | a stored value, else the default for the two known keys, else the caller's fallback |
| Settings.SavedSettingsGiveUsableDefaults | includes/class-plans-shortcode.php:103-112 | whatever the form saved, the shortcode's page size is 1..50 (so it can divide by it) and its limit is -1 or 1..100 |
| Settings.SaveQuickEdit | includes/class-plans-admin.php:144-162 | nothing changes without a valid nonce or for a post that is not a plan; otherwise each flag is 1 iff its box was sent and 0 iff not; no other meta changes |
| Settings.QuickEditIdempotent | includes/class-plans-admin.php:144-162 | submitting the same quick edit twice equals submitting it once |
| Client.ParseIntRoundTrip | assets/scripts/main.js:317 | parseInt reads back any integer the page printed, whatever non-digit follows it |
| Client.NoDigitIsNaN | assets/scripts/main.js:322 | a string without digits parses to NaN |
| Client.GetPerPage | assets/scripts/main.js:321-323 | the page size is never 0: NaN and 0 fall back to 6 |
| Client.GetLimit | assets/scripts/main.js:325-327 | the limit is never 0: NaN and 0 fall back to -1 |
| Client.ConfigReadsPrintedNumbers | assets/scripts/main.js:321-327 | for attributes printed from whole numbers, the client uses the server's page size and limit, except that 0 becomes the fallback |
| Client.CacheSwitch | assets/scripts/main.js:329-331 | only the exact string "false" disables the cache; "0", "no" and an absent attribute leave it on |
| Client.Judge | assets/scripts/main.js:106-131 | a snapshot is used iff it is at most 30·60·1000 ms old (a missing timestamp never ages) and its page size and limit match; an empty item is left alone; anything else is rejected |
| Client.PlansManager.constructor | assets/scripts/main.js:3-23 | a new manager is in the initial state, reads the server pager's page, and starts the preload |
| Client.PlansManager.UpdatePaginationData | assets/scripts/main.js:314-319 | when a pager is present, its data-current (or 1) becomes the current page |
| Client.PlansManager.ShowLoading | assets/scripts/main.js:270-281 | only the loading flag is set |
| Client.PlansManager.HideLoading | assets/scripts/main.js:283-292 | only the loading flag is cleared |
| Client.PlansManager.ShowError | assets/scripts/main.js:294-312 | only the content area changes, to the error box |
| Client.PlansManager.PreloadAllData | assets/scripts/main.js:71-84 | with the cache off or the data loaded nothing changes; otherwise one more request is out, and loading is set when neither slot holds data (`Preload`) |
| Client.PlansManager.ResolvePreload | assets/scripts/main.js:89-102 | one request settles and loading ends; a success fills both slots, marks the data loaded and draws the current page, and a failure shows the error without touching the cache (`Resolve`) |
| Client.PlansManager.LoadCacheFromStorage | assets/scripts/main.js:106-133 | returns true exactly when an accepted snapshot became the cache; a rejected item is removed; without storage or an item nothing changes (`LoadFromStorage`) |
| Client.PlansManager.HandleTabSwitch | assets/scripts/main.js:135-152 | ignored on the active tab or while loading; otherwise the tab becomes active and current at page 1, and that page is displayed (`TabSwitch`) |
| Client.PlansManager.LoadPage | assets/scripts/main.js:154-158 | ignored while loading or on the current page; otherwise that page becomes current and is displayed (`GoToPage`) |
| Client.PlansManager.HandlePopState | assets/scripts/main.js:62-68 | a history entry with a tab sets the tab and the page (or 1) and displays it; the active tab button is not updated (`PopState`) |
| Client.PlansManager.DisplayCachedData | assets/scripts/main.js:160-174 | before loading, starts the preload; with the tab's pages cached, draws the current page or an error box when it is missing, without a request (`Display`) |
| Client.PlansManager.RenderPlansFromCache | assets/scripts/main.js:177-196 | the content becomes the page's client cards and the pager its tokens, and the pager's data-current is read back (`RenderFromCache`) |
| Client.PlansManager.RenderPlanCards | assets/scripts/main.js:198-232 | the loop draws exactly `ClientCards`, about which Cards proves what a reader sees |
| Client.PlansManager.RenderCard | assets/scripts/main.js:204-228 | one card: title and price escaped, the features as the JSON payload lists them, and a button only when both its text and its link are non-empty strings (`ClientCard`) |
| Client.PlansManager.FeatureItems | assets/scripts/main.js:212-218 | each feature escaped, in order |
| Client.PlansManager.RenderPagination | assets/scripts/main.js:234-268 | the client's pager is the same token sequence as the server's `render_pagination` |
| Client.PlansManager.PageButtons | assets/scripts/main.js:249-252 | one button per page of the window, and only the current one is active |
| Client.PlansManager.GetCacheStats | assets/scripts/main.js:366-374 | the loaded flag, which slots are present, and each slot's page count (0 when absent) |
| Client.Start | assets/scripts/main.js:416-420 | the start-up leaves the manager in `Boot`'s state |
| Client.InitialState | assets/scripts/main.js:3-23 | a new manager is on monthly, page 1 (unless the server pager says otherwise), with nothing cached or loaded, the monthly tab active, and the server's markup shown; it is loading, with one request out, iff the cache is enabled |
| Client.PreloadFacts | assets/scripts/main.js:71-84 | the preload does nothing with the cache off or the data loaded; otherwise it sends one request, changes no cached data, and sets loading iff nothing was cached |
| Client.ResolveSuccess | assets/scripts/main.js:89-95 | a success fills both slots (a missing category becomes an empty map), marks the data loaded, ends loading, and settles one request |
| Client.ResolveFailure | assets/scripts/main.js:96-102 | a refused or failed request leaves the cache and the loaded flag alone, ends loading, and shows the server's message, or the generic error when there is no message or it is empty (`||`) |
| Client.TabSwitchFacts | assets/scripts/main.js:135-152 | a click on the active tab or while loading changes nothing; otherwise the tab becomes current and active, the cache is untouched, and before loading the page is 1 |
| Client.TabSwitchShowsFirstPage | assets/scripts/main.js:135-152 | on a loaded cache a tab switch draws page 1 of the new tab |
| Client.LoadPageIgnored | assets/scripts/main.js:154-155 | a page click while loading, or on the current page, changes nothing |
| Client.LoadPageFromCache | assets/scripts/main.js:154-174 | with data loaded, a page click draws that page from the cache, or an error box without any request when it is missing; only the page, the content and the pager change |
| Client.LoadPageBeforeData | assets/scripts/main.js:160-166 | before the data is loaded, a page click starts the preload instead of drawing |
| Client.RenderKeepsPage | assets/scripts/main.js:177-196 | drawing a page that sits under its own number keeps the current page, since the pager's data-current reads back as that number |
| Client.ClearCacheIdempotent | assets/scripts/main.js:355-359 | clearing empties both slots, clears the loaded flag, and removes the stored item when storage works; clearing twice is clearing once; the stats then report nothing |
| Client.RefreshRequests | assets/scripts/main.js:361-364 | a refresh with the cache on always sends a new request and shows loading, with nothing cached |
| Client.StatsCountPages | assets/scripts/main.js:366-374 | the stats count the page keys of each cached category |
| Client.FreshSnapshotAccepted | assets/scripts/main.js:106-125 | a snapshot saved with the current settings at most 30 minutes ago becomes the cache |
| Client.StaleSnapshotRemoved | assets/scripts/main.js:113-119 | an older snapshot, or one saved with another page size, is removed and not used |
| Client.RestoreWithoutItem | assets/scripts/main.js:107-110 | without working storage or with no item, the restore changes nothing and reports false |
| Client.BootRestoresWithRequestOut | assets/scripts/main.js:416-420 | start-up sends the request before reading the snapshot, so even an accepted snapshot leaves the request out and the loading state on, and the page is not redrawn from it |
| Client.StepValid | assets/scripts/main.js:71-174 | every event keeps the bookkeeping: nothing is cached before loading, and loading implies a request is out |
| Client.RunValid | assets/scripts/main.js:71-374 | the bookkeeping holds after any sequence of events |
| Client.StepNeverStores | assets/scripts/main.js:106-133 | no event writes a snapshot: the stored item stays as it was or is removed |
| Client.RunNeverStores | assets/scripts/main.js:355-359 | over any run, the stored item is the one found at start-up or nothing |
| Client.FreshSessionNeverRestores | assets/scripts/main.js:106-133 | in a session that starts with no stored item, no restore ever succeeds, whatever happens on the page |
| Client.DrawnButtonsLeadToCachedPages | assets/scripts/main.js:154-174 | on the endpoint's payload, every button the client draws leads to a cached page, and clicking it draws that page rather than the error box |

## Left out

- Pagination.GetPlansData: for a page past the last one, WordPress returns no posts and reports `found_posts` as 0, so the program reports a total of 0 and 0 pages. The model reports the full count. The shortcode only ever asks for page 1.
- WordPress core is not part of this model. This covers the query engine, post meta storage, nonces, `shortcode_atts`, `wp_parse_args`, JSON output and i18n. `Store.WpSlice` states the paging rules the plugin relies on, with the result set in menu order.
- Pagination.PartitionConcatenates: holds only if every paged query sees the plans in the same order. The queries sort by `menu_order` alone, and the post type has no page attributes (class-plans-cpt.php:50), so every plan has menu order 0. SQL then fixes no order among the ties, and each page is a separate query, so in the program a plan can appear on two pages or on none. The model takes the result set as one fixed sequence.
- Plan titles are taken raw. The `the_title` filters behind `get_the_title` (such as `wptexturize`) are not modelled.
- Cards.ClientMatchesServer: does not cover titles that hold character references such as `&#8217;`. `esc_html` keeps every well-formed reference, while the model's `EscHtml` keeps only the six that `Shown` decodes (listed below). On such a title the server shows the character and the client shows the reference as text.
- Number parsing is abstracted. `intval`, `is_numeric` and `floatval` on the stored price are represented by `priceCents`, the price rounded to cents, or nothing when it is not numeric. Floating-point rounding is not modelled.
- Pagination.GetAllPlansData: requires a page size other than 0. PHP's division at line 211 raises an error for 0, and neither the settings nor the client ever send 0.
- Pagination.GetPlansData: requires a page size other than 0, for the same reason (line 313).
- Plans.FormatPrice: covers only prices whose cents are known; the symbol is always '$' as written, and very large floats are not modelled.
- `esc_url` on the button link is modelled as `esc_html`, which agrees with it on the characters that matter for display.
- The character references are limited. `Shown` decodes only the six references the escapers produce (`&amp;`, `&lt;`, `&gt;`, `&quot;`, `&#039;` and `&nbsp;`). Other named or numeric references are kept as text.
- HTML is modelled as tokens and cards, not bytes. Markup, whitespace, classes, ARIA attributes and translated labels are not modelled.
- The DOM is abstracted:
  - `data-current` and the container's attributes are parameters;
  - the container, content area and pager wrapper are assumed to exist;
  - fades, opacity, the 100 ms redraw delay, scrolling and keyboard forwarding are left out.
- `fetch` is split in two. Sending the request counts as one more request out. Its settlement is a `FetchOutcome` that the environment chooses.
- The request body's page size and limit are `GetPerPage` and `GetLimit`; the server side of that request is `Pagination.GetAllPlansData`.
- `sessionStorage` is a single item. Storage availability and `Date.now()` are parameters.
- Client.Judge: a snapshot whose `data` is not an object, which the JavaScript would accept and then fail on, is not modelled. Neither is a snapshot with `settings: null`, which is treated like one without settings.
- Client.ParseIntRoundTrip: parseInt's loss of precision beyond 2^53 is not modelled. Only the common white-space characters are skipped, not every Unicode space separator.
- Client.PlansManager.HandlePopState: only history entries whose tab is one of the two categories are modelled. The script never pushes history entries itself.
- Client.PlansManager.LoadPage: only integer pages are modelled. The drawn buttons always carry integer page numbers.
- The error box's retry button is the same as `refreshCache`, so it is `Client.Refresh`. `showError` inserts its message without escaping; that is not modelled.
- `PlansUtils` (`formatPrice`, `debounce`, `showNotification`, `initializeCache`), `scrollToPlans` and `isSessionStorageAvailable`'s probe write are not modelled.
- Some admin and plugin parts are not modelled: the settings page markup, the cache-clearing AJAX action and transient cleanup, the list-table columns, the metaboxes and the post type registration. Only the admin class's settings functions and quick-edit save are modelled.
- The `ajax_load_all_plans` nonce check is not modelled. A failed check ends the request with the body `-1`, which the client parses to a value without `success`, so it is `Client.FetchOutcome.Refused(None)` and the generic error is shown.

## Findings

| source | as written | input that shows it | evidently intended | confidence | as-written member | corrected member |
|---|---|---|---|---|---|---|
| includes/class-plans-shortcode.php:357 | `array_filter` keeps the original keys, so a feature list with an empty entry before a kept one is sent as a JSON object; the client's `features.length` is then undefined and it draws no feature list | features `["", "A"]`: the server card lists "A", the client card lists nothing | re-index the filtered list (`array_values`) so the client gets `["A"]` | not executed | Cards.BlankFirstFeatureLostOnClient | Cards.ClientShowsIntended |
| includes/class-plans-shortcode.php:373-374 | `format_price` returns the custom label already passed through `esc_html`; the server's card escapes it again harmlessly, but the client escapes the JSON string again and shows the reference as text | custom label `R&D`: the server shows "R&D", the client shows "R&amp;D" | return the label as it is and escape it where it is written out | not executed | Cards.LabelDoubleEscapedOnClient | Cards.ClientMatchesServer |
