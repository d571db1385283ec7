# Referral bot core, modelled in Dafny

A Telegram bot helps the operator of a set of referral accounts on one gaming site. The bot:

- reads the accounts from the process environment (one per `COOKIE_<name>` variable);
- lets the user pick an account from an inline keyboard;
- scrapes that account's referral page with a retrying HTTP client. It extracts:
  - the referral link;
  - the player statistics;
  - the commission lines;
  - the downline table;
- "fishes" for distinct referral links over up to ten refreshes;
- checks each link for reachability. For a link it resolves the host through the configured DNS resolvers, probes it over HTTP, and classifies the outcome as accessible, filtered, blocked by the ISP or not resolvable.

This project models that core and proves properties of the model.

The modules follow the program:

- `Wrappers`: `Option` and `Result`.
- `JsText`: the JavaScript string and number semantics the code relies on. These are:
  - `includes`, `startsWith` and `split(c)[0]`;
  - `trim`, `toLowerCase` and `replace(/\./g, '')`;
  - `parseInt`, `x || fallback` and `${n}`.
- `Config` models `src/config.js`: the account table, the site settings and the retry policy.
- `Query` models the part of `URLSearchParams` that the scraper uses.
- `Extract` models what `parseHTML` and `parseDownlineHTML` compute from a page.
- `Scraper` models `src/scraper.js`:
  - the 32-bit name hash that picks the user agent;
  - the request URLs;
  - the retry recursion with exponential backoff;
  - the class `ReferralScraper`, whose methods update the account fields in place.
- `LinkChecker` models `src/link-checker.js`:
  - `checkDNS`, `checkHTTPAccess` and `checkLinkStatus`;
  - the classification chain of `analyzeResults`;
  - the sequential bulk check.
- `Bot` models `src/bot.js`:
  - the account keyboard;
  - the `select_account:(.+):(.+)` callback pattern;
  - the fishing loop;
  - the class `ReferralBot` with its per-user locks and states.

Everything the outside world decides is an input to the model:

- a DNS answer per resolver;
- the HTTP outcome, and which probes lost the race against the overall timer;
- the server's reply to each fetch attempt;
- the texts the CSS selectors pick out of a page;
- the random instance id and `Date.now()`;
- a concurrent toggle of the scan;
- a Telegram call that throws.

Randomness, clocks, the network, cheerio and Telegram are not modelled, and are replaced by these parameters.

Three behaviours of the code worth knowing:

- A page that fails to parse is retried like a transport error. `parseHTML` runs inside the `try` of `fetchWithRetry` (`src/scraper.js:103`).
- A link counts as HTTP-accessible only with a status below 400 (`src/link-checker.js:41`).
- The checker is constructed with the Telkom pool alone (`src/link-checker.js:7-9`). No "other" provider is ever present, so `BLOCKED_BY_TELKOM` is never reported. `LinkChecker.ConfiguredPoolsNeverBlock` proves this.

## Model

| member | source | states |
|---|---|---|
| JsText.ContainsIff | src/scraper.js:164-166 | `includes` holds exactly when the needle occurs at some index |
| JsText.PrefixBefore | src/scraper.js:54 | `split(c)[0]` is a prefix with no `c` in it, ending at the first `c` or at the end |
| JsText.StripDotsConcat | src/scraper.js:165 | removing the dots from a concatenation removes them from each part |
| JsText.StripDotsChar | src/scraper.js:165 | removing the dots deletes a `.` and keeps any other character |
| JsText.ToLowerAscii | src/config.js:28 | lower-casing keeps the length, maps `A`-`Z` to `a`-`z` and keeps any other character |
| JsText.TrimShape | src/scraper.js:161-162 | `trim` returns a slice of its input with no space at either end, and it is empty only for all-space input |
| JsText.TrimIdempotent | src/scraper.js:161-162 | trimming twice is trimming once |
| JsText.TrimStartSuffix | src/scraper.js:161 | `trimStart` returns a suffix, and everything it cut is white space |
| JsText.TrimEndPrefix | src/scraper.js:161 | `trimEnd` returns a prefix, and everything it cut is white space |
| JsText.DigitPrefix | src/config.js:73-74 | the digits `parseInt` reads are the longest prefix of digits of the radix |
| JsText.NatToString | src/scraper.js:119 | `${n}` writes at least one decimal digit and nothing else |
| JsText.DigitsValueOfNatToString | src/scraper.js:119 | the digits of `${n}` have value `n` |
| JsText.ParseIntOfIntToString | src/config.js:73-74 | `parseInt` reads back every integer that `${i}` writes, negative ones included |
| JsText.FirstDigitRun | src/scraper.js:179 | `text.match(/\d+/)` finds a non-empty run of digits, and finds none only when the text has no digit; `JsText.FirstDigitRunAt` states which run it is |
| JsText.FirstDigitRunAt | src/scraper.js:179 | `text.match(/\d+/)` starts at the first digit of the text and takes the whole run of digits from there |
| JsText.ParseIntLeadingDigits | src/config.js:73-74 | `parseInt` of a text that starts with decimal digits, not a `0x` prefix, reads exactly those digits and ignores the rest |
| Config.Accounts | src/config.js:15-42 | with some `COOKIE_<name>` key there is exactly one account per such key, with its cookie and its defaulted referer and params; without one the table is `DEFAULT` from `SESSION_COOKIE`, or empty when that is unset or empty |
| Config.DefaultMatchesSite | src/config.js:34-56 | the `DEFAULT` account carries the site's session cookie and the site's default `Referer` |
| Config.RetryFromEnv | src/config.js:72-76 | the retry policy never has a zero retry count or a zero initial delay, and its ceiling is 30000 ms |
| Config.RetrySettings | src/config.js:72-76 | a set, non-zero integer `MAX_RETRIES` or `INITIAL_RETRY_DELAY` is used, an unset, non-numeric or zero one gives 3 or 2000, and the ceiling is 30000 |
| Config.UndefinedIsNaN | src/config.js:73-74 | an unset variable reads as `undefined`, which `parseInt` turns into `NaN` |
| Query.ValuesOf | src/scraper.js:48-50 | `getAll(k)` is empty exactly when no pair is named `k` |
| Query.ValuesOfConcat | src/scraper.js:256-259 | the values of a name in two concatenated lists are those of the first list followed by those of the second |
| Query.AppendValues | src/scraper.js:43-45 | `append` keeps every earlier value of the name and adds the new one last |
| Query.RemoveKey | src/scraper.js:50 | removing a name clears its values and keeps each other name's values in order |
| Query.ReplaceFirst | src/scraper.js:50 | replacing the first pair of a name leaves that name with the single new value |
| Query.SetValues | src/scraper.js:50 | after `set(k, v)` (the function `Query.Set`) name `k` has exactly the value `v`, and each other name keeps its values |
| Query.SetAllValues | src/scraper.js:47-51 | after the `set` loop a name given in the extra parameters has only its last extra value, and any other name keeps its earlier values |
| Query.ApplySet | src/scraper.js:49-51 | the loop calling `set` computes the fold of `set` over the extra pairs |
| Query.ApplyAppend | src/scraper.js:256-259 | the loop calling `append` keeps every pair, so each name has its base values followed by its extra values |
| Query.SplitOn | src/scraper.js:54 | `split` returns at least one part, and no part contains the separator |
| Query.SplitJoin | src/scraper.js:54 | splitting a joined list of separator-free parts gives the parts back |
| Query.ParseSerialize | src/scraper.js:48-54 | a query whose names and values hold no `&` or `=` parses back from its `toString` text to the same pairs |
| Scraper.ToInt32 | src/scraper.js:60 | `x \| 0` lies in the signed 32-bit range and differs from `x` by a multiple of 2^32 |
| Scraper.ToInt32Shift | src/scraper.js:60 | adding a multiple of 2^32 does not change `x \| 0` |
| Scraper.HashStepIs31 | src/scraper.js:59-60 | `((h << 5) - h) + c`, truncated, is `31 h + c` truncated to 32 bits |
| Scraper.HashIsWrappedPolynomial | src/scraper.js:56-62 | the hash loop computes the base-31 polynomial of the char codes, truncated to a signed 32-bit integer |
| Scraper.UaIndexFacts | src/scraper.js:56-64 | the user-agent slot is a valid index: `abs(hash) % 5`, and 0 when there is no account name |
| Scraper.UserAgentIndex | src/scraper.js:56-64 | the hash loop picks the slot `UaIndex` gives, a valid index into the five user agents |
| Scraper.ReferralQueryValues | src/scraper.js:42-52 | in the referral query an extra parameter overrides: its name ends with its last extra value, and any other name keeps the base values |
| Scraper.DownlineQueryValues | src/scraper.js:250-262 | in the downline query every extra value follows the base values of its name |
| Scraper.BaseQueryVersion | src/scraper.js:44 | the base query carries the instance id as its one `_v` |
| Scraper.OverrideVersusAppend | src/scraper.js:42-52 | an account `_v` replaces the instance id in the referral URL, where `_v` has one value; in the downline URL it is sent after the instance id, so `_v` has at least two values |
| Scraper.Pow2Monotone | src/scraper.js:110 | `2^j <= 2^k` when `j <= k` |
| Scraper.DelayBounds | src/scraper.js:109-112 | no delay exceeds the ceiling; with a non-negative initial delay the delays never shrink |
| Scraper.RetryFacts | src/scraper.js:92-122 | from attempt `k`: the attempts go up to `max(k + 1, maxRetries)`; the delays are the backoff values, one before each retry; every attempt before the last failed; a success is the last attempt's value; exhaustion reports the last error |
| Scraper.FailureIsRetried | src/scraper.js:108-117 | a failed first attempt is followed by a second one when `maxRetries >= 2` |
| Scraper.RetrySchedule | src/scraper.js:92-122 | a fetch makes between 1 and `max(1, maxRetries)` attempts and stops at the first success. The wait before retry `j + 1` is `min(initialDelay * 2^j, maxDelay)` and stays within the ceiling. Only running out of attempts fails, with the last error |
| Scraper.DefaultScheduleFailing | src/config.js:72-76 | with the default policy a fetch that keeps failing makes three attempts, sleeping 2000 and then 4000 ms |
| Scraper.ParseFailureIsRetried | src/scraper.js:98-117 | a page that does not parse is fetched again when the policy allows a second attempt |
| Scraper.ReferralScraper.constructor | src/scraper.js:6-20 | a new scraper has the site's session cookie, no account, the first user agent, and options consistent with its fields |
| Scraper.ReferralScraper.SetAccountData | src/scraper.js:22-37 | every account field and both cache busters are replaced, and the options are rebuilt from them |
| Scraper.ReferralScraper.UpdateOptions | src/scraper.js:39-90 | the URL, user agent and headers are rebuilt from the fields, and no field other than the options changes |
| Scraper.ReferralScraper.DownlineRequestUrl | src/scraper.js:250-262 | the downline request URL is the base URL with the appended query |
| Scraper.ReferralScraper.FetchWithRetry | src/scraper.js:92-122 | the recursive fetch returns what the retry recursion gives for the attempt outcomes of this account's request, with the same attempt count and delays |
| Scraper.ReferralScraper.GetReferralData | src/scraper.js:223-242 | the reply is the fetch's value or error, tagged with the current account name |
| Scraper.ReferralScraper.FetchDownlineData | src/scraper.js:244-300 | the downline fetch follows the same retry recursion over its attempt outcomes |
| Scraper.ReferralScraper.GetDownlineData | src/scraper.js:345-361 | the result is the downline fetch's value or error |
| Extract.FirstIndex | src/scraper.js:139 | the least index in the range satisfying the predicate, or none when no index does |
| Extract.UrlRun | src/scraper.js:139 | `[^\s<>"]+` covers the longest run of URL characters |
| Extract.RegexLink | src/scraper.js:139-140 | a match starts with `https://`, and there is no match only when the pattern matches at no index; `Extract.RegexLinkIsLeftmost` states which match it is |
| Extract.RegexLinkIsLeftmost | src/scraper.js:139-140 | the match is the leftmost one: at the first index where `https://` starts a `?ref=` URL, the match is `https://` and the longest run of URL characters after it |
| Extract.Userid | src/scraper.js:144-145 | the `userid=` group is non-empty and holds no `&`, and it is absent only when the pattern matches nowhere; `Extract.UseridIsLeftmost` states which match it comes from |
| Extract.UseridIsLeftmost | src/scraper.js:144-145 | the `userid=` group comes from the first occurrence of `userid=` followed by a character other than `&`, and runs up to the next `&` or the end |
| Extract.FirstNonEmpty | src/scraper.js:127-141 | the first non-empty candidate is picked, all earlier candidates are empty, and none is picked only when every candidate is empty |
| Extract.ReferralLinkIsFirstCandidate | src/scraper.js:127-149 | the fallback chain gives the first non-empty candidate in the order `.refxxcode i`, `span.refxxcode i`, the first line of `span.refxxcode`, the `?ref=` URL in the page, the synthesised link |
| Extract.FindReferralLink | src/scraper.js:127-155 | the reassignments find the link the chain specifies, and fail with `Referral link not found in HTML` exactly when every candidate is empty |
| Extract.PanelKeepsEarlier | src/scraper.js:164-168 | a panel value that is `NaN` or zero keeps the earlier count |
| Extract.PanelWithoutLabels | src/scraper.js:157-169 | a panel whose divs carry neither label leaves both counts at 0 |
| Extract.SpanScanOnlyWithoutTotal | src/scraper.js:171-186 | with a non-zero player total from the panel the statistics are the panel's, whatever the spans are; with no spans they are the panel's too |
| Extract.SpanScanWithoutLabels | src/scraper.js:171-186 | spans whose text carries none of the four labels leave both counts as the panel gave them |
| Extract.DotsIgnored | src/scraper.js:165 | a `.` anywhere in the value does not change the number read |
| Extract.ThousandsSeparator | src/scraper.js:165 | dots are removed before parsing, so `1.234` reads as 1234 |
| Extract.ScanPanel | src/scraper.js:160-169 | the `.each` over the panel divs computes the panel statistics |
| Extract.ScanSpans | src/scraper.js:172-185 | the `.each` over the spans computes the span statistics from the panel's values |
| Extract.CommissionsConcat | src/scraper.js:189-201 | commission lines come one per qualifying row, in row order, across any split of the rows |
| Extract.CommissionsOne | src/scraper.js:194-199 | a row contributes `gameType: rate` exactly when it has two non-empty span texts and the first holds no `border` |
| Extract.CollectCommissions | src/scraper.js:188-201 | the `.each` over the bordered rows collects exactly those lines |
| Extract.RawHtml | src/scraper.js:215 | the raw excerpt is the first 500 characters of the page, or the whole page when it is shorter, followed by `...` |
| Extract.ReferralFallbackOrder | src/scraper.js:124-155 | parsing fails exactly when all five candidates are empty; otherwise the link is the first non-empty candidate |
| Extract.SynthesisedLink | src/scraper.js:143-149 | when the first four candidates are empty and the account has a name and a `userid=`, the link is `<baseUrl>/register?ref=<userid>` |
| Extract.ParseHTML | src/scraper.js:124-217 | `parseHTML` returns the link, the statistics, the commissions and the excerpt that the specification functions give |
| Extract.RowsByConcat | src/scraper.js:309-332 | the records from any split of the rows are those of the first part followed by those of the second |
| Extract.DownlineRowsConcat | src/scraper.js:309-332 | there is one record per row with at least four cells, in table order |
| Extract.DownlineRowsOne | src/scraper.js:312-330 | a row yields its record exactly when it has at least four cells |
| Extract.SumsConcat | src/scraper.js:329-330 | the turnover and commission totals add up across any split of the records |
| Extract.SumsNonNegative | src/scraper.js:319-320 | with non-negative readings the totals are non-negative |
| Extract.TakeRow | src/scraper.js:312-330 | one pass of the row loop keeps the records and running totals those of the rows read so far |
| Extract.AccumulateRows | src/scraper.js:309-342 | the row loop gives the records, their count and the two totals as sums over the records |
| Extract.ParseDownlineHTML | src/scraper.js:302-343 | `parseDownlineHTML` returns the records of its rows, their count and the totals |
| LinkChecker.CheckHTTPAccess | src/link-checker.js:31-64 | a response is accessible exactly when its status is at least 200 and below 400. A 4xx response gives its code and `HTTP <code>`. Any other outcome gives no code and an error: a request error keeps its own message |
| LinkChecker.Resolvability | src/link-checker.js:157-160 | there is one resolvability entry per provider present |
| LinkChecker.AnalysisOf | src/link-checker.js:147-179 | the analysis always ends with one of the four verdicts, never `UNKNOWN` |
| LinkChecker.ClassificationOrder | src/link-checker.js:163-176 | the branch priority of the chain, with each flag set exactly in its own branch and the HTTP flag copied |
| LinkChecker.ResolvableIff | src/link-checker.js:157-160 | for every HTTP result, a provider is resolvable exactly when it was queried and one of its resolvers succeeded |
| LinkChecker.PoolResolvableIff | src/link-checker.js:12-29 | a provider of a parsed URL is resolvable exactly when it is configured, its pool did not lose the race, and `resolve4` succeeded at one of its IPs |
| LinkChecker.ConfiguredPoolsNeverBlock | src/link-checker.js:7-9 | with only the Telkom pool present, `BLOCKED_BY_TELKOM` is never reported and `blockedByISP` is never set |
| LinkChecker.AnalyzeResults | src/link-checker.js:147-179 | the loop and the `if` chain of `analyzeResults` compute the specified analysis |
| LinkChecker.PoolResults | src/link-checker.js:79-112 | a pool's map has exactly its IPs as keys, each mapped to its resolver's result, or to the timeout value when the pool lost the race |
| LinkChecker.LinkStatusShape | src/link-checker.js:66-145 | a check fails only when the URL does not parse. Each pool's map covers exactly its IPs. A lost race gives the timeout value instead of failing. The verdict is never `UNKNOWN` |
| LinkChecker.CheckLinkStatus | src/link-checker.js:66-145 | the method returns the check result the specification gives for the probe |
| LinkChecker.Select | src/link-checker.js:235-257 | each status list holds only results of that status |
| LinkChecker.EveryUrlCounted | src/link-checker.js:273-275 | the four status lists and the error list together count every URL once |
| LinkChecker.BulkTotal | src/link-checker.js:273-275 | the report's total equals the number of URLs checked |
| LinkChecker.PushExtends | src/link-checker.js:235-257 | recording one more result appends it to exactly the list of its status, or to the errors |
| LinkChecker.ProgressCounts | src/link-checker.js:259-261 | the `k`-th progress call reports `k + 1` of the total |
| LinkChecker.CheckAndRecord | src/link-checker.js:232-261 | one pass of the bulk loop extends the partition and the progress calls by the next URL |
| LinkChecker.CheckMultipleLinks | src/link-checker.js:221-271 | the bulk loop gives the partition of all the URLs' results and, with a callback, one progress call per URL |
| Bot.ChunkRows | src/bot.js:459-462 | the buttons are laid out in rows, reading them in order gives them back; there are `ceil(n/2)` rows, all of two buttons but possibly the last |
| Bot.ButtonsFor | src/bot.js:455-457 | one button per account name, in order, captioned with the name and carrying `select_account:<action>:<name>` |
| Bot.AccountKeyboard | src/bot.js:454-462 | the keyboard holds exactly those buttons in rows of two |
| Bot.UntilBreak | src/bot.js:472 | `.+` covers the longest prefix with no line terminator |
| Bot.LastColonBelow | src/bot.js:472 | the greedy first group ends at the last `:` that leaves a non-empty second group |
| Bot.DecodeEncode | src/bot.js:472-476 | `DecodeCallback` decodes the callback data of a button to its action and account name when the name holds no `:` |
| Bot.DecodedPairOccurs | src/bot.js:472-476 | a decoded action and name are non-empty and on one line, and `select_account:<action>:<name>` stands in the data at the leftmost index with a match |
| Bot.ColonInNameShiftsSplit | src/bot.js:472-476 | an account name holding `:` is split at its last `:`, and its head goes to the action |
| Bot.Fish | src/bot.js:338-344 | the set grows by at most one link per reply |
| Bot.FishGrows | src/bot.js:338-344 | the loop never loses a link; it adds only links that were not there before, and it never adds a duplicate |
| Bot.FishContents | src/bot.js:338-344 | a link is in the set afterwards exactly when it was there before or a successful reply offered it |
| Bot.StopAt | src/bot.js:333-336 | the loop makes at most ten fetches, stopping before the first one at which the flag was cleared or the progress edit threw |
| Bot.FetchOne | src/bot.js:338-344 | one pass of the loop body adds the reply's link when it is new |
| Bot.FishLinks | src/bot.js:330-346 | the loop makes the fetches `StopAt` gives, its set is that of their replies, and `foundNew` counts the links added |
| Bot.ScanOf | src/bot.js:309-385 | the flag is off after every run. A running scan is only stopped, and it keeps its links |
| Bot.ScanLinks | src/bot.js:330-348 | a scan keeps the session's links and appends the new distinct links the replies offered, and nothing else |
| Bot.ScanReport | src/bot.js:348-373 | a report counts the new links and the whole set, and its bulk check covers every link of the set |
| Bot.FinishScan | src/bot.js:348-384 | after the loop a throw gives the failure, an empty set gives "no links", and otherwise every link is checked |
| Bot.RunScan | src/bot.js:330-373 | the scan proper ends in the state and outcome `ScanOf` gives for the replies of the fetches made |
| Bot.ScraperFor | src/bot.js:498-499 | a fresh scraper set up for the chosen account |
| Bot.ReferralBot.constructor | src/bot.js:10-23 | a new bot has no locks and no user states |
| Bot.ReferralBot.HandleCheckAllLinks | src/bot.js:309-385 | the user's state becomes what `ScanOf` says, no other user's state changes, and no lock changes |
| Bot.ReferralBot.SelectAccount | src/bot.js:470-529 | unmatched data reaches no handler. An unknown account, or one without a cookie, is refused with no lock or state touched. Otherwise a fresh scraper is set up and the action runs |
| Bot.ReferralBot.RunAction | src/bot.js:485-521 | the user's lock is held during the action and released afterwards, the scraper is set up for the account, and only a scan changes the user's state |
| Bot.ReferralBot.Dispatch | src/bot.js:501-528 | called with the user's lock held, it answers the callback first, runs a scan only for `checkalllinks`, and releases the lock on every path |

## Left out

- Telegram messages, chat actions and message edits are not modelled. Only whether a Telegram call throws is an input (`failsAt`, `answerFails`), because their texts are I/O.
- The 800 ms pause between fetches, the retry sleeps and the 100 ms lock poll are not modelled; the model records the delays and does not wait.
- The busy-wait on the per-user lock (`src/bot.js:489-491`) and concurrency in general are left out. `ReferralBot.RunAction` proceeds as if the wait ended. A concurrent toggle of the scan is the `cancelled` input. Because a second `select_account` click waits for the lock held by the running scan, the toggle cannot in fact interrupt a scan started through the keyboard.
- `Math.random()` (the instance id) and `Date.now()` are parameters.
- `charCodeAt` is taken to be the code point. JavaScript strings are UTF-16, so the hash differs for characters beyond the Basic Multilingual Plane.
- Percent-encoding and decoding in `URLSearchParams` are not modelled; names and values are taken as they are.
- cheerio and DOM traversal are not modelled: a page is the list of texts each selector yields.
- `url.URL` parsing is not modelled: its outcome is the `hostname` input of a probe.
- `dns.Resolver`, `axios` and `cloudscraper` are not modelled: their outcomes are inputs.
- `handleGetLink`, `handleStats`, `handleCheckLink`, the custom-link flow, `isValidUrl` and `copy_link` are not part of this model (other `bot.js` handlers). For those actions `ReferralBot.Dispatch` only answers the callback and releases the lock.
- `formatBulkReport` is modelled only for its total. `formatStatusMessage` and every other message text are presentation.
- The Telegram token check of the `ReferralBot` constructor, `getScraper`/`userScrapers`, and the `referralLink`/`waitingForLink` user-state fields are left out. They do not change any state the model keeps.
- `timestamp` fields and console logging are left out.
- The order in which `Object.keys` lists the accounts is not modelled. `Config.Accounts` is a map, and `Bot.AccountKeyboard` takes its `names` as a parameter that the model does not tie to the map's keys.
- `src/session-generator.js` is not part of this model.
- Scraper.ReferralScraper.UpdateOptions: only the URL, the user agent, the cookie and the referer are modelled. The constant header and agent fields are not.
- Bot.StopAt: a Telegram call that throws after the fishing loop is one input, `failsAt >= 10`, and is not tied to which of the later calls threw.
- ToLowerAscii: only `A`-`Z` are lowered. Account names are taken to be ASCII, whereas `toLowerCase` also lowers other scripts.
- The Cancel handler (`src/bot.js:127-129`) and the custom-link check (`src/bot.js:416`) delete the user's state. During a scan that delete ends the loop at `src/bot.js:334`. Outside a scan it also discards `sessionLinks`, which the model keeps. Neither handler is modelled.
- CheckMultipleLinks: an `onProgress` callback that throws would file its URL a second time, under the errors (the `catch` at `src/link-checker.js:262-267`). This is not modelled. The only caller (`src/bot.js:359`) passes no callback.
- JavaScript numbers are doubles. `parseInt` results and the turnover and commission totals (`src/scraper.js:319-330`) are unbounded integers here, so rounding beyond 2^53 is not modelled.
- `substring(0, 500)` (`src/scraper.js:215`) counts UTF-16 code units. The model counts characters.
- A probe's `dnsTimedOut` and `httpTimedOut` are independent inputs. In the code one shared timer (`src/link-checker.js:74-76`) is behind both, so a lost DNS race also forces the HTTP timeout.
