# Campaign Monitor subscriber count: cache gate and refresh

A WordPress plugin that shows a mailing list's subscriber count keeps two options
in the site's options table: `cmcount_total` (the cached count) and
`cmcount_lastpoll_timestamp` (the Unix time of the last poll of the Campaign
Monitor API, 0 meaning never). On every request a cache gate
(`triggerPollIfCacheExpired`) reads the timestamp. When it is 0 it creates both
options and polls. Otherwise it polls only when strictly more than
`CMCOUNT_CACHESECONDS` (30) seconds have passed. The refresh (`attemptPollAPI`)
always rewrites the timestamp, so a failed poll backs off for one full window.
It rewrites the count, to `intval` of `TotalActiveSubscribers`, only when the
decoded response has that field.

The model:

- `options.dfy` (module `WpOptions`): the options table as `map<string, int>`.
  `Get` models `get_option` with a default, `Add` models `add_option` (create if
  absent), `Update` models `update_option` (upsert). Class `Options` holds the
  table and mutates it in place, as the host's global table is mutated.
- `php_values.dfy` (module `PhpValues`): the values `json_decode($body, true)`
  returns, `array_key_exists` for a string key (`HasKey`), and `intval` on those
  values (`IntVal`): null, booleans, integers, leading-integer strings with
  64-bit saturation, and arrays.
- `plugin.dfy` (module `SubscriberCount`): the configuration, the outcome of the
  HTTP exchange as an input (`FetchResult`), the specification functions
  `RefreshStep` and `GateStep`, and class `Plugin`. Its methods `AttemptPoll` and
  `TriggerPollIfCacheExpired` follow the source statement by statement through
  `Options` and are proved equal to those functions.
- `properties.dfy` (module `CacheProperties`): what one request does, case by case.
- `history.dfy` (module `RequestHistory`): a sequence of requests, and what
  holds over all of them.

A request reads the clock twice: once in the gate (line 35, or line 63 on the
first run) and once in the refresh (lines 101, 117 or 130). Both readings are
parameters, `firstClock` and `secondClock`. Nothing forces them to be equal, and
nothing forces them to be ordered.

Two behaviours of the code worth knowing:
- The count is not guaranteed to be non-negative. Line 114 stores `intval` of
  the field unchecked, so a negative or zero value is stored as it is
  (`CacheProperties.PayloadExamples`).
- The first run creates options but never overwrites them, because `add_option`
  at lines 63-64 only creates. If the count option exists without a timestamp,
  the count keeps its value when that first poll fails
  (`CacheProperties.FirstRunFailedPoll`); a successful first poll overwrites it
  at line 114.

## Model

| member | source | states |
|---|---|---|
| WpOptions.Get | cm-subscribercount-plugin.php:30 | get_option reads the stored value, or the caller's default when the option is absent |
| WpOptions.Add | cm-subscribercount-plugin.php:63-64 | add_option creates the option with the value only when it is absent; every existing option keeps its value; only that name is added |
| WpOptions.Update | cm-subscribercount-plugin.php:114-117 | update_option leaves the name holding the value, creating it if absent; every other option is unchanged |
| WpOptions.GetAfterUpdate | cm-subscribercount-plugin.php:101 | reading an option right after update_option gives the written value, whatever default is passed |
| WpOptions.AddKeepsExisting | cm-subscribercount-plugin.php:63-64 | add_option never changes what an existing option reads as |
| WpOptions.Options.GetOption | cm-subscribercount-plugin.php:30 | get_option returns the stored value, or the default when the option is absent |
| WpOptions.Options.AddOption | cm-subscribercount-plugin.php:63-64 | the table afterwards is the create-if-absent update of the table before |
| WpOptions.Options.UpdateOption | cm-subscribercount-plugin.php:101 | the table afterwards is the upsert of the table before |
| PhpValues.HasKey | cm-subscribercount-plugin.php:110 | array_key_exists for the string key holds exactly when the decoded value is an object with that key; a list, a scalar or null has no such key |
| PhpValues.Saturate | cm-subscribercount-plugin.php:114 | intval of an over-long numeric string caps at the 64-bit limits and leaves in-range values alone |
| PhpValues.TrimLeadingSpace | cm-subscribercount-plugin.php:114 | intval skips exactly the leading whitespace of a string: what remains is a suffix whose first character is not whitespace |
| PhpValues.LeadingDigits | cm-subscribercount-plugin.php:114 | intval reads the longest all-digit prefix of a string |
| PhpValues.IntValOfString | cm-subscribercount-plugin.php:114 | intval of a string is within the 64-bit range, and 0 when no sign or digit follows the leading whitespace |
| PhpValues.IntVal | cm-subscribercount-plugin.php:114 | intval of a decoded integer is that integer; of null it is 0; of every other decoded value it is within the 64-bit range |
| PhpValues.DecimalStringValue | cm-subscribercount-plugin.php:114 | the digits of a natural number's decimal spelling denote that number |
| PhpValues.IntValOfDecimal | cm-subscribercount-plugin.php:114 | intval reads every 64-bit integer back from its signed decimal spelling |
| PhpValues.IntValCanBeNegative | cm-subscribercount-plugin.php:113-114 | intval yields negative counts for a negative number or a negative numeric string |
| SubscriberCount.Classify | cm-subscribercount-plugin.php:89-130 | a poll ends in one of three ways: a cURL error is a transport failure; a decoded object with the field is a success carrying intval of the field; any other decoded value is an invalid payload |
| SubscriberCount.FirstRun | cm-subscribercount-plugin.php:30-32 | the timestamp read with default 0 is 0, so the options count as uncreated |
| SubscriberCount.Due | cm-subscribercount-plugin.php:30-37 | a request polls on the first run, or when its clock reading minus the stored timestamp is strictly greater than cacheSeconds |
| SubscriberCount.Initialised | cm-subscribercount-plugin.php:63-64 | the first run creates the timestamp with the clock reading and the count with 0, keeping any value already stored |
| SubscriberCount.RefreshStep | cm-subscribercount-plugin.php:89-132 | after a refresh the timestamp is now; the count is intval of the field on success and unchanged otherwise; only the two options can be added; every other option is unchanged |
| SubscriberCount.GateStep | cm-subscribercount-plugin.php:28-71 | a request that is not due leaves the table as it was; a due one sets the timestamp to the refresh's clock reading and the count to the polled value on success; a failed poll keeps an existing count; the first run always leaves a count; nothing but the two options changes |
| SubscriberCount.Plugin.AttemptPoll | cm-subscribercount-plugin.php:73-140 | the options table afterwards is RefreshStep of the table before, for the given clock reading and fetch outcome |
| SubscriberCount.Plugin.TriggerPollIfCacheExpired | cm-subscribercount-plugin.php:28-71 | the options table afterwards is GateStep of the table before, for the request's two clock readings and fetch outcome |
| SubscriberCount.Plugin.CachedCount | cm-subscribercount-plugin.php:11 | a template reads the cached count, or its own fallback when the count option does not exist |
| CacheProperties.FreshCacheLeavesTableAlone | cm-subscribercount-plugin.php:32-56 | with a non-zero timestamp and at most cacheSeconds elapsed, the table is left exactly as it was |
| CacheProperties.GateOnceInitialised | cm-subscribercount-plugin.php:32-58 | once the timestamp is non-zero, a request is exactly one refresh when elapsed > cacheSeconds and no change otherwise |
| CacheProperties.StrictExpiryBoundary | cm-subscribercount-plugin.php:26-37 | with the 30-second window and last poll T, requests at T+29 and T+30 change nothing and a request at T+31 is one refresh |
| CacheProperties.ClockRolledBackNoRefresh | cm-subscribercount-plugin.php:37 | a clock reading behind the stored timestamp never triggers a refresh for any window >= 0 |
| CacheProperties.ZeroWindowSameSecond | cm-subscribercount-plugin.php:11-37 | with a 0-second window a repeat request in the same second does not refresh, and one a second later does |
| CacheProperties.FirstRunPollsOnce | cm-subscribercount-plugin.php:60-67 | when the timestamp reads 0 the request is due and is exactly the initialisation followed by one refresh |
| CacheProperties.FirstRunFailedPoll | cm-subscribercount-plugin.php:60-67 | a failed first poll leaves the count at 0 when it was absent (its old value otherwise) and the timestamp at the refresh's reading |
| CacheProperties.TransportErrorKeepsCount | cm-subscribercount-plugin.php:89-101 | a transport error sets the timestamp to now and leaves the count reading as before |
| CacheProperties.PayloadWithCountStoresIt | cm-subscribercount-plugin.php:110-117 | a decoded object with the field sets the count to intval of the field and the timestamp to now |
| CacheProperties.PayloadExamples | cm-subscribercount-plugin.php:110-117 | a payload count of 4821 is stored as 4821, a negative one stays negative, a null one becomes 0 |
| CacheProperties.MissingFieldLikeTransportError | cm-subscribercount-plugin.php:119-130 | a payload without the field, or a body that does not decode, changes the table exactly as a transport error does |
| CacheProperties.CountChangesOnlyOnSuccess | cm-subscribercount-plugin.php:110-117 | a request that changes an existing count was due and its poll succeeded |
| CacheProperties.TimestampNeverMovesBack | cm-subscribercount-plugin.php:101-130 | when the refresh's reading is not behind the stored timestamp, a request never lowers the timestamp |
| RequestHistory.Run | cm-subscribercount-plugin.php:143 | over any sequence of requests, no option other than the two is added or changed |
| RequestHistory.CountStableWithoutSuccess | cm-subscribercount-plugin.php:89-132 | over a history in which no request both finds the cache due and polls successfully, an existing count keeps its value after every prefix and at the end; fetch outcomes of requests the gate never polls are unconstrained |
| RequestHistory.CountStablePrefix | cm-subscribercount-plugin.php:89-132 | under the same hypothesis, after the first k requests an existing count keeps its value |
| RequestHistory.RunAppend | cm-subscribercount-plugin.php:143 | serving one more request extends the run by exactly one pass through the gate |
| RequestHistory.TimestampBoundedByClock | cm-subscribercount-plugin.php:101-130 | with refresh readings that never go back and are never behind the stored timestamp, after k requests the timestamp is at most the k-th request's refresh reading |
| RequestHistory.TimestampMonotone | cm-subscribercount-plugin.php:101-130 | with refresh readings that never go back and are never behind the stored timestamp, no request of the history lowers the timestamp, and it never ends below where it started |
| RequestHistory.TimestampChain | cm-subscribercount-plugin.php:101-130 | under the same clock, after every prefix of the history the timestamp is not below the initial one |
| RequestHistory.FirstRunAtMostOnce | cm-subscribercount-plugin.php:60-67 | with non-zero clock readings the first-run branch is taken at most once, and never once the timestamp is set |

## Left out

- The HTTP request (lines 76-87, 92, 106): URL construction, cURL setup, Basic-auth credentials and the disabled TLS peer verification are network I/O. The exchange is an input, `FetchResult`: a cURL error, or a decoded body.
- JSON decoding (line 108) is a library call; its result is an input `JsonValue`. A body that is not JSON decodes to null (`JNull`).
- `array_key_exists` on a decoded value that is not an array returns null with a warning in PHP 7 and is treated here as the missing-field branch. PHP 8 throws a TypeError instead, which would abort the request before the timestamp is rewritten. Neither PHP version's behaviour is claimed.
- PhpValues.IntVal: decoded floats are not modelled (JSON numbers with a fraction or exponent, or integers beyond 64 bits, decode to floats), and strings in exponent form (`"1e3"`) are read up to the `e` rather than as the number they denote.
- Option values are modelled as integers; WordPress stores them as strings, but the source only compares and writes them numerically.
- The `WP_DEBUG` echo and flush tracing (lines 41-44, 51-54) and the commented-out dump (lines 137-138) are output only.
- The `add_action('init', …)` registration (line 143) is host integration; `RequestHistory.Run` stands for the host serving requests one after another.
- Races between concurrent requests are not modelled: the source has no coordination, so requests are served one at a time.
- The API key and list id (lines 22-23) only shape the HTTP request and are not part of `Config`.
