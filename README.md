# wc-sgtm-webhook in Dafny

A verified model of the WooCommerce plugin that forwards paid orders to a server-side Google Tag
Manager container. When an order is paid, the dispatcher checks whether the webhook is enabled.
It then builds the endpoint (`<base>/data?id=<container>`) and a purchase payload (user data with
SHA-256 digests of the PII, custom data with the line items, metadata), and POSTs it. It records
the outcome in four order-meta markers:

- `_sgtm_webhook_sent`
- `_sgtm_webhook_error`
- `_sgtm_webhook_response`
- `_sgtm_webhook_last_attempt`

The sent marker makes the dispatch at-most-once.

The plugin has two copies of this pipeline, and both are modelled:

- the class-based one that the bootstrap loads (`WC_SGTM_Core`);
- the procedural one of `includes/helpers.php`, which adds a cooldown between attempts and reads its settings through `wc_sgtm_get_setting`.

Around these two copies the model also covers:

- the admin AJAX resend;
- the stand-alone sender;
- the statistics table with its manager and installer;
- the older event dispatcher `WC_SGTM_Webhook` of `includes/class-wc-sgtm-webhook.php`;
- the admin event-list validator;
- the bootstrap's activation and component loading.

Modules, one per source component:

- `Wrappers`: `Option`.
- `Php`: the PHP semantics the code relies on:
  - `empty`, the casts, `strval`/`intval`;
  - `trim`, `strtolower`, the digit filter, `stripos`, `rtrim`, `rawurlencode`;
  - `substr`, `array_filter`, `array_unique`.
- `Helpers`: `WC_SGTM_Helpers`, which covers the options, `build_endpoint`, `hash_pii`, the phone and postcode formatters, and `log`.
- `Orders`: the order and product entities.
- `Payload`: the `user_data`, `custom_data` and brand builders of both copies, and the payload.
- `Meta`: the order-meta markers, and the `OrderMeta` class holding them per order.
- `Delivery`: the transport results, the requests, and the outcome of one dispatch.
- `Core`: `WC_SGTM_Core`, which covers the checks, `send_data` and `process_response`.
- `Procedural`: the dispatcher, recorder, manual resend with its AJAX handler, and batch reprocess of `includes/helpers.php`.
- `Ajax`: `WC_SGTM_Ajax::resend_webhook`.
- `Sender`: `WC_SGTM_Webhook_Sender`.
- `Statistics`: `WC_SGTM_Statistics_Manager` and the `StatsTable` class.
- `Installer`: `WC_SGTM_Installer`, with the version compare and the legacy-data migration.
- `Legacy`: the older event dispatcher.
- `Admin`: `sanitize_events`.
- `Bootstrap`: `activate` and `init`.

State that the source changes in place is modelled with classes:

- `OrderMeta`;
- `StatsTable`;
- `Installer`;
- `LegacyWebhook`;
- `Site`.

Each method is proved against a pure function of the old state, and the properties are lemmas
about those functions.

Inputs the plugin takes from its surroundings are parameters of the model:

- SHA-256 (a function from strings to 64-character digests);
- the clock, both UTC and the site's local offset;
- the transport's reply, or an exception thrown while the payload is built;
- whether the order has a creation date. Without one, `get_date_created()` returns null, and the call on it raises an `Error`. The `catch (Exception $e)` blocks do not catch an `Error`, so the request ends there with no error marker written.
- the nonce and capability checks;
- the Google Analytics client id.

Where the code behaves otherwise than its names or the other copy suggest, the model follows the code:

- The class-based dispatcher has no cooldown and writes no statistics row. Only the procedural copy has the cooldown, and only the stand-alone sender's actions feed the statistics table.
- The procedural manual resend deletes all four markers, the last attempt included, so an immediate second resend is not held back by the cooldown.
- The AJAX resend deletes three markers and keeps the last attempt.
- The `empty($order_data)` checks after the payload is built can never fire, because the builders always return a non-empty array.
- The bootstrap loads only the class-based core, admin and AJAX components. The procedural copy, the sender, the statistics manager, the installer, the older dispatcher and the admin page class are modelled as the source defines them, but nothing in the shown files loads them. The older dispatcher also has the same class name as the bootstrap class.
- The older dispatcher's log table `wc_sgtm_webhook_logs` is created by no code of the plugin. Whether the site has it is a parameter, and without it nothing is logged.

Where the code is evidently wrong (see "## Findings"), the dispatchers run the code as written:

- the payloads carry the user data each copy builds;
- the procedural cooldown compares `time()` with the site-local stamp;
- the statistics listener stores the row it gets from the sender's action.

The intended behaviour is a separate definition with its properties proved beside it, and lemmas
state when the two agree.

## Model

| member | source | states |
|---|---|---|
| Php.LeadingDigits | includes/class-ajax.php:45 | The digit run the cast starts from stops at the first character that is not a digit |
| Php.LeadingDigitsAreDigits | includes/class-ajax.php:45 | That run is a prefix of its input made only of digits |
| Php.DigitsRead | includes/class-ajax.php:45 | `intval` of a digit string is the number it denotes, saturated at the 64-bit bound |
| Php.FractionTruncated | includes/helpers.php:87 | `(int) "a.b"` drops the fraction: it reads `a` alone |
| Php.ExponentScales | includes/helpers.php:87 | `(int) "aeb"` is `a` times ten to the `b`, saturated |
| Php.UnsignedOfFractionExponent | includes/helpers.php:87 | `a.beE` is read as the digits of `a` and `b` scaled by `E - |b|` places, truncated toward zero |
| Php.ExponentExample | includes/helpers.php:87 | `(int) "5e1"` is 50 |
| Php.FractionExponentExample | includes/helpers.php:87 | `(int) "1.5e1"` is 15 |
| Php.NegativeFractionExample | includes/class-wc-sgtm-webhook-sender.php:32 | `intval("-7.9")` is -7: truncation toward zero |
| Php.TrailingTextExample | includes/class-wc-sgtm-webhook-sender.php:32 | `intval(" 42abc")` is 42: leading whitespace is skipped and trailing text ignored |
| Php.NoNumberExample | includes/class-ajax.php:45 | `intval("abc")` is 0 |
| Php.LongDigitsSaturate | includes/class-ajax.php:45 | Twenty or more digits without a leading zero read as `PHP_INT_MAX` |
| Php.LeadingDigitsOfDigits | includes/class-ajax.php:45 | An all-digit string is read whole |
| Php.NatToString | includes/class-core.php:221 | `strval` of a natural number is a non-empty string of digits, with a single digit below 10 |
| Php.NatToStringRoundTrip | includes/class-core.php:221 | Reading the decimal digits back gives the number |
| Php.IntToStringRoundTrip | includes/class-core.php:221 | `(int) strval($n) == $n` for every 64-bit integer, negative ones included |
| Php.IntToStringShape | includes/class-core.php:195 | `strval` of an id is PHP-empty exactly for 0, and `trim` and `strtolower` leave it unchanged |
| Php.TrimLeft | includes/class-helpers.php:85 | The left strip keeps the last character and leaves no strippable first character |
| Php.TrimLeftDrops | includes/class-helpers.php:85 | The left strip keeps a suffix and drops only trim characters before it |
| Php.TrimRight | includes/class-helpers.php:85 | The right strip keeps the first character and leaves no strippable last character |
| Php.TrimRightDrops | includes/class-helpers.php:85 | The right strip keeps a prefix and drops only trim characters after it |
| Php.Trim | includes/class-helpers.php:85 | `trim` leaves nothing to strip at either end |
| Php.TrimSlice | includes/class-helpers.php:85 | `trim` keeps one slice of the input, with only trim characters outside it and none at its ends |
| Php.TrimOfTrimmed | includes/class-helpers.php:85 | A string with nothing to strip is its own trim |
| Php.TrimOfEmpty | includes/class-helpers.php:85 | `trim` leaves "" and "0" unchanged |
| Php.TrimIdempotent | includes/class-helpers.php:85 | `trim(trim(s)) == trim(s)` |
| Php.Lower | includes/class-helpers.php:85 | `strtolower` keeps the length and lower-cases each character |
| Php.LowerIdempotent | includes/class-helpers.php:85 | Lower-casing twice is lower-casing once |
| Php.LowerKeepsEmptiness | includes/class-helpers.php:82-85 | Lower-casing turns no value into a PHP-empty one, and no PHP-empty value into anything else |
| Php.AllLowerFixed | includes/class-helpers.php:85 | A string with no upper-case letter is unchanged |
| Php.LowerKeepsTrimmed | includes/class-helpers.php:85 | Lower-casing keeps a trimmed string trimmed |
| Php.NormaliseIdempotent | includes/class-helpers.php:85 | `strtolower(trim(.))` is idempotent |
| Php.DigitsOnly | includes/class-helpers.php:91-92 | The digit filter returns only digits and is never longer than its input |
| Php.DigitsOnlyAppend | includes/class-helpers.php:91-92 | The digits of a concatenation are the digits of each part, in order |
| Php.DigitsOnlyCounts | includes/class-helpers.php:91-92 | Every digit survives as often as it occurs, and nothing else survives |
| Php.DigitsOnlyFixesDigits | includes/class-helpers.php:91-92 | A string of digits is unchanged |
| Php.DigitsOnlyIdempotent | includes/class-helpers.php:91-92 | Filtering twice is filtering once |
| Php.DigitsNormalised | includes/class-helpers.php:85 | A digit string is unchanged by `trim` and `strtolower` |
| Php.ContainsCIExtend | includes/class-helpers.php:61 | A case-insensitive occurrence stays one when text is appended |
| Php.ContainsCIMiddle | includes/class-helpers.php:62 | An inserted substring occurs in the result |
| Php.RTrimChar | includes/class-helpers.php:62 | `rtrim($s, '/')` is a prefix of `s` with no trailing slash |
| Php.RTrimCharDrops | includes/class-helpers.php:62 | Everything `rtrim` removes is the stripped character |
| Php.EncodeByte | includes/class-helpers.php:71 | One encoded byte is 1 to 3 characters and does not end in whitespace |
| Php.HexRoundTrip | includes/class-helpers.php:71 | Each upper-case hex digit reads back as its value |
| Php.EncodeByteSpec | includes/class-helpers.php:71 | An unreserved byte is kept; any other becomes `%` and two hex digits whose value is the byte |
| Php.RawUrlEncode | includes/class-helpers.php:71 | The encoding is 1 to 3 times as long as the input and does not end in whitespace |
| Php.RawUrlEncodeAppend | includes/class-helpers.php:71 | The encoding works byte by byte: it distributes over concatenation |
| Php.RawUrlRoundTrip | includes/class-helpers.php:71 | Decoding `%XX` undoes the encoding of every byte string |
| Php.Truncate | includes/class-core.php:371 | `substr($s, 0, n)` is the first `n` characters, exactly `n` of them when there are enough, or all of a shorter string |
| Php.FilterNonEmpty | includes/class-core.php:277 | `array_filter` keeps exactly the entries that are not PHP-empty |
| Php.FilterNonEmptyAppend | includes/class-core.php:277 | Filtering distributes over concatenation, so the kept entries keep their order |
| Php.FilterNonEmptyCounts | includes/class-core.php:277 | Every entry that is not PHP-empty survives as often as it occurs |
| Php.Unique | includes/class-core.php:277 | `array_unique` has no repeats and the same set of values |
| Php.UniqueSnoc | includes/class-core.php:277 | One more entry is appended exactly when it is new |
| Php.FirstIndex | includes/class-core.php:277 | The first occurrence of a value: it is there and nowhere before |
| Php.UniqueFirstOccurrence | includes/class-core.php:277 | The values come in the order of their first occurrence |
| Php.UniqueFilterSnoc | includes/class-core.php:277 | Filtering and de-duplicating one more entry appends it exactly when it is non-empty and new |
| Php.FilterUniqueKeys | includes/class-core.php:277 | The keys PHP keeps are ascending indices of the input |
| Php.FilterUniqueKeysValues | includes/class-core.php:277 | The value under the k-th key is the k-th entry of the filtered, de-duplicated list |
| Php.FilterUniqueKeysFirst | includes/class-core.php:277 | Each kept key holds the first occurrence of a non-empty value |
| Php.FilterUniqueKeysAllKept | includes/class-core.php:277 | With no empty and no repeated entry the keys are 0, 1, ...: a JSON array |
| Php.FilterUniqueKeysGap | includes/class-core.php:277 | ['A', 'A', 'B'] keeps the keys 0 and 2: a JSON object |
| Helpers.IsWebhookEnabled | includes/class-helpers.php:37-38 | Enabled exactly when the option is stored and equals "yes" |
| Helpers.IsDebugMode | includes/class-helpers.php:44-45 | Debug exactly when the option is stored and equals "yes" |
| Helpers.WithDataPath | includes/class-helpers.php:60-63 | The URL always contains `/data`, is unchanged when it already did, and does not end in whitespace |
| Helpers.QuerySeparator | includes/class-helpers.php:67 | `&` exactly when the URL already has a `?`, else `?` |
| Helpers.AppendId | includes/class-helpers.php:71 | The URL is extended by the separator, `id=` and the encoded id |
| Helpers.AppendIdKeepsData | includes/class-helpers.php:61-71 | Appending the id keeps the `/data` path |
| Helpers.BuildEndpointEmptyIff | includes/class-helpers.php:52-58 | The endpoint is empty exactly when the trimmed base URL is PHP-empty |
| Helpers.BuildEndpointMentionsData | includes/class-helpers.php:60-75 | A non-empty endpoint always contains `/data` |
| Helpers.BuildEndpointQuery | includes/class-helpers.php:65-73 | `id=` is appended exactly when the container id is not PHP-empty and the URL has no `id=`, after `&` or `?` |
| Helpers.BuildEndpointTrimmed | includes/class-helpers.php:52-75 | The endpoint has no outer whitespace and is never "0" |
| Helpers.BuildEndpointIdempotent | includes/class-helpers.php:52-75 | Building from a built endpoint with the same container id gives the same endpoint |
| Helpers.HashPii | includes/class-helpers.php:81-86 | '' exactly for a PHP-empty value, otherwise a 64-character digest |
| Helpers.HashPiiNormalises | includes/class-helpers.php:81-86 | Values that differ only in case or outer whitespace hash the same |
| Helpers.HashPiiOfTrim | includes/class-helpers.php:81-86 | Hashing the trimmed value equals hashing the raw one, unless the trim is PHP-empty |
| Helpers.HashPiiOfNormalised | includes/class-helpers.php:81-86 | Hashing the normalised value equals hashing the raw one |
| Helpers.FormatDigitsSpec | includes/class-helpers.php:91-99 | Phone and postcode formatting keep exactly the digits, with their counts, and are idempotent |
| Helpers.FormatDigitsOrder | includes/class-helpers.php:91-99 | Phone and postcode formatting keep the digits in the order they occur |
| Helpers.LogRoute | includes/class-helpers.php:105-132 | Nothing is logged without a logger, or for a debug message outside debug mode; an unknown level goes to `info` |
| Delivery.Excerpt | includes/class-core.php:371 | The stored body is the first 500 characters of the reply |
| Meta.Without | includes/class-ajax.php:63-65 | Deleting a key removes exactly that marker |
| Meta.WithoutAllSpec | includes/helpers.php:505-508 | Deleting a list of keys removes exactly the markers listed and keeps the others |
| Meta.WithoutAllSnoc | includes/helpers.php:505-508 | Deleting one more key after a list equals deleting the extended list |
| Meta.OrderMeta.constructor | includes/class-core.php:63 | Orders start with no markers |
| Meta.OrderMeta.SetSent | includes/class-core.php:376 | Only the sent marker of that order changes |
| Meta.OrderMeta.SetError | includes/class-core.php:354-358 | Only the error marker of that order changes |
| Meta.OrderMeta.SetResponse | includes/class-core.php:369-372 | Only the response marker of that order changes |
| Meta.OrderMeta.SetLastAttempt | includes/helpers.php:108 | Only the last-attempt marker of that order changes |
| Meta.OrderMeta.Delete | includes/class-core.php:377 | Only that marker of that order is removed |
| Meta.OrderMeta.DeleteAll | includes/class-ajax.php:63-65 | Exactly the listed markers of that order are removed |
| Payload.Kept | includes/class-core.php:211 | `array_filter` keeps a string entry exactly when it is not PHP-empty |
| Payload.PairOfTrimmed | includes/class-core.php:139-191 | A pair built from a value is complete, non-empty and hashes the value |
| Payload.PairedUserDataText | includes/class-core.php:139-191 | The corrected text pairs: the email is lower-cased and trimmed, names and places are trimmed, each hash matches its plain value |
| Payload.PairedDigitsSpec | includes/class-core.php:146-185 | A digit pair is present exactly when the length test holds, and carries the digits |
| Payload.PairedUserDataDigits | includes/class-core.php:146-185 | The phone is sent iff it has at least 10 digits, the postcode iff it has exactly 8, as digits |
| Payload.PairedUserDataShape | includes/class-core.php:193-211 | Every pair is complete or absent; `user_type` is 'registered' iff there is a user id; the company is dropped iff it is empty |
| Payload.TextAgrees | includes/helpers.php:188-222 | On a value that is not blank, both copies build the corrected text pair |
| Payload.EmailAgrees | includes/helpers.php:171-175 | On an email that is not blank, both copies build the corrected email pair |
| Payload.DigitsAgree | includes/helpers.php:178-216 | The digit pairs of both copies are always correct |
| Payload.ExternalIdAgrees | includes/helpers.php:226 | The procedural `external_id` digest equals the `hash_pii` one |
| Payload.CoreAgreesWithoutBlanks | includes/class-core.php:135-212 | Without blank billing values, the class-based user data as written is the corrected one |
| Payload.ProceduralAgreesWithoutBlanks | includes/helpers.php:166-248 | Without blank billing values, the procedural user data as written is the corrected one |
| Payload.CoreUserDataUnpaired | includes/class-core.php:139-158 | As written, a whitespace email or first name emits a hash with no plain value |
| Payload.ProceduralUserDataUnpaired | includes/helpers.php:171-202 | As written, a whitespace email or city emits the digest of '' with no plain value |
| Payload.FirstTermIsFirstMatch | includes/class-core.php:299-305 | The taxonomy loop takes the first term of the first taxonomy that has terms |
| Payload.FirstTermNone | includes/class-core.php:299-305 | With no terms in any taxonomy, the result is '' |
| Payload.BrandFirstMatch | includes/class-core.php:285-309 | Brand is `pa_marca`, else `marca`, else the first taxonomy term, else ''; never "0" |
| Payload.ProductBrand | includes/class-core.php:285-309 | The brand loop over `product_brand`, `pa_brand` and `yith_product_brand`, with its `break`, computes the first-match brand; the procedural `wc_sgtm_get_product_brand` (includes/helpers.php:319-339) is the same with the single taxonomy `product_brand` |
| Payload.CollectItems | includes/class-core.php:242-274 | The item loop yields exactly the lists of the item specification |
| Payload.ItemListsAligned | includes/class-core.php:242-274 | One id, name and content per resolved product, in item order, entry k describing product k |
| Payload.ItemCategories | includes/class-core.php:258-262 | The categories are exactly the first categories the resolved products append |
| Payload.SkuFallback | includes/class-core.php:272 | The SKU is kept when set; the class-based copy falls back to the id and never sends '' for a non-zero id |
| Payload.Coupon | includes/class-core.php:236-239 | `coupon` appears only in the class-based copy, exactly when there are codes, joined by ", " |
| Payload.PrepareCustomData | includes/class-core.php:217-280 | The custom data is the specified one for the variant |
| Payload.CoreCategories | includes/class-core.php:277 | The class-based categories have no empty and no repeated entry, and are exactly the non-empty first categories |
| Payload.CoreCategoryKeys | includes/class-core.php:277 | PHP keeps each category under its collected index: ascending keys, each the first occurrence |
| Payload.OrderPayload | includes/class-core.php:105-130 | The fixed fields; event time and URL per copy; the event id and `custom_data.order_id` carry the order id, which reads back; the user data is the copy's own builder's; only an order with a creation date has a payload |
| Payload.OrderPayloadPairedWithoutBlanks | includes/class-core.php:135-212 | Without blank billing values, either copy's payload carries the corrected, fully paired user data |
| Payload.PrepareOrderData | includes/helpers.php:131-159 | Both builders return the specified payload, with the user data as written |
| Core.CoreGate | includes/class-core.php:42-73 | Passing the checks means the order exists, is paid and has no sent marker |
| Core.CoreGateIsFirstFailure | includes/class-core.php:42-73 | The gate is the first failing check, in the order disabled, endpoint, order, sent, paid |
| Core.CoreHeaders | includes/class-core.php:317-327 | Authorization is present iff the token is not empty, as "Bearer <token>"; the fixed headers are present |
| Core.CoreRequest | includes/class-core.php:314-343 | POST to the built endpoint, with a 30 s timeout and SSL verification |
| Core.CoreRecord | includes/class-core.php:349-394 | Every reply is stored; a 2xx sets sent and clears the error; otherwise an error record is left |
| Core.ProcessResponse | includes/class-core.php:349-394 | The meta store changes exactly as the recorder specifies |
| Core.CoreStep | includes/class-core.php:42-130 | A stopped dispatch writes nothing; a POST, carrying the payload as written, only for a paid, unsent order with a creation date; an exception leaves its record; an order without a creation date ends in an uncaught Error exactly when the checks pass, writing nothing |
| Core.SendWebhook | includes/class-core.php:42-100 | The dispatcher on the meta store does what the step specifies; a skipped or fatal dispatch leaves the store as it was |
| Core.CoreAtMostOnce | includes/class-core.php:62-67 | Across any sequence of events an order is delivered at most once, and never once sent |
| Core.CoreRunExclusive | includes/class-core.php:374-378 | The sent and error markers are never both present |
| Procedural.GetSetting | includes/helpers.php:18-49 | A non-null plugin setting wins; else a defined constant; else the caller's default, or the built-in one for null |
| Procedural.GetSettingFallbacks | includes/helpers.php:28-48 | A documented setting is null only from a constant defined as null; others fall back to the caller's default; timeout, SSL and cooldown have no constant |
| Procedural.GetSettingDefaults | includes/helpers.php:28-48 | With no plugin and no constants, the result is the caller's default, or the built-in one for null |
| Procedural.UnconfiguredSettings | includes/helpers.php:30-45 | Unconfigured: disabled, 60 s cooldown, 30 s timeout, SSL verified, no URL |
| Procedural.CoolingSpec | includes/helpers.php:86-95 | Corrected: the cooldown holds exactly while fewer than `limit` seconds have passed |
| Procedural.CoolingAsWrittenShift | includes/helpers.php:88-91 | As written, the cooldown lasts `limit + tzOffset` seconds |
| Procedural.CoolingAsWrittenWestOfUtc | includes/helpers.php:88-91 | At UTC-3, a dispatch one second later is let through as written |
| Procedural.CoolingAsWrittenEastOfUtc | includes/helpers.php:88-91 | At UTC+3, a dispatch one hour later is still held back as written |
| Procedural.ProceduralGate | includes/helpers.php:60-95 | Passing the checks means the order exists, is paid, has no sent marker and is past the cooldown as written |
| Procedural.ProceduralGateIsFirstFailure | includes/helpers.php:60-95 | The gate is the first failing check, in the order disabled, order, paid, sent, cooldown as written |
| Procedural.CooldownBoundary | includes/helpers.php:89-91 | After an attempt at UTC time t0, held back iff fewer than `limit + tzOffset` seconds have passed; exactly that many proceeds |
| Procedural.ProceduralHeaders | includes/helpers.php:354-387 | Each optional header appears exactly when its setting or option is not empty |
| Procedural.ProceduralRequest | includes/helpers.php:346-394 | URL, timeout and SSL come from the settings |
| Procedural.ProceduralRecord | includes/helpers.php:402-447 | A 2xx sets sent and stores the reply, keeping the old error; otherwise an error is recorded and no reply is stored |
| Procedural.ProcessResponse | includes/helpers.php:402-447 | The meta store changes exactly as the recorder specifies |
| Procedural.ProceduralSend | includes/helpers.php:107-114 | The attempt is stamped; an empty URL is refused with a connection error, otherwise a POST |
| Procedural.ProceduralStep | includes/helpers.php:58-159 | A stopped dispatch writes nothing; an exception leaves an untyped error; a delivery keeps the old error; an order without a creation date ends in an uncaught Error, with nothing written and no stamp, exactly when the checks pass and no exception comes earlier in the payload build |
| Procedural.Send | includes/helpers.php:107-114 | The sending half on the meta store does what the send specification says |
| Procedural.Dispatch | includes/helpers.php:58-124 | The dispatcher on the meta store does what the step specifies; a skipped or fatal dispatch leaves the store as it was |
| Procedural.ProceduralAtMostOnce | includes/helpers.php:79-84 | At most one delivery per order, and none once it is sent |
| Procedural.ProceduralNotExclusive | includes/helpers.php:422-443 | A 500, then a 200 once the cooldown as written has run out, leaves both a sent and an error marker |
| Procedural.ProceduralNotExclusiveAtOnce | includes/helpers.php:86-91 | With `limit + tzOffset <= 0` the cooldown as written is off, and the two replies can come at the same moment |
| Procedural.CooldownBetweenEvents | includes/helpers.php:86-108 | After an attempt, a later dispatch is held back exactly within `limit + tzOffset` seconds as written, and within `limit` as intended |
| Procedural.ManualResendPasses | includes/helpers.php:504-511 | After the resend clears the markers, only disabled, order or payment can stop the dispatch |
| Procedural.ManualResend | includes/helpers.php:504-511 | Delete the four markers, then dispatch |
| Procedural.ResendHandlerSpec | includes/helpers.php:514-526 | A failed check replies 403 and an id of 0 the invalid-id error, both writing nothing; any other id is resent manually and acknowledged unless the dispatch raised an Error |
| Procedural.AcknowledgedWithoutDelivery | includes/helpers.php:519-522 | The acknowledgement is sent for a 500 reply too, which leaves an error marker and no sent marker |
| Procedural.AcknowledgedWhenDisabled | includes/helpers.php:519-522 | With the webhook disabled the markers are only cleared, and the resend is still acknowledged |
| Procedural.ResendHandler | includes/helpers.php:514-526 | On the meta store, only the posted order's markers change, and the reply is the handler specification's |
| Procedural.ReprocessKeepsCooldown | includes/helpers.php:1082-1086 | The reprocess keeps the last attempt, so an attempt the cooldown holds back is still held back |
| Procedural.Reprocessables | includes/helpers.php:1072-1077 | Exactly the completed or processing orders |
| Procedural.RecentOrders | includes/helpers.php:1072-1077 | At most 10 qualifying orders; all of them when fewer than 10 |
| Procedural.ReprocessCounts | includes/helpers.php:1080-1088 | A batch that runs to the end counts every order; one ended by an Error counts only the orders before it |
| Procedural.ReprocessDiedStays | includes/helpers.php:1080-1088 | Once an Error ends the request, the later orders are not visited |
| Procedural.ReprocessOrder | includes/helpers.php:1081-1086 | One order: its sent and error markers are deleted, then it is dispatched; whether that raises an Error is returned |
| Procedural.ReprocessNext | includes/helpers.php:1080-1088 | The batch state advances by one order |
| Procedural.ReprocessBatch | includes/helpers.php:1080-1088 | The loop leaves the batch specification's markers and stops at the first Error |
| Procedural.Reprocess | includes/helpers.php:1071-1092 | The recent orders are reprocessed in order; without an Error the notice counts every one of them, at most 10; with one there is no notice |
| Ajax.FailureMessage | includes/class-ajax.php:83-91 | Base text, then the error text or the first 100 characters of the body |
| Ajax.ResendSpec | includes/class-ajax.php:33-97 | Checks 403, 400, 404 in order with no marker change; then clear three markers and dispatch once; an Error in the dispatch ends the request with no JSON reply and the three markers cleared |
| Ajax.ResendResult | includes/class-ajax.php:74-96 | Success iff this dispatch delivered; no reply exactly for an enabled, paid order without a creation date; otherwise a 500 with the failure message; the last attempt is untouched |
| Ajax.ResendWebhook | includes/class-ajax.php:33-97 | On the meta store, only the posted order's markers change, as specified |
| Sender.Coalesce | includes/class-wc-sgtm-webhook-sender.php:26-32 | `??`: the default exactly when the key is absent or null |
| Sender.SenderSend | includes/class-wc-sgtm-webhook-sender.php:25-56 | An empty URL gives the fixed failure with no POST; otherwise success iff 2xx, with the right error text and exactly one action |
| Sender.HttpErrorNamesCode | includes/class-wc-sgtm-webhook-sender.php:53-55 | 'HTTP <code>' reads back as the code |
| Statistics.ResponseCode | includes/class-wc-sgtm-webhook-statistics-manager.php:75 | `response_code ?? default` |
| Statistics.SentRow | includes/class-wc-sgtm-webhook-statistics-manager.php:64-80 | A purchase success row with the standard message, code 200 by default |
| Statistics.ErrorRow | includes/class-wc-sgtm-webhook-statistics-manager.php:95-111 | A purchase error row carrying the message, code 0 by default |
| Statistics.KeptCount | includes/class-wc-sgtm-webhook-statistics-manager.php:270 | Cleanup deletes exactly the rows older than the cutoff, keeping multiplicities |
| Statistics.KeptBounds | includes/class-wc-sgtm-webhook-statistics-manager.php:270 | Kept rows are at or after the cutoff; a table with no old row is kept whole |
| Statistics.SuccessRateSpec | includes/class-wc-sgtm-webhook-statistics-manager.php:152 | The nearest whole percentage, 0 with no rows, within 0..100, all gives 100 and none gives 0 |
| Statistics.Successful | includes/class-wc-sgtm-webhook-statistics-manager.php:143 | The successful rows are a subset by count |
| Statistics.WindowRate | includes/class-wc-sgtm-webhook-statistics-manager.php:140-152 | The 30-day rate is in 0..100 |
| Statistics.InsertByDate | includes/class-wc-sgtm-webhook-statistics-manager.php:250 | Insertion adds one row, placing it first or keeping the old head |
| Statistics.InsertByDateSorted | includes/class-wc-sgtm-webhook-statistics-manager.php:250 | Insertion keeps the list newest first |
| Statistics.InsertByDateCount | includes/class-wc-sgtm-webhook-statistics-manager.php:250 | Insertion adds exactly the row |
| Statistics.ByDateDesc | includes/class-wc-sgtm-webhook-statistics-manager.php:250 | `ORDER BY created_at DESC` is sorted and a permutation |
| Statistics.NewestRowsShape | includes/class-wc-sgtm-webhook-statistics-manager.php:250 | At most `limit` rows from the table, newest first, as many as it can give |
| Statistics.NewestRowsAreNewest | includes/class-wc-sgtm-webhook-statistics-manager.php:250 | No row left out is newer than a row returned |
| Statistics.NewestRowsKeepsHead | includes/class-wc-sgtm-webhook-statistics-manager.php:250 | The first `limit` positions of the sorted table are returned |
| Statistics.StatsTable.constructor | includes/class-wc-sgtm-webhook-installer.php:114-148 | The table starts missing and empty |
| Statistics.StatsTable.Insert | includes/class-wc-sgtm-webhook-statistics-manager.php:69-80 | One row is appended, or nothing when the table is missing |
| Statistics.StatsTable.RegisterSent | includes/class-wc-sgtm-webhook-statistics-manager.php:64-86 | The sent row is appended |
| Statistics.StatsTable.RegisterError | includes/class-wc-sgtm-webhook-statistics-manager.php:95-118 | The error row is appended |
| Statistics.StatsTable.Cleanup | includes/class-wc-sgtm-webhook-statistics-manager.php:258-270 | No-op without the table; otherwise the old rows go, and the count is what was deleted |
| Statistics.StatsTable.CreateTable | includes/class-wc-sgtm-webhook-installer.php:114-148 | The table exists afterwards, with its rows kept if it already existed |
| Statistics.StatsTable.RecentLogs | includes/class-wc-sgtm-webhook-statistics-manager.php:240-253 | Empty without the table; otherwise at most `limit` rows of the table, newest first |
| Statistics.HookRowAsWrittenLosesCode | includes/class-wc-sgtm-webhook-statistics-manager.php:52 | As written, an HTTP 500 and an HTTP 404 both leave code 0 and the same message, so an error text is lost |
| Statistics.HookRowAgrees | includes/class-wc-sgtm-webhook-sender.php:40-55 | Corrected: the row agrees with the sender's status, code and error text |
| Statistics.RecordHook | includes/class-wc-sgtm-webhook-statistics-manager.php:49-52 | A listener appends the row as registered: the details array as the message, no response code |
| Statistics.HookRowsAgreeOnSuccess | includes/class-wc-sgtm-webhook-statistics-manager.php:49-52 | A success row is the same as written and as intended |
| Installer.VersionLessStrict | includes/class-wc-sgtm-webhook-installer.php:71 | `version_compare '<'` is irreflexive, asymmetric and transitive |
| Installer.MigrationRow | includes/class-wc-sgtm-webhook-installer.php:185-201 | Success iff the error is empty: then 200 and the standard message; else 'error', 0 and the error text |
| Installer.MigratedAppends | includes/class-wc-sgtm-webhook-installer.php:174-204 | The migration only appends, at most one row per order, each row the first for its order and made from an order |
| Installer.MigratedCovers | includes/class-wc-sgtm-webhook-installer.php:174-204 | Every order visited has a row |
| Installer.MigratedSkipsExisting | includes/class-wc-sgtm-webhook-installer.php:178-182 | An order that had a row gets no new one |
| Installer.MigratedAllNew | includes/class-wc-sgtm-webhook-installer.php:174-204 | With distinct new ids, each order gets its row, in query order |
| Installer.Installer.constructor | includes/class-wc-sgtm-webhook-installer.php:68 | No version is stored yet |
| Installer.Installer.InstalledVersion | includes/class-wc-sgtm-webhook-installer.php:69 | The stored version, defaulting to 1.0.0 |
| Installer.Installer.Install | includes/class-wc-sgtm-webhook-installer.php:47-63 | The table exists, its rows are kept, and the current version is stored |
| Installer.Installer.MigrateLegacyData | includes/class-wc-sgtm-webhook-installer.php:153-212 | Nothing happens without the table; otherwise the migrated table, with the count of inserted rows |
| Installer.Installer.Update | includes/class-wc-sgtm-webhook-installer.php:93-109 | Before 2.0.0: the table is created and the data migrated; otherwise nothing changes |
| Installer.Installer.CheckUpdate | includes/class-wc-sgtm-webhook-installer.php:68-86 | An older installed version is upgraded and the current version stored; otherwise nothing changes |
| Legacy.ItemEntry | includes/class-wc-sgtm-webhook.php:215-224 | Item fields are copied; the price is the product's, or 0 without a product |
| Legacy.ItemEntries | includes/class-wc-sgtm-webhook.php:215-224 | One entry per item, in order |
| Legacy.OrderEvent | includes/class-wc-sgtm-webhook.php:212-251 | The event, timestamp and client id; the order with all its items; no other fields |
| Legacy.HookEvent | includes/class-wc-sgtm-webhook.php:90-203 | No event exactly when a handler returns early; each handler's fields as built |
| Legacy.Headers | includes/class-wc-sgtm-webhook.php:266-272 | JSON content type; Authorization iff the key is not empty, as "Bearer <key>" |
| Legacy.LogEntry | includes/class-wc-sgtm-webhook.php:308-328 | Event type or 'unknown'; order id and total exactly when there is an order |
| Legacy.SendSpec | includes/class-wc-sgtm-webhook.php:259-299 | No request exactly when the endpoint is empty; otherwise a non-blocking 45 s POST, ok iff no WP_Error, and logged |
| Legacy.SendIgnoresReply | includes/class-wc-sgtm-webhook.php:275-298 | The HTTP status is never inspected, so a 500 is reported as success |
| Legacy.LegacyWebhook.constructor | includes/class-wc-sgtm-webhook.php:79-82 | The settings load with '' as default; a missing log table holds no rows |
| Legacy.LegacyWebhook.PrepareItems | includes/class-wc-sgtm-webhook.php:215-224 | The items loop builds the item entries |
| Legacy.LegacyWebhook.PrepareOrderData | includes/class-wc-sgtm-webhook.php:212-251 | Builds the specified order event |
| Legacy.LegacyWebhook.SendWebhook | includes/class-wc-sgtm-webhook.php:259-299 | Does what the send specification says, appending its log row when the log table exists |
| Legacy.LegacyWebhook.Handle | includes/class-wc-sgtm-webhook.php:90-203 | A handler sends exactly the event it builds, if any |
| Admin.ValidEventsCount | admin/class-wc-sgtm-webhook-admin.php:133-146 | Only available events survive, each as often as it was submitted |
| Admin.ValidEventsAreKeys | admin/class-wc-sgtm-webhook-admin.php:133-146 | Every result entry is an available event key |
| Admin.ValidEventsAppend | admin/class-wc-sgtm-webhook-admin.php:133-146 | Filtering distributes over concatenation, so order is kept |
| Admin.ValidEventsKeepsValid | admin/class-wc-sgtm-webhook-admin.php:133-146 | A valid list passes unchanged |
| Admin.ValidEventsIdempotent | admin/class-wc-sgtm-webhook-admin.php:133-146 | Sanitising twice is sanitising once |
| Admin.SanitizeEvents | admin/class-wc-sgtm-webhook-admin.php:133-146 | An array gives its valid entries; a non-array gives [] |
| Bootstrap.SeededSpec | wc-sgtm-webhook.php:97-110 | Existing options are kept; a missing key is added iff it has a default, with the first one |
| Bootstrap.DefaultOfAbsent | wc-sgtm-webhook.php:97-104 | A key that no default names gets none |
| Bootstrap.DefaultOfDistinct | wc-sgtm-webhook.php:97-104 | With distinct keys, each default applies to its own key |
| Bootstrap.ActivationSeedsAll | wc-sgtm-webhook.php:97-110 | Activation keeps every option and sets every missing default, the version included |
| Bootstrap.Site.constructor | wc-sgtm-webhook.php:87 | The site starts active with its options |
| Bootstrap.Site.Activate | wc-sgtm-webhook.php:87-113 | Without WooCommerce: deactivated, no option written; otherwise the seeded options |
| Bootstrap.Init | wc-sgtm-webhook.php:60-85 | Nothing without WooCommerce; always the core; admin and AJAX exactly in the admin area |

## Left out

- Payload.ItemListsAligned: proves ids, names and contents per resolved product. It does not prove, per item, that `quantity` and `item_price` are the ones read from the line item; those are stated by the `contents` entry function alone.
- Legacy.LogEntry: the 'unknown' event type is stated, but no handler can produce an event without a type, so it is unreachable.
- JSON encoding of the payload is not modelled: the request body is the payload value itself.
- Floating point: `floatval` amounts are reals, taken as given.
- Dates: `current_time('mysql')`, `date('c')` and `getTimestamp()` are seconds. The site's timezone offset is a parameter. The timezone mix in the statistics cleanup's cutoff (`date` on `strtotime`) is not modelled.
- SHA-256 is a parameter function returning 64-character digests.
- Logging sinks (the WooCommerce logger, the log file with its 10 MB rotation, `error_log`) are out of scope. Only the routing of `log` is modelled.
- `WC_SGTM_WEBHOOK_VERSION` is not defined in the files modelled. The procedural user agent takes it from the configured constants, falling back to '1.x', and the installer's current version is a parameter.
- Version strings are sequences of numbers; suffixes such as "-beta" are not parsed.
- The statistics retention setting is read through `get_setting`; it is a parameter.
- The legacy error meta migrated by the installer is taken as text.
- `get_client_id` (cookie or session) is a parameter.
- Nonce and capability checks are booleans; `wp_send_json_*` ending the request is modelled as the handler's result.
- The admin pages, dashboard widget, metabox, weekly report, export, health check and connectivity test of `includes/helpers.php` render HTML or mail. They are not part of this model.
- `includes/class-admin.php` (settings page rendering) and `includes/class-wc-sgtm-webhook-logger.php` (log storage) are not part of this model.
- Concurrency (two hooks dispatching the same order at once) is not modelled; each dispatch runs alone.
- Php.TrimLeft: that the result is a suffix with only trim characters dropped is stated by TrimLeftDrops, not in its own contract, to keep the functions that use it cheap to verify.
- Php.TrimRight: that the result is a prefix with only trim characters dropped is stated by TrimRightDrops, for the same reason.
- Php.Trim: that the result is a slice with only trim characters outside it is stated by TrimSlice, for the same reason.
- Php.RTrimChar: that only the stripped character is removed is stated by RTrimCharDrops.
- Php.DigitsOnly: the order of the digits is stated by DigitsOnlyAppend and their counts by DigitsOnlyCounts.
- Php.EncodeByte: the kept byte and the `%XX` form are stated by EncodeByteSpec.
- Php.ToInt: reads the number exactly. PHP goes through a double, so digits beyond 53 bits of precision are rounded, and it gives 0 for an infinite value such as "1e400", where the model saturates. Hexadecimal and other non-decimal forms are text, as in PHP 7.
- Php.Lower: lower-cases ASCII letters only, which is `strtolower` in the C locale. Before PHP 8.2 the result depends on the locale the site sets, and other locales are not modelled.
- Php.RawUrlEncode: the content of the encoding is stated by RawUrlEncodeAppend and RawUrlRoundTrip. A character above 255 is encoded as its value modulo 256; PHP strings hold only bytes.
- Php.FilterNonEmpty: order and multiplicity are stated by FilterNonEmptyAppend and FilterNonEmptyCounts.
- Php.Unique: the first-occurrence order is stated by UniqueFirstOccurrence. The keys PHP keeps are given by FilterUniqueKeys, not carried in the result.
- Payload.CoreCategories: `content_category` holds the values in key order. The keys PHP keeps, which make the JSON an object when a category repeats or is empty, are stated by CoreCategoryKeys; the JSON encoding itself is not modelled.
- Statistics.RecordHook: what the database layer stores for an array value is a parameter. A database layer that rejects the insert outright, leaving no row, is not modelled.

## Findings

| source | as written | input that shows it | evidently intended | confidence | as-written member | corrected member |
|---|---|---|---|---|---|---|
| includes/class-core.php:139-158 | The hash is emitted when the raw value is truthy, but the plain value is the trimmed one, which `array_filter` may drop | billing email " " gives `em => ['']` and no `email_address`; first name " " gives the digest of '' and no `first_name` | each hash is emitted exactly when its plain value is | not executed | Payload.CoreUserDataUnpaired | Payload.PairedUserDataShape |
| includes/helpers.php:171-222 | Same as above, with `hash('sha256', ...)` applied to the empty trimmed value | billing city " " gives `ct => [sha256('')]` with no `city` | each hash is emitted exactly when its plain value is | not executed | Payload.ProceduralUserDataUnpaired | Payload.PairedUserDataText |
| includes/helpers.php:88-91 | The last attempt is stored as site-local time, but `time() - strtotime(...)` treats it as UTC | at UTC-3 with the 60 s default, a second dispatch 1 s later is let through; at UTC+3 one an hour later is held back | the cooldown lasts `rate_limit_seconds` of real time | not executed | Procedural.CoolingAsWrittenWestOfUtc | Procedural.CoolingSpec |
| includes/class-wc-sgtm-webhook-statistics-manager.php:52 | `register_webhook_error($order_id, $error, $response)` receives the sender's details array as `$error` and no `$response` | an HTTP 500 and an HTTP 404 reply both store code 0 and the same message, whatever text the database layer makes of the array | the row carries the error text and the reply's code | not executed | Statistics.HookRowAsWrittenLosesCode | Statistics.HookRowAgrees |
