# Posti warehouse plugin core, modelled in Dafny

This project models the `Core` class of the WooCommerce–Posti warehouse plugin
(`Classes/Core.php`). It covers the following parts:

- **The scheduled sync** (`posti_cronjob_callback`). It reads the plugin settings row
  `posti_wh_options` and syncs stock, then orders. Each resource gets the
  stored "synced until" watermark, or one week before now when none is set.
  Each resource captures its own "next" instant before its syncer runs. An
  `\Exception` is logged at `error` and counts as `false`. An `\Error`, such as
  a `TypeError`, is not caught and ends the run on the spot. Afterwards the run
  re-reads the row and stores the watermarks of the syncers that returned `true`,
  in a single settings write.
- **The credential hook** (`after_settings_update`). It deletes the cached token option
  `posti_wh_api_auth` and sets the session flag
  `posti_warehouse_check_token`. It does this when the updated option is
  `posti_wh_options` and one of username, password, test username or test
  password differs under PHP's loose `!=`.
- **The shipping-rate filter** (`hide_other_shipping_if_posti_products`). It decides whether
  some cart item is Posti-sourced. If so, it collects the rates whose id contains
  `posti_shipping_method`, ignoring case. It then returns the rates it was given,
  unfiltered, exactly as the code does.
- **The plugin-list link** (`attach_plugin_links`), **the cron schedule**
  (`posti_interval`) and **the `cron_time` part of `load_options`**.

Files:

- `php.dfy` holds the PHP semantics the code relies on: scalar values,
  `isset`/`empty`, the `(int)` cast, loose `==`, `strpos`/`stripos` and `array_unshift`.
- `environment.dfy` holds the host. `Host` carries the settings row, the token
  option, the session flag, the clock and a trace of the calls the code makes.
  The syncers are scripted: a `SyncScript` gives each call's duration, the
  settings edits made while it runs, and its outcome. The outcome is a
  returned bool, an `\Exception` or an `\Error`.
- `core.dfy` holds the `Core` class and the functions that specify it.
- `core_properties.dfy` holds the lemmas.

`CronRun` is the function that specifies one cron run. `Core.CronjobCallback`
is proved to leave exactly the events, settings row and clock that `CronRun`
gives.

Behaviour of the code worth knowing, which the model keeps:

- The shipping filter's result is the unchanged input. The Posti subset is
  computed and then dropped (Classes/Core.php:245-248), so other shipping
  methods are not actually hidden.
- Stock and orders each capture their own start instant. The orders instant is
  later by the stock sync's duration. There is no single instant shared by
  both resources.
- Both "since" values come from the settings read at the start of the run.
  Only the write uses the re-read row.
- There is no guard against overlapping runs and no retry on an authentication
  failure.
- Toggling test mode alone does not invalidate the token.
- PHP 8's loose `!=` compares two numeric strings as numbers when both fit
  in 64 bits, and as text otherwise. So changing a password from "0123" to
  "123" keeps the cached token (`CoreProperties.NumericPasswordsCompareAsNumbers`).
  Changing "12345678901234567890" to "12345678901234567891" drops it
  (`CoreProperties.LongNumericPasswordChangeInvalidates`).
- Only `\Exception` is caught (Classes/Core.php:202, 217). An `\Error` from the
  stock syncer skips the orders sync. An `\Error` from either syncer skips the
  write, which also loses a stock watermark that had already succeeded
  (`CoreProperties.UncaughtErrorEndsRun`).

## Model

| member | source | states |
|---|---|---|
| `Core.OptionDatetimeSync` | Classes/Core.php:251-258 | The "since" value is never empty. It is either the stored option or the instant one week before now. A stored option that is set and non-empty always wins. |
| `Core.Core.SyncResource` | Classes/Core.php:194-222 | One resource sync calls its syncer once with the "since" value. It hands back the instant read before the call only if the syncer returned true. An `\Exception` is logged at "error" and handed back as `false`. An `\Error` is reported as escaped and not logged. Clock and settings change only as the syncer did. |
| `Core.Core.CronjobCallback` | Classes/Core.php:175-192 | A cron run leaves exactly the calls, settings row and clock of `CronRun`: stock, then orders, then at most one write of the re-read row with the succeeded watermarks set. An escaped `\Error` stops it after that call. |
| `CoreProperties.WatermarkAdvance` | Classes/Core.php:180-188 | In a run without an `\Error`, a watermark becomes its resource's captured start instant when its syncer returned true, and keeps the re-read value otherwise. It is an iff when nothing else wrote the key. |
| `CoreProperties.FailureIsolation` | Classes/Core.php:175-207 | Unless the stock syncer throws an `\Error`, each syncer is called exactly once per run, stock first. A stock `\Exception` is logged at "error" right after its call, and the orders syncer is still called. |
| `CoreProperties.OrdersIndependentOfStockOutcome` | Classes/Core.php:177-178 | The orders call and the orders watermark do not depend on whether the stock sync returned true, returned false or threw an `\Exception`. |
| `CoreProperties.SingleWrite` | Classes/Core.php:180-191 | In a run without an `\Error`, settings are written at most once, and exactly when some syncer returned true. The write is the run's last call. Every key except the two watermarks is as re-read. |
| `CoreProperties.UncaughtErrorEndsRun` | Classes/Core.php:175-222 | An `\Error` from a syncer is not caught. The run writes nothing. After a stock `\Error` the only call is the stock syncer's. After an orders `\Error` the orders call is the last one, and the row keeps only the syncers' own edits. |
| `CoreProperties.SinceAndTiming` | Classes/Core.php:194-222 | In a run without an `\Error`, each syncer's "since" is the value stored at run start, or one week before its own start. The stored watermark is the instant before the syncer ran. Orders capture their own instant, after the stock sync's duration. |
| `CoreProperties.NoChangeSkipped` | Classes/Core.php:194-200 | Suppose a stored watermark instant is no later than the sync start and nothing else writes that key. Then afterwards it is still an instant, never earlier and never after any later change, and it is the next run's "since". This holds for every outcome, an `\Error` included. |
| `CoreProperties.FirstRunBothSucceed` | Classes/Core.php:175-192 | In the example run (no stock watermark yet, an orders watermark stored, both syncs succeed), the trace is the two calls and then one write holding both new watermarks. |
| `Core.Core.AfterSettingsUpdate` | Classes/Core.php:86-103 | When `InvalidatesToken` holds, the token option is deleted and the check flag is set. Otherwise both stay as they were. |
| `CoreProperties.TokenInvalidationTrigger` | Classes/Core.php:87-92 | Invalidation happens iff the option is `posti_wh_options` and some credential field differs under `!=`. |
| `CoreProperties.OnlyCredentialsInvalidate` | Classes/Core.php:88-92 | Changes to other fields only (test mode, cron time, watermarks) never invalidate. |
| `CoreProperties.PasswordChangeInvalidates` | Classes/Core.php:90 | A new non-numeric password invalidates the token. |
| `CoreProperties.NumericPasswordsCompareAsNumbers` | Classes/Core.php:90 | "0123" replaced by "123" is not a change under `!=`, so the token is kept. |
| `CoreProperties.LongNumericPasswordChangeInvalidates` | Classes/Core.php:90 | "12345678901234567890" replaced by "12345678901234567891" is a change. These values overflow 64 bits, so `!=` compares them as text, and the token is dropped. |
| `CoreProperties.CronWriteKeepsToken` | Classes/Core.php:180-191 | No settings write made by a cron run, compared with the row it re-read, triggers invalidation. |
| `Php.LooseEquals` | Classes/Core.php:87-92 | PHP 8 `==`, with every value equal to itself. A boolean compares with truthiness, and null compares with "" and 0. An integer and a numeric string compare as numbers. Two numeric strings compare as numbers when both fit in 64 bits, and any other two strings compare as text. |
| `Php.LooseEqualsSymmetric` | Classes/Core.php:87-92 | `$a == $b` and `$b == $a` agree for every pair of values. |
| `Php.OverflowingNumericStringsCompareAsText` | Classes/Core.php:87-92 | When a numeric string overflows 64 bits, `==` against a string holds only for the identical text. |
| `Core.Core.HideOtherShippingIfPostiProducts` | Classes/Core.php:224-249 | The result is the input rates unchanged. `hideOther` holds iff some cart item is Posti-sourced. The collected set is empty unless `hideOther` holds, and then it is exactly the Posti rates in input order. |
| `CoreProperties.PostiItemRule` | Classes/Core.php:229-236 | An item is Posti-sourced iff its warehouse meta is truthy (so neither "" nor "0") and its stock type is "Posti" or `true`. |
| `CoreProperties.PostiRatesExactly` | Classes/Core.php:238-244 | The collected rates are exactly the input rates whose id contains the marker, and there are no more of them than input rates. |
| `CoreProperties.PostiRatesAppend` | Classes/Core.php:240-244 | Collecting distributes over concatenation, so input order is kept. |
| `CoreProperties.ShippingFilterExamples` | Classes/Core.php:238-244 | Of "posti_shipping_method_a" and "flat_rate", only the first is collected. An upper-case id matches too. |
| `Core.Core.AttachPluginLinks` | Classes/Core.php:77-84 | When the file name contains `woocommerce-warehouse-plugin`, the settings link is put first with `array_unshift`. Otherwise the actions come back unchanged. |
| `Php.ArrayUnshiftShape` | Classes/Core.php:80 | `array_unshift` adds exactly one entry, first, under key 0. Old values follow in order and string keys are kept. The k-th old integer-keyed entry gets key k, counting from 1, so no other entry has key 0. |
| `Php.Strpos` | Classes/Core.php:78 | `strpos` finds a position iff the needle occurs. |
| `Php.Stripos` | Classes/Core.php:241 | `stripos` finds a position iff the needle occurs, ignoring ASCII case. |
| `Php.FindFrom` | Classes/Core.php:241 | The search returns the first match at or after its start, or no match at all. |
| `Php.LooseEqualsPlainString` | Classes/Core.php:232 | Against a non-empty non-numeric string such as "Posti", `==` holds only for that string and for `true`. |
| `Core.Core.constructor` | Classes/Core.php:24-40 | `cron_time` starts at 600 and is then set by `load_options`. |
| `Core.Core.LoadOptions` | Classes/Core.php:260-268 | `cron_time` becomes the crontime setting cast to int when that setting is set and truthy, and is unchanged otherwise. |
| `CoreProperties.CronTimeUnset` | Classes/Core.php:266-268 | A missing or falsy crontime setting leaves `cron_time` as it was. |
| `CoreProperties.CronTimeFromSetting` | Classes/Core.php:266-268 | A non-zero crontime setting, given as an integer or as its decimal text, becomes `cron_time`. |
| `CoreProperties.CronTimeNonNumeric` | Classes/Core.php:266-268 | A crontime setting that is truthy but does not start with a number gives a `cron_time` of 0. |
| `CoreProperties.CronTimeFromLeadingNumber` | Classes/Core.php:266-268 | A crontime text of whitespace, an optional sign, non-zero digits and a rest not starting with a digit (" 600", "+600", "600s") becomes `cron_time`. The value is that of its digits, negated after a minus and saturated at 64 bits. |
| `Php.ToInt` | Classes/Core.php:267 | `(int)` gives 0 for every falsy value, 1 for `true` and the integer itself for an integer. A string gives a value within 64 bits. |
| `Php.StringToInt` | Classes/Core.php:267 | `(int)` on a string stays within PHP's 64-bit range, and equals the leading integer when that fits. |
| `Php.LeadingIntegerCast` | Classes/Core.php:267 | `(int)` of whitespace, a sign, digits `d` and a rest not starting with a digit is the value of `d`, negated after a minus and saturated at the 64-bit bounds. |
| `Php.DigitStringCast` | Classes/Core.php:267 | A digit string is numeric and denotes its digits' value, and within 64 bits it casts to that value. |
| `Php.IntToStringRoundTrip` | Classes/Core.php:267 | Casting the decimal text of a 64-bit integer back with `(int)` gives the integer, and that text is numeric. |
| `Core.Core.PostiInterval` | Classes/Core.php:164-169 | The result adds or replaces the `posti_wh_time` schedule, whose interval is `cron_time`. All other schedules are unchanged. |

## Left out

- Hook registration (`add_action`, `add_filter`, `register_*_hook`), `wp_schedule_event`, `install`/`uninstall`, `getApi`, asset enqueueing and textdomain loading. These are host-framework plumbing.
- `render_messages`, `token_success`, `token_error` and `session_start`. These are admin-screen HTML and PHP session I/O. Only the session flag that `after_settings_update` sets is modelled.
- `Product::sync` and `Order::sync` are scripted oracles (`SyncScript`). What PHP does with an `\Error` that leaves the callback (the error handler, WP-Cron's reaction) is not modelled beyond the run ending. `get_post_meta` and `get_stock_type_by_warehouse` are function parameters. `Logger::log` is a recorded event. `Api` is not called by the modelled code. The files of these classes are not part of this model.
- `Settings::get_plugin_settings` and `Settings::update_plugin_settings` read and replace the settings row as is. `Settings.php` is not part of this model.
- The cart is a parameter instead of the global `$woocommerce->cart`.
- Timestamps are integer instants in seconds, and `Time(t)` stands for their RFC 3339 text; the formatting itself is not modelled. "now -7 day" is taken as 604800 seconds, so daylight-saving shifts are not modelled.
- WordPress calls `after_settings_update` for the cron run's own settings write, but the model does not chain that call. `CoreProperties.CronWriteKeepsToken` states what that call would decide.
- Overlapping cron runs, because the code has no guard against them.
- The other assignments of `load_options`: test mode, debug, add-tracking and object construction.
- PHP warnings for undefined array keys. A missing key reads as `null`.
- Non-scalar option values (nested arrays).
- Core.Core.PostiInterval: does not state the schedule's display text (`"Every N seconds"` after `esc_html__`), because translation lookup is host I/O. The text is built in the body but only the interval is promised.
- The model follows PHP 8 rules throughout. Under PHP 7, `0 == "Posti"` was true, and reading an undefined array key raised a notice rather than PHP 8's warning.
- Php.LooseEquals: numeric strings are integer forms only. Decimal and exponent forms (`"1.0"`, `"1e3"`) are treated as non-numeric. Against an integer, PHP compares a numeric string that overflows 64 bits as a float, so it can be equal to an integer near the bounds. The model calls those unequal. A timestamp against a plain string is never equal, because timestamp text is not modelled.
- Php.ToInt: `"1e3"` casts to 1 rather than 1000. A timestamp value casts to 0 rather than its leading year digits. `Int` values are unbounded, though PHP integers are 64-bit.
- Php.Stripos: case folding is ASCII only, as in PHP 8.2 and later. Earlier PHP versions fold according to the locale.
- Rate ids are strings, although PHP turns numeric-string array keys into integers. `stripos` converts them back, so the result is the same.
