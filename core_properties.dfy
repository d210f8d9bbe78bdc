/**
  What the cron run, the credential hook, the shipping filter, the plugin
  link and the cron schedule of `Core` guarantee, stated over the functions
  that specify them.
*/
module CoreProperties {
  import opened Wrappers
  import opened Php
  import opened Environment
  import opened Core

  // -----------------------------------------------------------------------
  // Counting calls in a run

  /** Which recorded calls to count. */
  datatype Selector = CallOf(resource: Resource) | Write

  predicate Selects(sel: Selector, e: Event) {
    match sel
    case CallOf(resource) => e.SyncerCalled? && e.resource == resource
    case Write => e.SettingsWritten?
  }

  function Count(events: seq<Event>, sel: Selector): nat {
    if events == [] then 0 else (if Selects(sel, events[0]) then 1 else 0) + Count(events[1..], sel)
  }

  lemma {:induction false} CountAppend(a: seq<Event>, b: seq<Event>, sel: Selector)
    ensures Count(a + b, sel) == Count(a, sel) + Count(b, sel)
  {
    if a == [] {
      assert a + b == b;
    } else {
      assert (a + b)[0] == a[0];
      assert (a + b)[1..] == a[1..] + b;
      CountAppend(a[1..], b, sel);
    }
  }

  /** The instant at which a resource's sync starts within a run. */
  function StartOf(resource: Resource, clock: int, stock: SyncScript): int {
    match resource
    case Stock => clock
    case Orders => clock + stock.duration
  }

  function ScriptOf(resource: Resource, stock: SyncScript, orders: SyncScript): SyncScript {
    match resource
    case Stock => stock
    case Orders => orders
  }

  /** Where the orders syncer call sits in a run's events. */
  function OrdersCallIndex(stock: SyncScript): nat {
    if stock.outcome.Threw? then 2 else 1
  }

  // -----------------------------------------------------------------------
  // The cron run

  /** Watermark advance: a resource's watermark becomes the instant captured at
      the start of its own sync exactly when its syncer returned true;
      otherwise it keeps the value in the re-read row. When nothing else wrote
      that key and it did not already hold that instant, this is an iff. This
      holds when neither syncer throws an `\Error`; `UncaughtErrorEndsRun` says
      what happens when one does. */
  lemma WatermarkAdvance(settings: map<string, Value>, clock: int, stock: SyncScript, orders: SyncScript, resource: Resource)
    requires !stock.outcome.Errored? && !orders.outcome.Errored?
    ensures var r := CronRun(settings, clock, stock, orders);
            var key := WatermarkKey(resource);
            var script := ScriptOf(resource, stock, orders);
            && (script.outcome == Returned(true) ==> Lookup(r.settings, key) == Time(StartOf(resource, clock, stock)))
            && (script.outcome != Returned(true) ==> Lookup(r.settings, key) == Lookup(settings + stock.edits + orders.edits, key))
            && (key !in stock.edits && key !in orders.edits && Lookup(settings, key) != Time(StartOf(resource, clock, stock)) ==>
                  (Lookup(r.settings, key) == Time(StartOf(resource, clock, stock)) <==> script.outcome == Returned(true)))
  {
  }

  /** Failure isolation: each syncer is called exactly once per run, stock
      first; an exception from the stock syncer is logged at "error" right
      after its call, and the orders syncer is still called next. The code
      catches only `\Exception`: this holds when the stock syncer throws no
      `\Error`. */
  lemma FailureIsolation(settings: map<string, Value>, clock: int, stock: SyncScript, orders: SyncScript)
    requires !stock.outcome.Errored?
    ensures var r := CronRun(settings, clock, stock, orders);
            && Count(r.events, CallOf(Stock)) == 1
            && Count(r.events, CallOf(Orders)) == 1
            && |r.events| > OrdersCallIndex(stock)
            && Selects(CallOf(Stock), r.events[0])
            && Selects(CallOf(Orders), r.events[OrdersCallIndex(stock)])
            && (stock.outcome.Threw? ==> r.events[1] == Logged(ERROR_LEVEL, stock.outcome.message))
  {
    var r := CronRun(settings, clock, stock, orders);
    var stockSince := OptionDatetimeSync(settings, STOCK_SYNC_KEY, clock);
    var orderSince := OptionDatetimeSync(settings, ORDER_SYNC_KEY, clock + stock.duration);
    var a := SyncEvents(Stock, stockSince, stock.outcome);
    var b := SyncEvents(Orders, orderSince, orders.outcome);
    var tail := r.events[|a + b|..];
    assert r.events == a + b + tail;
    assert Count(tail, CallOf(Stock)) == 0 && Count(tail, CallOf(Orders)) == 0 by {
      assert tail == [] || (|tail| == 1 && tail[0].SettingsWritten?);
    }
    CountAppend(a + [], b, CallOf(Stock));
    CountAppend(a, b, CallOf(Orders));
    CountAppend(a + b, tail, CallOf(Stock));
    CountAppend(a + b, tail, CallOf(Orders));
    assert a + [] == a;
    assert Count(a, CallOf(Stock)) == 1 by { assert a == [a[0]] + a[1..]; CountAppend([a[0]], a[1..], CallOf(Stock)); }
    assert Count(a, CallOf(Orders)) == 0 by { assert a == [a[0]] + a[1..]; CountAppend([a[0]], a[1..], CallOf(Orders)); }
    assert Count(b, CallOf(Stock)) == 0 by { assert b == [b[0]] + b[1..]; CountAppend([b[0]], b[1..], CallOf(Stock)); }
    assert Count(b, CallOf(Orders)) == 1 by { assert b == [b[0]] + b[1..]; CountAppend([b[0]], b[1..], CallOf(Orders)); }
  }

  /** Failure isolation, second half: what the orders sync is called with and
      the orders watermark it leaves do not depend on how the stock sync ended. */
  lemma OrdersIndependentOfStockOutcome(settings: map<string, Value>, clock: int,
                                        stockA: SyncScript, stockB: SyncScript, orders: SyncScript)
    requires stockA.duration == stockB.duration && stockA.edits == stockB.edits
    requires !stockA.outcome.Errored? && !stockB.outcome.Errored?
    ensures var ra := CronRun(settings, clock, stockA, orders);
            var rb := CronRun(settings, clock, stockB, orders);
            && |ra.events| > OrdersCallIndex(stockA) && |rb.events| > OrdersCallIndex(stockB)
            && ra.events[OrdersCallIndex(stockA)] == rb.events[OrdersCallIndex(stockB)]
            && Lookup(ra.settings, ORDER_SYNC_KEY) == Lookup(rb.settings, ORDER_SYNC_KEY)
  {
  }

  /** Single write: a run writes the settings row at most once, and does so
      exactly when at least one syncer returned true; the write is the last
      call of the run, and every key other than the two watermarks is what
      the row held when re-read. (With an `\Error`, see `UncaughtErrorEndsRun`.) */
  lemma SingleWrite(settings: map<string, Value>, clock: int, stock: SyncScript, orders: SyncScript)
    requires !stock.outcome.Errored? && !orders.outcome.Errored?
    ensures var r := CronRun(settings, clock, stock, orders);
            && Count(r.events, Write) <= 1
            && (Count(r.events, Write) == 1 <==> stock.outcome == Returned(true) || orders.outcome == Returned(true))
            && (Count(r.events, Write) == 1 ==> r.events[|r.events| - 1] == SettingsWritten(r.settings))
            && (forall k :: k != STOCK_SYNC_KEY && k != ORDER_SYNC_KEY ==>
                  Lookup(r.settings, k) == Lookup(settings + stock.edits + orders.edits, k))
  {
    var r := CronRun(settings, clock, stock, orders);
    var stockSince := OptionDatetimeSync(settings, STOCK_SYNC_KEY, clock);
    var orderSince := OptionDatetimeSync(settings, ORDER_SYNC_KEY, clock + stock.duration);
    var a := SyncEvents(Stock, stockSince, stock.outcome);
    var b := SyncEvents(Orders, orderSince, orders.outcome);
    assert Count(a, Write) == 0 by { assert a == [a[0]] + a[1..]; CountAppend([a[0]], a[1..], Write); }
    assert Count(b, Write) == 0 by { assert b == [b[0]] + b[1..]; CountAppend([b[0]], b[1..], Write); }
    CountAppend(a, b, Write);
    if r.events != a + b {
      assert r.events == (a + b) + [SettingsWritten(r.settings)];
      CountAppend(a + b, [SettingsWritten(r.settings)], Write);
    }
  }

  /** Since value and timing: each syncer gets the watermark from the row read
      at the start of the run when that is set and not empty, otherwise one
      week before the instant its own sync starts; the watermark a successful
      stock sync stores is the instant before the syncer ran, and the orders
      sync captures its own instant, after the stock sync's duration. */
  lemma SinceAndTiming(settings: map<string, Value>, clock: int, stock: SyncScript, orders: SyncScript)
    requires !stock.outcome.Errored? && !orders.outcome.Errored?
    ensures var r := CronRun(settings, clock, stock, orders);
            var stockStored := Lookup(settings, STOCK_SYNC_KEY);
            var orderStored := Lookup(settings, ORDER_SYNC_KEY);
            && |r.events| > OrdersCallIndex(stock)
            && r.events[0] == SyncerCalled(Stock, if Truthy(stockStored) then stockStored else Time(clock - WEEK))
            && r.events[OrdersCallIndex(stock)] ==
                 SyncerCalled(Orders, if Truthy(orderStored) then orderStored else Time(clock + stock.duration - WEEK))
            && (stock.outcome == Returned(true) ==>
                  Lookup(r.settings, STOCK_SYNC_KEY) == Time(clock))
            && (orders.outcome == Returned(true) ==>
                  Lookup(r.settings, ORDER_SYNC_KEY) == Time(clock + stock.duration))
  {
  }

  /** At least once: if a resource's watermark held instant `w0`, no later than
      the start of its sync, and nothing else wrote that key, then after the
      run it still holds an instant, never earlier than `w0` and never later
      than any change made from that start on; the next run syncs since exactly
      that instant. So a change is never skipped, whether the sync failed or
      not, and even when an `\Error` ends the run. */
  lemma NoChangeSkipped(settings: map<string, Value>, clock: int, stock: SyncScript, orders: SyncScript,
                        resource: Resource, w0: int, changedAt: int, nextNow: int)
    requires Lookup(settings, WatermarkKey(resource)) == Time(w0)
    requires w0 <= StartOf(resource, clock, stock) <= changedAt
    requires WatermarkKey(resource) !in stock.edits && WatermarkKey(resource) !in orders.edits
    ensures var r := CronRun(settings, clock, stock, orders);
            var w := Lookup(r.settings, WatermarkKey(resource));
            && w.Time? && w0 <= w.t <= changedAt
            && OptionDatetimeSync(r.settings, WatermarkKey(resource), nextNow) == w
  {
    if !stock.outcome.Errored? && !orders.outcome.Errored? {
      WatermarkAdvance(settings, clock, stock, orders, resource);
    }
  }

  /** An `\Error` from a syncer is not caught: the run ends right after that
      syncer's call, nothing is logged and nothing is written, so even a
      stock watermark that succeeded before an orders `\Error` is lost. */
  lemma UncaughtErrorEndsRun(settings: map<string, Value>, clock: int, stock: SyncScript, orders: SyncScript)
    requires stock.outcome.Errored? || orders.outcome.Errored?
    ensures var r := CronRun(settings, clock, stock, orders);
            && Count(r.events, Write) == 0
            && (stock.outcome.Errored? ==>
                  && r.events == [SyncerCalled(Stock, OptionDatetimeSync(settings, STOCK_SYNC_KEY, clock))]
                  && r.settings == settings + stock.edits)
            && (!stock.outcome.Errored? ==>
                  && Count(r.events, CallOf(Orders)) == 1
                  && r.events[|r.events| - 1].SyncerCalled?
                  && r.settings == settings + stock.edits + orders.edits)
  {
    var r := CronRun(settings, clock, stock, orders);
    var a := SyncEvents(Stock, OptionDatetimeSync(settings, STOCK_SYNC_KEY, clock), stock.outcome);
    assert Count(a, Write) == 0 && Count(a, CallOf(Orders)) == 0 by {
      assert a == [a[0]] + a[1..];
      CountAppend([a[0]], a[1..], Write);
      CountAppend([a[0]], a[1..], CallOf(Orders));
    }
    if !stock.outcome.Errored? {
      var b := SyncEvents(Orders, OptionDatetimeSync(settings, ORDER_SYNC_KEY, clock + stock.duration), orders.outcome);
      assert b == [SyncerCalled(Orders, OptionDatetimeSync(settings, ORDER_SYNC_KEY, clock + stock.duration))];
      assert r.events == a + b;
      CountAppend(a, b, Write);
      CountAppend(a, b, CallOf(Orders));
    }
  }

  /** The example run: no stock watermark yet, an orders watermark stored, both
      syncers succeed — both watermarks become the instants their syncs
      started, in one write holding both. */
  lemma FirstRunBothSucceed(settings: map<string, Value>, clock: int, stock: SyncScript, orders: SyncScript, stamp: string)
    requires STOCK_SYNC_KEY !in settings && Lookup(settings, ORDER_SYNC_KEY) == Str(stamp) && stamp != "" && stamp != "0"
    requires stock == SyncScript(0, map[], Returned(true)) && orders.outcome == Returned(true) && orders.edits == map[]
    ensures var r := CronRun(settings, clock, stock, orders);
            && r.events == [SyncerCalled(Stock, Time(clock - WEEK)), SyncerCalled(Orders, Str(stamp)), SettingsWritten(r.settings)]
            && r.settings == settings[STOCK_SYNC_KEY := Time(clock)][ORDER_SYNC_KEY := Time(clock)]
  {
    assert OptionDatetimeSync(settings, STOCK_SYNC_KEY, clock) == Time(clock - WEEK);
    assert OptionDatetimeSync(settings, ORDER_SYNC_KEY, clock) == Str(stamp);
    assert settings + stock.edits + orders.edits == settings;
  }

  // -----------------------------------------------------------------------
  // Token invalidation

  /** The token is dropped exactly when the plugin's own option changed and at
      least one of the four credential fields differs under PHP's `!=`. */
  lemma TokenInvalidationTrigger(option: string, oldValue: map<string, Value>, value: map<string, Value>)
    ensures InvalidatesToken(option, oldValue, value) <==>
              option == OPTIONS_NAME &&
              exists k :: k in CREDENTIAL_KEYS && !LooseEquals(Lookup(oldValue, k), Lookup(value, k))
  {
    if InvalidatesToken(option, oldValue, value) {
      if !LooseEquals(Lookup(oldValue, USERNAME_KEY), Lookup(value, USERNAME_KEY)) {
        assert USERNAME_KEY in CREDENTIAL_KEYS;
      } else if !LooseEquals(Lookup(oldValue, PASSWORD_KEY), Lookup(value, PASSWORD_KEY)) {
        assert PASSWORD_KEY in CREDENTIAL_KEYS;
      } else if !LooseEquals(Lookup(oldValue, USERNAME_TEST_KEY), Lookup(value, USERNAME_TEST_KEY)) {
        assert USERNAME_TEST_KEY in CREDENTIAL_KEYS;
      } else {
        assert PASSWORD_TEST_KEY in CREDENTIAL_KEYS;
      }
    }
  }

  /** Changing anything but the four credential fields — test mode, cron time,
      the watermarks — leaves the token in place. */
  lemma OnlyCredentialsInvalidate(option: string, oldValue: map<string, Value>, value: map<string, Value>)
    requires forall k :: k in CREDENTIAL_KEYS ==> Lookup(oldValue, k) == Lookup(value, k)
    ensures !InvalidatesToken(option, oldValue, value)
  {
    forall k | k in CREDENTIAL_KEYS
      ensures LooseEquals(Lookup(oldValue, k), Lookup(value, k))
    {
    }
    assert USERNAME_KEY in CREDENTIAL_KEYS && PASSWORD_KEY in CREDENTIAL_KEYS;
    assert USERNAME_TEST_KEY in CREDENTIAL_KEYS && PASSWORD_TEST_KEY in CREDENTIAL_KEYS;
  }

  /** A new, non-numeric password drops the token. */
  lemma PasswordChangeInvalidates(oldValue: map<string, Value>, password: string, newPassword: string)
    requires Lookup(oldValue, PASSWORD_KEY) == Str(password)
    requires password != newPassword && !IsIntegerString(newPassword)
    ensures InvalidatesToken(OPTIONS_NAME, oldValue, oldValue[PASSWORD_KEY := Str(newPassword)])
  {
  }

  /** Under PHP's `!=`, two numeric passwords with the same value are not a
      change: "0123" replaced by "123" keeps the cached token. */
  lemma NumericPasswordsCompareAsNumbers(oldValue: map<string, Value>)
    requires Lookup(oldValue, PASSWORD_KEY) == Str("0123")
    ensures !InvalidatesToken(OPTIONS_NAME, oldValue, oldValue[PASSWORD_KEY := Str("123")])
  {
    var value := oldValue[PASSWORD_KEY := Str("123")];
    LeadingZeroIgnored();
    assert LooseEquals(Lookup(oldValue, PASSWORD_KEY), Lookup(value, PASSWORD_KEY));
    OnlyPasswordCompared(oldValue, value);
  }

  /** Numeric passwords beyond 64 bits are compared as text, so changing
      "12345678901234567890" to "12345678901234567891" drops the token. */
  lemma LongNumericPasswordChangeInvalidates(oldValue: map<string, Value>)
    requires Lookup(oldValue, PASSWORD_KEY) == Str("12345678901234567890")
    ensures InvalidatesToken(OPTIONS_NAME, oldValue, oldValue[PASSWORD_KEY := Str("12345678901234567891")])
  {
    var before := "12345678901234567890";
    var after := "12345678901234567891";
    assert AllDigits(before);
    TwentyDigitsOverflow(before);
    OverflowingNumericStringsCompareAsText(before, after);
    assert before[19] != after[19];
  }

  lemma LeadingZeroIgnored()
    ensures LooseEquals(Str("0123"), Str("123"))
  {
    assert AllDigits("0123") && AllDigits("123");
    assert DigitsValue("0123") == 123 by {
      assert "0123"[..3] == "012" && "012"[..2] == "01" && "01"[..1] == "0" && "0"[..0] == "";
    }
    assert DigitsValue("123") == 123 by {
      assert "123"[..2] == "12" && "12"[..1] == "1" && "1"[..0] == "";
    }
    DigitStringCast("0123");
    DigitStringCast("123");
  }

  lemma OnlyPasswordCompared(oldValue: map<string, Value>, value: map<string, Value>)
    requires forall k :: k != PASSWORD_KEY ==> Lookup(oldValue, k) == Lookup(value, k)
    requires LooseEquals(Lookup(oldValue, PASSWORD_KEY), Lookup(value, PASSWORD_KEY))
    ensures !CredentialsChanged(oldValue, value)
  {
    assert LooseEquals(Lookup(oldValue, USERNAME_KEY), Lookup(oldValue, USERNAME_KEY));
    assert LooseEquals(Lookup(oldValue, USERNAME_TEST_KEY), Lookup(oldValue, USERNAME_TEST_KEY));
    assert LooseEquals(Lookup(oldValue, PASSWORD_TEST_KEY), Lookup(oldValue, PASSWORD_TEST_KEY));
    assert Lookup(oldValue, USERNAME_KEY) == Lookup(value, USERNAME_KEY);
    assert Lookup(oldValue, USERNAME_TEST_KEY) == Lookup(value, USERNAME_TEST_KEY);
    assert Lookup(oldValue, PASSWORD_TEST_KEY) == Lookup(value, PASSWORD_TEST_KEY);
  }

  /** The settings write of a cron run, which WordPress reports to the same
      `updated_option` hook, never drops the token: it changes only watermarks
      of the row it re-read. */
  lemma CronWriteKeepsToken(settings: map<string, Value>, clock: int, stock: SyncScript, orders: SyncScript)
    ensures var r := CronRun(settings, clock, stock, orders);
            forall written :: SettingsWritten(written) in r.events ==>
              !InvalidatesToken(OPTIONS_NAME, settings + stock.edits + orders.edits, written)
  {
    var r := CronRun(settings, clock, stock, orders);
    if stock.outcome.Errored? || orders.outcome.Errored? {
      UncaughtErrorEndsRun(settings, clock, stock, orders);
      CountedEventsAbsent(r.events, Write);
    } else {
      SingleWrite(settings, clock, stock, orders);
      OnlyCredentialsInvalidate(OPTIONS_NAME, settings + stock.edits + orders.edits, r.settings);
      OnlyFinalRowWritten(settings, clock, stock, orders);
    }
  }

  /** Every write of a run without an `\Error` stores the run's final row. */
  lemma OnlyFinalRowWritten(settings: map<string, Value>, clock: int, stock: SyncScript, orders: SyncScript)
    requires !stock.outcome.Errored? && !orders.outcome.Errored?
    ensures var r := CronRun(settings, clock, stock, orders);
            forall written :: SettingsWritten(written) in r.events ==> written == r.settings
  {
    var r := CronRun(settings, clock, stock, orders);
    var a := SyncEvents(Stock, OptionDatetimeSync(settings, STOCK_SYNC_KEY, clock), stock.outcome);
    var b := SyncEvents(Orders, OptionDatetimeSync(settings, ORDER_SYNC_KEY, clock + stock.duration), orders.outcome);
    assert r.events == a + b || r.events == a + b + [SettingsWritten(r.settings)];
    assert forall e :: e in a + b ==> !e.SettingsWritten?;
  }

  /** No event of a kind appears when that kind is counted zero times. */
  lemma {:induction false} CountedEventsAbsent(events: seq<Event>, sel: Selector)
    requires Count(events, sel) == 0
    ensures forall e :: e in events ==> !Selects(sel, e)
  {
    if events != [] {
      CountedEventsAbsent(events[1..], sel);
      assert forall e :: e in events ==> e == events[0] || e in events[1..];
    }
  }

  // -----------------------------------------------------------------------
  // Shipping rates

  /** "Posti" is not a numeric string. */
  lemma PostiTypeIsPlain()
    ensures POSTI_TYPE != "" && !IsIntegerString(POSTI_TYPE)
  {
    assert TrimLeading(POSTI_TYPE) == POSTI_TYPE;
    assert Unsigned(POSTI_TYPE) == POSTI_TYPE;
    assert DigitRun(POSTI_TYPE) == [];
  }

  /** A cart item counts as Posti-sourced exactly when its warehouse meta is
      truthy (so neither "" nor "0") and its stock type is "Posti" or `true`. */
  lemma PostiItemRule(item: CartItem, warehouseOf: int -> Value, stockTypeOf: Value -> Value)
    ensures IsPostiItem(item, warehouseOf, stockTypeOf) <==>
              var warehouse := warehouseOf(item.productId);
              && warehouse != Null && warehouse != Bool(false) && warehouse != Int(0)
              && warehouse != Str("") && warehouse != Str("0")
              && (stockTypeOf(warehouse) == Str(POSTI_TYPE) || stockTypeOf(warehouse) == Bool(true))
  {
    PostiTypeIsPlain();
    LooseEqualsPlainString(stockTypeOf(warehouseOf(item.productId)), POSTI_TYPE);
  }

  /** The collected rates are exactly the input rates whose id contains the
      marker, ignoring case, and collecting commutes with concatenation, so the
      input order is kept. */
  lemma {:induction false} PostiRatesExactly<R>(rates: seq<RateEntry<R>>)
    ensures forall e :: e in PostiRates(rates) <==> e in rates && IsPostiRate(e.rateId)
    ensures |PostiRates(rates)| <= |rates|
  {
    if rates != [] {
      var init := rates[..|rates| - 1];
      PostiRatesExactly(init);
      assert rates == init + [rates[|rates| - 1]];
    }
  }

  lemma {:induction false} PostiRatesAppend<R>(a: seq<RateEntry<R>>, b: seq<RateEntry<R>>)
    ensures PostiRates(a + b) == PostiRates(a) + PostiRates(b)
  {
    if b != [] {
      var init := b[..|b| - 1];
      PostiRatesAppend(a, init);
      assert (a + b)[..|a + b| - 1] == a + init;
    } else {
      assert a + b == a;
    }
  }

  lemma MarkerIdIsPosti()
    ensures IsPostiRate("posti_shipping_method_a")
  {
    assert MatchesAt("posti_shipping_method_a", POSTI_METHOD, 0, true);
  }

  lemma UpperCaseIdIsPosti()
    ensures IsPostiRate("POSTI_SHIPPING_METHOD:3")
  {
    assert MatchesAt("POSTI_SHIPPING_METHOD:3", POSTI_METHOD, 0, true);
  }

  /** The examples: with a Posti item in the cart, of "posti_shipping_method_a"
      and "flat_rate" only the first is collected, and an upper-case id matches
      too; the filter's result is still the whole input. */
  lemma ShippingFilterExamples(r1: int, r2: int)
    ensures PostiRates([RateEntry("posti_shipping_method_a", r1), RateEntry("flat_rate", r2)]) ==
              [RateEntry("posti_shipping_method_a", r1)]
    ensures IsPostiRate("POSTI_SHIPPING_METHOD:3")
    ensures !IsPostiRate("flat_rate")
  {
    MarkerIdIsPosti();
    UpperCaseIdIsPosti();
    assert Stripos("flat_rate", POSTI_METHOD) == None;
    var rates := [RateEntry("posti_shipping_method_a", r1), RateEntry("flat_rate", r2)];
    assert rates[..1][..0] == [];
    assert PostiRates(rates[..1]) == [rates[0]];
    assert rates[..|rates| - 1] == rates[..1];
  }

  // -----------------------------------------------------------------------
  // Cron schedule

  /** `cron_time` stays as it was when the crontime setting is missing or
      falsy ("", "0", 0, null, false). */
  lemma CronTimeUnset(options: map<string, Value>, current: int)
    requires !Truthy(Lookup(options, CRONTIME_KEY))
    ensures CronTimeSetting(options, current) == current
  {
  }

  /** A non-zero crontime setting, stored as a 64-bit integer or as its
      decimal text, becomes `cron_time`. */
  lemma CronTimeFromSetting(options: map<string, Value>, current: int, n: int)
    requires INT_MIN <= n <= INT_MAX && n != 0
    requires Lookup(options, CRONTIME_KEY) == Str(IntToString(n)) || Lookup(options, CRONTIME_KEY) == Int(n)
    ensures CronTimeSetting(options, current) == n
  {
    if Lookup(options, CRONTIME_KEY) == Str(IntToString(n)) {
      IntToStringRoundTrip(n);
      IntToStringRoundTrip(0);
      assert IntToString(0) == "0";
      assert IntToString(n) != "0";
      assert Truthy(Str(IntToString(n)));
    }
  }

  /** A crontime setting given as text is cast by its leading integer: " 600",
      "+600" and "600s" all give 600; values beyond 64 bits saturate. */
  lemma CronTimeFromLeadingNumber(options: map<string, Value>, current: int,
                                  w: string, sign: string, d: string, rest: string)
    requires Lookup(options, CRONTIME_KEY) == Str(w + sign + d + rest)
    requires AllWhitespace(w) && (sign == "" || sign == "+" || sign == "-")
    requires |d| > 0 && AllDigits(d) && (rest == [] || !IsDigit(rest[0])) && DigitsValue(d) != 0
    ensures CronTimeSetting(options, current) ==
              Saturate(if sign == "-" then -(DigitsValue(d) as int) else DigitsValue(d))
  {
    LeadingIntegerCast(w, sign, d, rest);
    LeadingIntegerTruthy(w, sign, d, rest);
  }

  /** A crontime setting with no leading number, such as "ten", is truthy and
      casts to 0. */
  lemma CronTimeNonNumeric(options: map<string, Value>, current: int, text: string)
    requires Lookup(options, CRONTIME_KEY) == Str(text)
    requires |text| > 0 && !IsWhitespace(text[0]) && !IsSign(text[0]) && !IsDigit(text[0])
    ensures CronTimeSetting(options, current) == 0
  {
    assert TrimLeading(text) == text;
    assert DigitRun(text) == [];
  }
}
