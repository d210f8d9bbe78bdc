/**
  The plugin's `Core` class: the scheduled job that synchronises stock and
  orders with the Posti warehouse and advances one "last synced" watermark
  per resource, the settings hook that invalidates the cached API token when
  credentials change, the WooCommerce shipping-rate filter, the plugin-list
  link and the cron schedule it registers.
*/
module Core {
  import opened Wrappers
  import opened Php
  import opened Environment

  const OPTIONS_NAME: string := "posti_wh_options"
  const STOCK_SYNC_KEY: string := "posti_wh_field_stock_sync_dttm"
  const ORDER_SYNC_KEY: string := "posti_wh_field_order_sync_dttm"
  const USERNAME_KEY: string := "posti_wh_field_username"
  const PASSWORD_KEY: string := "posti_wh_field_password"
  const USERNAME_TEST_KEY: string := "posti_wh_field_username_test"
  const PASSWORD_TEST_KEY: string := "posti_wh_field_password_test"
  const CREDENTIAL_KEYS: seq<string> := [USERNAME_KEY, PASSWORD_KEY, USERNAME_TEST_KEY, PASSWORD_TEST_KEY]
  const CRONTIME_KEY: string := "posti_wh_field_crontime"
  const SCHEDULE_NAME: string := "posti_wh_time"
  const DEFAULT_CRON_TIME: int := 600
  /** "now -7 day", in seconds. */
  const WEEK: int := 7 * 24 * 60 * 60
  const PLUGIN_SLUG: string := "woocommerce-warehouse-plugin"
  const SETTINGS_PAGE: string := "options-general.php?page=posti_wh"
  const POSTI_METHOD: string := "posti_shipping_method"
  const POSTI_TYPE: string := "Posti"
  const ERROR_LEVEL: string := "error"

  // -----------------------------------------------------------------------
  // Watermarks and the cron run

  /** The settings key holding a resource's "synced until" timestamp. */
  function WatermarkKey(resource: Resource): string {
    match resource
    case Stock => STOCK_SYNC_KEY
    case Orders => ORDER_SYNC_KEY
  }

  /** `get_option_datetime_sync`: the stored watermark when it is set and not
      empty, otherwise the instant one week before `now`. The three clauses
      below determine the result: it is never empty, it is the stored value
      or the default, and a non-empty stored value wins. */
  function OptionDatetimeSync(options: map<string, Value>, option: string, now: int): (since: Value)
    ensures Truthy(since)
    ensures since == Lookup(options, option) || since == Time(now - WEEK)
    ensures Truthy(Lookup(options, option)) ==> since == Lookup(options, option)
  {
    if IsSet(options, option) && !Empty(options[option]) then options[option] else Time(now - WEEK)
  }

  /** The watermark a resource sync hands back: the instant read before the
      syncer was called, if the syncer returned true; `None` stands for `false`. */
  function NextSyncDttm(startedAt: int, outcome: SyncOutcome): Option<int> {
    if outcome == Returned(true) then Some(startedAt) else None
  }

  /** The calls one resource sync makes: the syncer, then the error log if it
      threw an `\Exception`. */
  function SyncEvents(resource: Resource, since: Value, outcome: SyncOutcome): seq<Event> {
    [SyncerCalled(resource, since)] + (if outcome.Threw? then [Logged(ERROR_LEVEL, outcome.message)] else [])
  }

  /** `$options[$key] = $next` when a watermark was handed back. */
  function WithWatermark(options: map<string, Value>, key: string, next: Option<int>): map<string, Value> {
    if next.Some? then options[key := Time(next.value)] else options
  }

  /** What a cron run leaves behind: the calls it made, the settings row and the clock. */
  datatype RunResult = RunResult(events: seq<Event>, settings: map<string, Value>, clock: int)

  /** One run of `posti_cronjob_callback`, starting with settings row
      `settings` at instant `clock`, with the syncers acting as `stock` and
      `orders` say. Both "since" values come from the row read at the start;
      the row is read again before the single write. An `\Error` from a
      syncer ends the run where it is thrown. */
  function CronRun(settings: map<string, Value>, clock: int, stock: SyncScript, orders: SyncScript): RunResult {
    var stockSince := OptionDatetimeSync(settings, STOCK_SYNC_KEY, clock);
    var stockEvents := SyncEvents(Stock, stockSince, stock.outcome);
    var orderStart := clock + stock.duration;
    if stock.outcome.Errored? then
      RunResult(stockEvents, settings + stock.edits, orderStart)
    else
      var orderSince := OptionDatetimeSync(settings, ORDER_SYNC_KEY, orderStart);
      var synced := stockEvents + SyncEvents(Orders, orderSince, orders.outcome);
      var reread := settings + stock.edits + orders.edits;
      var finished := orderStart + orders.duration;
      var nextStock := NextSyncDttm(clock, stock.outcome);
      var nextOrder := NextSyncDttm(orderStart, orders.outcome);
      if !orders.outcome.Errored? && (nextStock.Some? || nextOrder.Some?) then
        var written := WithWatermark(WithWatermark(reread, STOCK_SYNC_KEY, nextStock), ORDER_SYNC_KEY, nextOrder);
        RunResult(synced + [SettingsWritten(written)], written, finished)
      else
        RunResult(synced, reread, finished)
  }

  // -----------------------------------------------------------------------
  // Credentials

  /** The four credential comparisons of `after_settings_update`, with PHP's `!=`. */
  predicate CredentialsChanged(oldValue: map<string, Value>, value: map<string, Value>) {
    || !LooseEquals(Lookup(oldValue, USERNAME_KEY), Lookup(value, USERNAME_KEY))
    || !LooseEquals(Lookup(oldValue, PASSWORD_KEY), Lookup(value, PASSWORD_KEY))
    || !LooseEquals(Lookup(oldValue, USERNAME_TEST_KEY), Lookup(value, USERNAME_TEST_KEY))
    || !LooseEquals(Lookup(oldValue, PASSWORD_TEST_KEY), Lookup(value, PASSWORD_TEST_KEY))
  }

  /** Whether an `updated_option` notification deletes the cached token. */
  predicate InvalidatesToken(option: string, oldValue: map<string, Value>, value: map<string, Value>) {
    option == OPTIONS_NAME && CredentialsChanged(oldValue, value)
  }

  // -----------------------------------------------------------------------
  // Shipping rates

  /** A cart line; `get_id()` of its product. */
  datatype CartItem = CartItem(productId: int)

  /** One entry of the `$rates` array: its key and the rate object. */
  datatype RateEntry<R> = RateEntry(rateId: string, rate: R)

  /** A cart item is Posti-sourced when its `_posti_wh_warehouse` meta is
      truthy and the warehouse's stock type `==` "Posti". */
  predicate IsPostiItem(item: CartItem, warehouseOf: int -> Value, stockTypeOf: Value -> Value) {
    var warehouse := warehouseOf(item.productId);
    LooseEquals(stockTypeOf(warehouse), Str(POSTI_TYPE)) && Truthy(warehouse)
  }

  predicate IsPostiRate(rateId: string) {
    Stripos(rateId, POSTI_METHOD).Some?
  }

  /** The rates whose id contains the Posti shipping-method marker, in input order. */
  function PostiRates<R>(rates: seq<RateEntry<R>>): seq<RateEntry<R>> {
    if rates == [] then []
    else
      var last := rates[|rates| - 1];
      PostiRates(rates[..|rates| - 1]) + (if IsPostiRate(last.rateId) then [last] else [])
  }

  lemma PostiRatesExtend<R>(rates: seq<RateEntry<R>>, k: nat)
    requires k < |rates|
    ensures PostiRates(rates[..k + 1]) ==
              PostiRates(rates[..k]) + (if IsPostiRate(rates[k].rateId) then [rates[k]] else [])
  {
    assert rates[..k + 1][..k] == rates[..k];
  }

  // -----------------------------------------------------------------------
  // Plugin links and schedules

  /** The link `attach_plugin_links` adds, given WordPress's `admin_url`. */
  function SettingsLink(adminUrl: string -> string): string {
    "<a href=\"" + adminUrl(SETTINGS_PAGE) + "\">Settings</a>"
  }

  /** An entry of the `cron_schedules` array. */
  datatype Schedule = Schedule(interval: int, display: string)

  /** `cron_time` after `load_options` read `options`, when it was `current` before. */
  function CronTimeSetting(options: map<string, Value>, current: int): int {
    if IsSet(options, CRONTIME_KEY) && Truthy(options[CRONTIME_KEY]) then ToInt(options[CRONTIME_KEY]) else current
  }

  class Core {
    /** Seconds between two cron runs. */
    var cronTime: int

    /** `__construct`, as far as it concerns `cron_time`: 600 unless the settings say otherwise. */
    constructor (host: Host)
      ensures cronTime == CronTimeSetting(host.settings, DEFAULT_CRON_TIME)
    {
      cronTime := DEFAULT_CRON_TIME;
      new;
      LoadOptions(host);
    }

    /** The `cron_time` part of `load_options`. */
    method LoadOptions(host: Host)
      modifies this`cronTime
      ensures cronTime == CronTimeSetting(host.settings, old(cronTime))
    {
      var options := host.GetPluginSettings();
      if IsSet(options, CRONTIME_KEY) && Truthy(options[CRONTIME_KEY]) {
        cronTime := ToInt(options[CRONTIME_KEY]);
      }
    }

    /** `posti_interval`: registers the `posti_wh_time` schedule, every `cronTime` seconds. */
    function PostiInterval(schedules: map<string, Schedule>): (r: map<string, Schedule>)
      reads this
      ensures r.Keys == schedules.Keys + {SCHEDULE_NAME}
      ensures r[SCHEDULE_NAME].interval == cronTime
      ensures forall k :: k in schedules && k != SCHEDULE_NAME ==> r[k] == schedules[k]
    {
      schedules[SCHEDULE_NAME := Schedule(cronTime, "Every " + IntToString(cronTime) + " seconds")]
    }

    /** `attach_plugin_links`: puts the settings link first in the plugin's own row. */
    method AttachPluginLinks(actions: seq<(Key, string)>, file: string, adminUrl: string -> string)
      returns (result: seq<(Key, string)>)
      ensures Strpos(file, PLUGIN_SLUG).Some? ==> result == ArrayUnshift(actions, SettingsLink(adminUrl))
      ensures Strpos(file, PLUGIN_SLUG).None? ==> result == actions
    {
      result := actions;
      if Strpos(file, PLUGIN_SLUG).Some? {
        var settingsLink := SettingsLink(adminUrl);
        result := ArrayUnshift(result, settingsLink);
      }
    }

    /** `after_settings_update`: when the plugin's credentials change, forget the
        cached token and ask the admin screen to fetch a new one. */
    method AfterSettingsUpdate(host: Host, option: string, oldValue: map<string, Value>, value: map<string, Value>)
      modifies host`apiAuth, host`checkToken
      ensures InvalidatesToken(option, oldValue, value) ==> host.apiAuth == None && host.checkToken
      ensures !InvalidatesToken(option, oldValue, value) ==>
                host.apiAuth == old(host.apiAuth) && host.checkToken == old(host.checkToken)
    {
      if option == OPTIONS_NAME {
        if CredentialsChanged(oldValue, value) {
          host.DeleteApiAuth();
          host.FlagTokenCheck();
        }
      }
    }

    /** `posti_cronjob_sync_stock` / `posti_cronjob_sync_orders`: syncs one
        resource since its watermark in `options`; hands back the instant read
        before the syncer ran when it returned true; logs and swallows an
        `\Exception`. An `\Error` passes through: `escaped` reports it. */
    method SyncResource(host: Host, options: map<string, Value>, resource: Resource, script: SyncScript)
      returns (next: Option<int>, escaped: bool)
      modifies host`clock, host`settings, host`events
      ensures escaped <==> script.outcome.Errored?
      ensures next == NextSyncDttm(old(host.clock), script.outcome)
      ensures host.clock == old(host.clock) + script.duration
      ensures host.settings == old(host.settings) + script.edits
      ensures host.events == old(host.events) +
                SyncEvents(resource, OptionDatetimeSync(options, WatermarkKey(resource), old(host.clock)), script.outcome)
    {
      var now := host.Now();
      var since := OptionDatetimeSync(options, WatermarkKey(resource), now);
      var nextSyncDttm := host.Now();
      var outcome := host.Sync(resource, since, script);
      match outcome {
        case Returned(synced) =>
          next := if synced then Some(nextSyncDttm) else None;
        case Threw(message) =>
          host.Log(ERROR_LEVEL, message);
          next := None;
        case Errored =>
          next := None;
      }
      escaped := outcome.Errored?;
    }

    /** `posti_cronjob_callback`: syncs stock, then orders, and writes back the
        watermarks of those that succeeded, in one settings update. An
        `\Error` escaping a sync ends the callback there. */
    method CronjobCallback(host: Host, stock: SyncScript, orders: SyncScript)
      modifies host`clock, host`settings, host`events
      ensures var r := CronRun(old(host.settings), old(host.clock), stock, orders);
              host.events == old(host.events) + r.events && host.settings == r.settings && host.clock == r.clock
    {
      var options := host.GetPluginSettings();
      var nextStockSyncDttm, stockEscaped := SyncResource(host, options, Stock, stock);
      if stockEscaped {
        return;
      }
      var nextOrderSyncDttm, ordersEscaped := SyncResource(host, options, Orders, orders);
      if ordersEscaped {
        return;
      }

      if nextStockSyncDttm.Some? || nextOrderSyncDttm.Some? {
        var newOptions := host.GetPluginSettings();
        if nextStockSyncDttm.Some? {
          newOptions := newOptions[STOCK_SYNC_KEY := Time(nextStockSyncDttm.value)];
        }
        if nextOrderSyncDttm.Some? {
          newOptions := newOptions[ORDER_SYNC_KEY := Time(nextOrderSyncDttm.value)];
        }
        host.UpdatePluginSettings(newOptions);
      }
    }

    /** `hide_other_shipping_if_posti_products`: decides whether the cart holds a
        Posti-sourced item and, if so, collects the Posti rates — then returns
        `rates` untouched. The collected rates are handed out as `postiRates`
        only so that their content can be stated. */
    method HideOtherShippingIfPostiProducts<R>(
      items: seq<CartItem>, warehouseOf: int -> Value, stockTypeOf: Value -> Value, rates: seq<RateEntry<R>>)
      returns (result: seq<RateEntry<R>>, hideOther: bool, postiRates: seq<RateEntry<R>>)
      ensures hideOther <==> exists i :: 0 <= i < |items| && IsPostiItem(items[i], warehouseOf, stockTypeOf)
      ensures postiRates == if hideOther then PostiRates(rates) else []
      ensures result == rates
    {
      hideOther := false;
      var i := 0;
      while i < |items|
        invariant 0 <= i <= |items|
        invariant !hideOther
        invariant forall j :: 0 <= j < i ==> !IsPostiItem(items[j], warehouseOf, stockTypeOf)
      {
        var productWarehouse := warehouseOf(items[i].productId);
        var stockType := stockTypeOf(productWarehouse);
        if LooseEquals(stockType, Str(POSTI_TYPE)) && Truthy(productWarehouse) {
          hideOther := true;
          break;
        }
        i := i + 1;
      }

      postiRates := [];
      if hideOther {
        var k := 0;
        while k < |rates|
          invariant 0 <= k <= |rates|
          invariant postiRates == PostiRates(rates[..k])
        {
          PostiRatesExtend(rates, k);
          if Stripos(rates[k].rateId, POSTI_METHOD).Some? {
            postiRates := postiRates + [rates[k]];
          }
          k := k + 1;
        }
        assert rates[..|rates|] == rates;
      }
      result := rates;
    }
  }
}
