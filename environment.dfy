/**
  The collaborators that `Core` talks to, reduced to what it observes of
  them: the `posti_wh_options` settings row, the cached-token option
  `posti_wh_api_auth`, the session flag that asks the admin screen to check
  the token, the wall clock, the logger and the two syncers
  (`Product::sync`, `Order::sync`). The syncers are not modelled: each call
  follows a `SyncScript` given by the caller of the model. The calls to the
  syncers, the logger and the settings writer are recorded, in order, in
  `Host.events`; the token option and the session flag are fields of their
  own.
*/
module Environment {
  import opened Wrappers
  import opened Php

  /** The two resources the cron job synchronises, in the order it runs them. */
  datatype Resource = Stock | Orders

  /** What a syncer call ends with: a returned bool, an `\Exception` (which
      `Core` catches), or an `\Error` such as a `TypeError` (which it does not
      catch, so it ends the cron run). */
  datatype SyncOutcome = Returned(synced: bool) | Threw(message: string) | Errored

  /** One call of a syncer as its environment sees it: it runs for `duration`
      seconds, meanwhile stores `edits` into the settings row (its own writes,
      or anyone else's during that time), and ends with `outcome`. */
  datatype SyncScript = SyncScript(duration: nat, edits: map<string, Value>, outcome: SyncOutcome)

  /** A call with an effect, as recorded by the host. */
  datatype Event =
    | SyncerCalled(resource: Resource, since: Value)
    | Logged(level: string, message: string)
    | SettingsWritten(options: map<string, Value>)

  class Host {
    /** The `posti_wh_options` row, as `Settings::get_plugin_settings` returns it. */
    var settings: map<string, Value>
    /** The `posti_wh_api_auth` option holding the cached token; `None` once deleted. */
    var apiAuth: Option<Value>
    /** Whether `$_SESSION['posti_warehouse_check_token']` is set. */
    var checkToken: bool
    /** The current time, in seconds. */
    var clock: int
    /** Calls with an effect, oldest first. */
    var events: seq<Event>

    constructor (settings: map<string, Value>, apiAuth: Option<Value>, clock: int)
      ensures this.settings == settings && this.apiAuth == apiAuth && this.clock == clock
      ensures !checkToken && events == []
    {
      this.settings := settings;
      this.apiAuth := apiAuth;
      this.checkToken := false;
      this.clock := clock;
      this.events := [];
    }

    /** `Settings::get_plugin_settings()`. */
    method GetPluginSettings() returns (options: map<string, Value>)
      ensures options == settings
    {
      options := settings;
    }

    /** `Settings::update_plugin_settings($options)`: replaces the row. */
    method UpdatePluginSettings(options: map<string, Value>)
      modifies this`settings, this`events
      ensures settings == options
      ensures events == old(events) + [SettingsWritten(options)]
    {
      settings := options;
      events := events + [SettingsWritten(options)];
    }

    /** `new \DateTime()`: the current instant. */
    method Now() returns (t: int)
      ensures t == clock
    {
      t := clock;
    }

    /** `$this->product->sync($since)` or `$this->order->sync($since)`, acting as `script` says. */
    method Sync(resource: Resource, since: Value, script: SyncScript) returns (outcome: SyncOutcome)
      modifies this`clock, this`settings, this`events
      ensures outcome == script.outcome
      ensures clock == old(clock) + script.duration
      ensures settings == old(settings) + script.edits
      ensures events == old(events) + [SyncerCalled(resource, since)]
    {
      events := events + [SyncerCalled(resource, since)];
      settings := settings + script.edits;
      clock := clock + script.duration;
      outcome := script.outcome;
    }

    /** `$this->logger->log($level, $message)`. */
    method Log(level: string, message: string)
      modifies this`events
      ensures events == old(events) + [Logged(level, message)]
    {
      events := events + [Logged(level, message)];
    }

    /** `delete_option('posti_wh_api_auth')`. */
    method DeleteApiAuth()
      modifies this`apiAuth
      ensures apiAuth == None
    {
      apiAuth := None;
    }

    /** `$_SESSION['posti_warehouse_check_token'] = true`. */
    method FlagTokenCheck()
      modifies this`checkToken
      ensures checkToken
    {
      checkToken := true;
    }
  }
}
