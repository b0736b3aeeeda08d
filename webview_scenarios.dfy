/**
 * Lifetimes of the queue-page bridge, driven event by event from a fresh
 * component; each states the `notify` and callback calls it makes.
 */
module WebViewScenarios {
  import opened Wrappers
  import opened Preferences
  import opened WebView

  /** A freshly mounted component with the page-load timer armed. */
  method Mounted(config: Config, store: Store, now: int) returns (view: QueueFairWebView)
    ensures fresh(view) && view.Valid() && view.config == config
    ensures view.appState == ACTIVE && view.store == store
    ensures !view.passed && !view.unmounted && !view.showingBlank && view.subscribed
    ensures view.log == [] && view.deferred == [] && view.savedTimeout.Some?
    ensures view.passedLifetimeMinutes == if config.passedLifetimeMinutes.Some?
                                          then config.passedLifetimeMinutes.value else DEFAULT_PASSED_LIFETIME_MINUTES
  {
    view := new QueueFairWebView(config, ACTIVE, store, now);
    view.ComponentDidMount();
  }

  /**
   * The page never posts its startup marker: the page-load timer fires
   * after the default 30 seconds and reports ERROR.
   */
  method PageNeverRuns(config: Config, store: Store, t0: int) returns (log: seq<Event>)
    requires config.webViewTimeout.None?
    ensures log == [Notified(ERROR), OnError(PAGE_DID_NOT_RUN)]
  {
    var view := new QueueFairWebView(config, ACTIVE, store, t0);
    view.OnTimeOut(t0 + 30000);
    log := view.log;
  }

  /**
   * The startup marker disarms the page-load timer without any call, so
   * the timeout can no longer report.
   */
  method StartupDisarmsTimer(config: Config, store: Store, message: string,
                             parse: string -> PageJson, t0: int)
    returns (log: seq<Event>, armed: bool)
    requires IsStartupMarker(message) && RouteOf(message, parse).Ignored?
    ensures log == [] && !armed
  {
    var view := Mounted(config, store, t0);
    view.HandleMessage(message, parse, t0);
    log, armed := view.log, view.savedTimeout.Some?;
  }

  /**
   * A mounted component receives a pass: it is reported at once when due
   * now, and scheduled otherwise.
   */
  method ReceivedPass(config: Config, store: Store, message: string,
                      parse: string -> PageJson, t0: int)
    returns (view: QueueFairWebView)
    requires RouteOf(message, parse).Passing?
    ensures fresh(view) && view.Valid() && view.passed && !view.unmounted
    ensures view.appState == ACTIVE && view.subscribed
    ensures var r := RouteOf(message, parse);
            && view.log == (if WhenImmediate(r.when) then [Notified(PASS), OnPass(r.passType)] else [])
            && |view.deferred| == (if WhenImmediate(r.when) then 0 else 1)
  {
    view := Mounted(config, store, t0);
    view.HandleMessage(message, parse, t0);
  }

  /**
   * The bridge stamps a pass from the configured lifetime, not from its
   * defaulted copy: without a configured lifetime the stamp is NaN, so the
   * stored pass is still valid at any later instant, past the default 60
   * minutes included.
   */
  method PassWithoutLifetimeNeverExpires(config: Config, store: Store, message: string,
                                         parse: string -> PageJson, t0: int, t: int)
    returns (stored: Option<string>, defaultedLifetime: int)
    requires config.passedLifetimeMinutes.None? && RouteOf(message, parse).Passing?
    ensures stored == Some(RouteOf(message, parse).validation)
    ensures defaultedLifetime == DEFAULT_PASSED_LIFETIME_MINUTES
  {
    var view := Mounted(config, store, t0);
    view.HandleMessage(message, parse, t0);
    var key := PassKey(config.queue);
    assert Get(view.store, key) == Some(RouteOf(message, parse).validation);
    assert Get(view.store, ExpiresKey(key)) == Some(WrittenPassStamp(config, t0));
    stored := ValidEntry(view.store, key, t);
    defaultedLifetime := view.passedLifetimeMinutes;
  }

  /**
   * A pass due at once is reported, and going to the background afterwards
   * still abandons: the background handler does not look at `passed`.
   */
  method PassThenBackground(config: Config, store: Store, message: string,
                            parse: string -> PageJson, t0: int)
    returns (log: seq<Event>)
    requires RouteOf(message, parse).Passing? && WhenImmediate(RouteOf(message, parse).when)
    ensures log == [Notified(PASS), OnPass(RouteOf(message, parse).passType),
                    NavigateBlank, Notified(ABANDON), OnAbandon(BACKGROUND)]
  {
    var view := ReceivedPass(config, store, message, parse, t0);
    var asleep := IsAsleep("background");
    assert asleep;
    view.AppStateChanged("background");
    log := view.log;
  }

  /**
   * Once a pass was stored, unmounting abandons nothing, whether the pass
   * was reported at once or is still scheduled.
   */
  method UnmountAfterPass(config: Config, store: Store, message: string,
                          parse: string -> PageJson, t0: int)
    returns (log: seq<Event>, scheduled: nat)
    requires RouteOf(message, parse).Passing?
    ensures var r := RouteOf(message, parse);
            && log == (if WhenImmediate(r.when) then [Notified(PASS), OnPass(r.passType)] else [])
            && scheduled == (if WhenImmediate(r.when) then 0 else 1)
  {
    var view := ReceivedPass(config, store, message, parse, t0);
    view.ComponentWillUnmount();
    log, scheduled := view.log, |view.deferred|;
  }

  /**
   * A pass whose target lacks `qfqid` is reported as the error the missing
   * listener raises; nothing is stored and the component is not passed,
   * so unmounting then abandons.
   */
  method MarkerMissingThenUnmount(config: Config, store: Store, message: string,
                                  parse: string -> PageJson, t0: int)
    returns (log: seq<Event>, stored: Store)
    requires RouteOf(message, parse).MarkerMissing?
    ensures log == [Notified(ERROR), OnError(HANDLING_ERROR + LISTENER_TYPE_ERROR),
                    Notified(ABANDON), OnAbandon(UNMOUNT)]
    ensures stored == store
  {
    var view := Mounted(config, store, t0);
    view.HandleMessage(message, parse, t0);
    view.ComponentWillUnmount();
    log, stored := view.log, view.store;
  }
}
