/**
 * The queue-page bridge (class QueueFairWebView): shows the queue page,
 * reads the text messages the page posts, stores the pass the page hands
 * over, and reports ERROR, PASS and ABANDON outcomes (each through `notify`
 * and then the matching callback) as well as joins.
 *
 * Each event the component receives (construction, the page-load timer
 * firing, a page message, a deferred pass timer firing, mount, unmount, an
 * app-state change) is a method. Calls to `notify`, the callbacks and the
 * scripts injected into the page are appended to `log`.
 */
module WebView {
  import opened Wrappers
  import opened JsString
  import opened JsNumber
  import opened Preferences
  import opened QueryString

  const PAGE_HOST: string := ".queue-fair.net/"
  const PAGE_FLAGS: string := "qfreact=true&qfnoredirect=true"
  const STARTUP_MARKER: string := "QF Queue Script Starting."
  const JOIN: string := "JOIN"
  const REDIRECT: string := "REDIRECT"
  const PASS_MARKER: string := "qfpt"
  const VALIDATION_MARKER: string := "qfqid"
  const PAGE_DID_NOT_RUN: string := "Queue page did not run."
  const UNPARSABLE: string := "Queue output could not be parsed."
  const BAD_JSON: string := "Bad json."
  const INVALID_TARGET: string := "Invalid target from queue."
  const HANDLING_ERROR: string := "Error handling queue: "
  /**
   * `String(e)` for the TypeError raised when `storeValidation` reaches for
   * the missing `listener` (the wording is the JavaScript engine's).
   */
  const LISTENER_TYPE_ERROR: string := "TypeError: Cannot read property 'onError' of undefined"
  const UNMOUNT: string := "Unmount"
  const BACKGROUND: string := "Background"
  const ACTIVE: string := "active"
  const DEFAULT_PASSED_LIFETIME_MINUTES: int := 60
  const DEFAULT_WEBVIEW_TIMEOUT: int := 30

  /** The configuration object; `None` is a property left undefined. */
  datatype Config = Config(
    account: string,
    queue: string,
    variant: Option<string>,
    extra: Option<string>,
    passedLifetimeMinutes: Option<int>,
    webViewTimeout: Option<int>)

  /** The outcomes passed to `notify`. */
  datatype Outcome = ERROR | PASS | ABANDON | NOINTERNET

  /**
   * What `JSON.parse` made of a message's `{...}` span: it threw, it gave
   * null, or it gave a value whose properties are read (absent ones `None`;
   * `request` is the property's string form).
   */
  datatype PageJson =
    | Unparsable
    | NullJson
    | Object(request: Option<string>, target: Option<string>, passType: Option<string>, when: Option<int>)

  /** `notify`, the callbacks, and the navigations injected into the page. */
  datatype Event =
    | Notified(what: Outcome)
    | OnError(detail: string)
    | OnJoin(request: Option<string>)
    | OnAbandon(cause: string)
    | OnPass(passType: Option<string>)
    | NavigateBlank
    | Reload(url: string)

  /** An `onPass` scheduled by a pass message, due at `due`. */
  datatype DeferredPass = DeferredPass(due: int, passType: Option<string>)

  /** A JavaScript truthiness test on an optional string property. */
  predicate Truthy(v: Option<string>) {
    v.Some? && v.value != ""
  }

  /** `name + value + '&'` when the property is set, nothing otherwise. */
  function TagParam(name: string, v: Option<string>): string {
    if Truthy(v) then name + v.value + "&" else ""
  }

  /** The queue page shown for a configuration. */
  function QueuePageUrl(config: Config): string {
    "https://" + config.account + PAGE_HOST + config.queue + "?"
      + TagParam("qfv=", config.variant) + TagParam("qfx=", config.extra) + PAGE_FLAGS
  }

  /**
   * The queue page is the account's page for the queue; its parameters are
   * the variant and the extra (each only when set), then always the two
   * React Native flags.
   */
  lemma QueuePageUrlLayout(config: Config)
    requires '?' !in config.account && '?' !in config.queue
    requires Truthy(config.variant) ==> '&' !in config.variant.value
    requires Truthy(config.extra) ==> '&' !in config.extra.value
    ensures Path(QueuePageUrl(config)) == "https://" + config.account + PAGE_HOST + config.queue
    ensures Params(QueuePageUrl(config))
         == (if Truthy(config.variant) then ["qfv=" + config.variant.value] else [])
          + (if Truthy(config.extra) then ["qfx=" + config.extra.value] else [])
          + ["qfreact=true", "qfnoredirect=true"]
  {
    var path := "https://" + config.account + PAGE_HOST + config.queue;
    NoMarkIn(["https://", config.account, PAGE_HOST, config.queue], '?');
    assert QueuePageUrl(config) == path + "?" + PageQuery(config);
    UrlParts(path, PageQuery(config));
    PageQueryParams(config);
  }

  /** The query part of the queue page URL. */
  function PageQuery(config: Config): string {
    TagParam("qfv=", config.variant) + (TagParam("qfx=", config.extra) + PAGE_FLAGS)
  }

  lemma PageQueryParams(config: Config)
    requires Truthy(config.variant) ==> '&' !in config.variant.value
    requires Truthy(config.extra) ==> '&' !in config.extra.value
    ensures Split(PageQuery(config), '&')
         == (if Truthy(config.variant) then ["qfv=" + config.variant.value] else [])
          + (if Truthy(config.extra) then ["qfx=" + config.extra.value] else [])
          + ["qfreact=true", "qfnoredirect=true"]
  {
    TagsThenRest("qfv=", config.variant, "qfx=", config.extra, PAGE_FLAGS);
    FlagParams();
  }

  /** The query parameter a tag contributes: one when the property is set, none otherwise. */
  function TagList(name: string, v: Option<string>): seq<string> {
    if Truthy(v) then [name + v.value] else []
  }

  /** Two tags are parameters of their own, ahead of the rest. */
  lemma TagsThenRest(nameV: string, variant: Option<string>, nameX: string, extra: Option<string>, rest: string)
    requires '&' !in nameV && '&' !in nameX
    requires Truthy(variant) ==> '&' !in variant.value
    requires Truthy(extra) ==> '&' !in extra.value
    ensures Split(TagParam(nameV, variant) + (TagParam(nameX, extra) + rest), '&')
         == TagList(nameV, variant) + TagList(nameX, extra) + Split(rest, '&')
  {
    var rest' := TagParam(nameX, extra) + rest;
    TagParams(nameX, extra, rest);
    TagParams(nameV, variant, rest');
    SeqAssoc(TagList(nameV, variant), TagList(nameX, extra), Split(rest, '&'));
  }

  lemma SeqAssoc(a: seq<string>, b: seq<string>, c: seq<string>)
    ensures a + (b + c) == a + b + c
  {
  }

  /** The two React Native flags are two parameters. */
  lemma FlagParams()
    ensures Split(PAGE_FLAGS, '&') == ["qfreact=true", "qfnoredirect=true"]
  {
    var react, noRedirect := "qfreact=true", "qfnoredirect=true";
    assert PAGE_FLAGS == react + ['&'] + noRedirect;
    SplitTwo(react, '&', noRedirect);
  }

  /** A set tag is one parameter ahead of the rest; an unset one adds none. */
  lemma TagParams(name: string, v: Option<string>, rest: string)
    requires '&' !in name && (Truthy(v) ==> '&' !in v.value)
    ensures Split(TagParam(name, v) + rest, '&') == TagList(name, v) + Split(rest, '&')
  {
    if Truthy(v) {
      NoMarkIn([name, v.value], '&');
      assert TagParam(name, v) + rest == (name + v.value) + ['&'] + rest;
      SplitAfterPiece(name + v.value, '&', rest);
    } else {
      assert TagParam(name, v) + rest == rest;
    }
  }

  /**
   * The variant and the extra are not encoded: a variant holding `&qfx=`
   * produces the very page URL of a shorter variant with a separate extra.
   */
  lemma TagsAreNotEncoded(account: string, queue: string, v: string, x: string,
                          lifetime: Option<int>, timeout: Option<int>)
    requires v != "" && x != ""
    ensures QueuePageUrl(Config(account, queue, Some(v + "&qfx=" + x), None, lifetime, timeout))
         == QueuePageUrl(Config(account, queue, Some(v), Some(x), lifetime, timeout))
  {
    var base := "https://" + account + PAGE_HOST + queue + "?";
    assert QueuePageUrl(Config(account, queue, Some(v + "&qfx=" + x), None, lifetime, timeout))
        == base + ("qfv=" + (v + "&qfx=" + x) + "&") + PAGE_FLAGS;
    assert ("qfv=" + (v + "&qfx=" + x) + "&") == ("qfv=" + v + "&") + ("qfx=" + x + "&");
  }

  /** The page has started: the message begins with the startup marker. */
  function IsStartupMarker(message: string): (r: bool)
    ensures r <==> OccursAt(message, STARTUP_MARKER, 0)
  {
    IndexOfZero(message, STARTUP_MARKER);
    IndexOf(message, STARTUP_MARKER) == 0
  }

  /** `state.match(/inactive|background/)`. */
  function IsAsleep(state: string): (r: bool)
    ensures r <==> Contains(state, "inactive") || Contains(state, "background")
  {
    IndexOf(state, "inactive") != -1 || IndexOf(state, "background") != -1
  }

  /** 'active' is not a sleeping state, so waking and sleeping never coincide. */
  lemma ActiveIsAwake()
    ensures !IsAsleep(ACTIVE)
  {
  }

  /**
   * The text handed to JSON.parse: from the first `{` through the last `}`
   * (`substring` swaps the ends when the last `}` comes first, and takes
   * everything before the `{` when there is no `}`).
   */
  function Span(message: string): (r: string)
    requires '{' in message
    ensures forall i, j :: IsFirst(message, '{', i) && IsLast(message, '}', j) ==>
              r == (if i <= j then message[i..j + 1] else message[j + 1..i])
    ensures '}' !in message ==> forall i :: IsFirst(message, '{', i) ==> r == message[..i]
  {
    IndexOfChar(message, '{');
    LastIndexOfChar(message, '}');
    var i := IndexOf(message, "{");
    var j := LastIndexOf(message, "}");
    Substring(message, i, j + 1)
  }

  /**
   * The validation held in a pass target: the suffix from the last `qfqid`
   * on; nothing when the marker is absent.
   */
  function ValidationSuffix(target: string): (r: Option<string>)
    ensures r.None? <==> !Contains(target, VALIDATION_MARKER)
    ensures r.Some? ==> |r.value| <= |target| && r.value == target[|target| - |r.value|..]
    ensures r.Some? ==> OccursAt(r.value, VALIDATION_MARKER, 0)
    ensures r.Some? ==> forall j :: 0 < j ==> !OccursAt(r.value, VALIDATION_MARKER, j)
  {
    var i := LastIndexOf(target, VALIDATION_MARKER);
    if i == -1 then None
    else
      OccursInSuffix(target, VALIDATION_MARKER, i);
      assert target[i..][0..|VALIDATION_MARKER|] == target[i..i + |VALIDATION_MARKER|];
      Some(target[i..])
  }

  /**
   * The pass stamp as `storeValidation` writes it: from the configured
   * lifetime, not the component's defaulted copy, so a configuration
   * without one stamps NaN, and the pass never expires (see
   * `LifetimeFinding`).
   */
  function WrittenPassStamp(config: Config, now: int): (r: string)
    ensures config.passedLifetimeMinutes.Some? ==>
              ParseNumber(r) == Some(now + config.passedLifetimeMinutes.value * 60000)
    ensures config.passedLifetimeMinutes.None? ==> forall t :: ExpiryValid(Some(r), t)
  {
    var r := ExpiryStamp(now, config.passedLifetimeMinutes, 60000);
    if config.passedLifetimeMinutes.None? then
      assert forall t :: ExpiryValid(Some(r), t) by {
        forall t ensures ExpiryValid(Some(r), t) {
          NaNStampNeverExpires(now, 60000, t);
        }
      }
      r
    else r
  }

  /**
   * The pass stamp evidently intended: from the component's lifetime, which
   * defaults to 60 minutes.
   */
  function PassStamp(lifetimeMinutes: int, now: int): (r: string)
    ensures ParseNumber(r) == Some(now + lifetimeMinutes * 60000)
  {
    ExpiryStamp(now, Some(lifetimeMinutes), 60000)
  }

  /**
   * Without a configured lifetime the stamp as written is NaN, so the pass is
   * still valid after the default 60 minutes the component's field holds;
   * the stamp from that field is valid up to then and expired just after.
   */
  lemma LifetimeFinding(config: Config, now: int)
    requires config.passedLifetimeMinutes.None?
    ensures ExpiryValid(Some(WrittenPassStamp(config, now)), now + DEFAULT_PASSED_LIFETIME_MINUTES * 60000 + 1)
    ensures ExpiryValid(Some(PassStamp(DEFAULT_PASSED_LIFETIME_MINUTES, now)), now + DEFAULT_PASSED_LIFETIME_MINUTES * 60000)
    ensures !ExpiryValid(Some(PassStamp(DEFAULT_PASSED_LIFETIME_MINUTES, now)), now + DEFAULT_PASSED_LIFETIME_MINUTES * 60000 + 1)
  {
    StampedEntryWindow(now, DEFAULT_PASSED_LIFETIME_MINUTES, 60000, now + DEFAULT_PASSED_LIFETIME_MINUTES * 60000);
    StampedEntryWindow(now, DEFAULT_PASSED_LIFETIME_MINUTES, 60000, now + DEFAULT_PASSED_LIFETIME_MINUTES * 60000 + 1);
  }

  /**
   * The intended stamp gives every pass a finite window: valid up to and
   * including `now + lifetime*60000`, expired from the next millisecond.
   */
  lemma PassStampWindow(lifetimeMinutes: int, now: int, t: int)
    ensures ExpiryValid(Some(PassStamp(lifetimeMinutes, now)), t) <==> t <= now + lifetimeMinutes * 60000
    ensures Expired(Some(PassStamp(lifetimeMinutes, now)), t) <==> t > now + lifetimeMinutes * 60000
  {
    StampedEntryWindow(now, lifetimeMinutes, 60000, t);
  }

  /** How `handleMessage` disposes of a message. */
  datatype Route =
    | Ignored
    | ParseFailed
    | BadJson
    | Join(request: Option<string>)
    | RedirectWithoutPass
    | InvalidTarget
    | MarkerMissing
    | Passing(validation: string, passType: Option<string>, when: Option<int>)

  /**
   * The dispatch of a message whose `{...}` span was parsed into `json`: a
   * `JOIN` anywhere in the message wins over `REDIRECT`; a redirect needs
   * `qfpt`, a target, and a `qfqid` in the target to pass.
   */
  function JsonRoute(message: string, json: PageJson): (r: Route)
    ensures !r.Ignored?
    ensures r.ParseFailed? <==> json.Unparsable?
    ensures r.BadJson? <==> json.NullJson?
    ensures r.Join? <==> json.Object? && Contains(message, JOIN)
    ensures r.Join? ==> r.request == json.request
    ensures r.RedirectWithoutPass? <==> json.Object? && !Contains(message, JOIN) && !Contains(message, PASS_MARKER)
    ensures r.InvalidTarget? <==>
              json.Object? && !Contains(message, JOIN) && Contains(message, PASS_MARKER) && json.target.None?
    ensures r.MarkerMissing? <==>
              json.Object? && !Contains(message, JOIN) && Contains(message, PASS_MARKER) && json.target.Some?
              && !Contains(json.target.value, VALIDATION_MARKER)
    ensures r.Passing? ==>
              && json.Object? && !Contains(message, JOIN) && Contains(message, PASS_MARKER)
              && json.target.Some? && ValidationSuffix(json.target.value) == Some(r.validation)
              && r.passType == json.passType && r.when == json.when
  {
    match json
    case Unparsable => ParseFailed
    case NullJson => BadJson
    case Object(request, target, passType, when) =>
      if IndexOf(message, JOIN) != -1 then Join(request)
      else if IndexOf(message, PASS_MARKER) == -1 then RedirectWithoutPass
      else if target.None? then InvalidTarget
      else PassRoute(target.value, passType, when)
  }

  /** The route of a redirect with `qfpt` and a target. */
  function PassRoute(target: string, passType: Option<string>, when: Option<int>): (r: Route)
    ensures r.MarkerMissing? || r.Passing?
  {
    match ValidationSuffix(target)
    case None => MarkerMissing
    case Some(v) => Passing(v, passType, when)
  }

  /**
   * A redirect with `qfpt` and a target passes exactly when the target holds
   * `qfqid`, carrying the target's suffix that starts at its last `qfqid`
   * together with the message's `type` and `when`.
   */
  lemma PassRouteMeaning(target: string, passType: Option<string>, when: Option<int>)
    ensures var r := PassRoute(target, passType, when);
            && (r.MarkerMissing? <==> !Contains(target, VALIDATION_MARKER))
            && (r.Passing? ==>
                  && OccursAt(r.validation, VALIDATION_MARKER, 0)
                  && |r.validation| <= |target| && r.validation == target[|target| - |r.validation|..]
                  && (forall j :: 0 < j ==> !OccursAt(r.validation, VALIDATION_MARKER, j))
                  && r.passType == passType && r.when == when)
  {
  }

  /**
   * The dispatch of a message: without `{`, or with neither `REDIRECT` nor
   * `JOIN`, it is ignored; otherwise its span is parsed and dispatched.
   */
  function RouteOf(message: string, parse: string -> PageJson): (r: Route)
    ensures r.Ignored? <==> '{' !in message || (!Contains(message, REDIRECT) && !Contains(message, JOIN))
    ensures !r.Ignored? ==> '{' in message && r == JsonRoute(message, parse(Span(message)))
  {
    IndexOfChar(message, '{');
    if IndexOf(message, "{") == -1 then Ignored
    else if IndexOf(message, REDIRECT) == -1 && IndexOf(message, JOIN) == -1 then Ignored
    else JsonRoute(message, parse(Span(message)))
  }

  /** `when <= 0`: the pass is reported at once (an absent `when` compares false). */
  predicate WhenImmediate(when: Option<int>) {
    when.Some? && when.value <= 0
  }

  /** The delay `setTimeout` applies to a deferred pass; an absent `when` is 0. */
  function WhenDelay(when: Option<int>): nat {
    if when.Some? then TimerDelay(when.value) else 0
  }

  /** `n` is the `notify` that announces callback `c`. */
  predicate Announces(n: Event, c: Event) {
    || (n == Notified(ERROR) && c.OnError?)
    || (n == Notified(PASS) && c.OnPass?)
    || (n == Notified(ABANDON) && c.OnAbandon?)
  }

  /**
   * The `notify` and callback calls a message causes. Every outcome but a
   * join is announced through `notify` just before its callback; a join
   * never notifies; only a pass reports onPass, and only while mounted.
   */
  function MessageEvents(r: Route, unmounted: bool): (events: seq<Event>)
    ensures events == [] || (r.Join? && events == [OnJoin(r.request)])
         || (|events| == 2 && Announces(events[0], events[1]))
    ensures (r.Ignored? || r.RedirectWithoutPass?) ==> events == []
  {
    match r
    case Ignored => []
    case RedirectWithoutPass => []
    case ParseFailed => Announced(Notified(ERROR), OnError(UNPARSABLE))
    case BadJson => Announced(Notified(ERROR), OnError(BAD_JSON))
    case Join(request) => [OnJoin(request)]
    case InvalidTarget => Announced(Notified(ERROR), OnError(INVALID_TARGET))
    case MarkerMissing => Announced(Notified(ERROR), OnError(HANDLING_ERROR + LISTENER_TYPE_ERROR))
    case Passing(_, passType, when) =>
      if unmounted || !WhenImmediate(when) then [] else Announced(Notified(PASS), OnPass(passType))
  }

  /**
   * The message reaches `notify`: every outcome but an ignored message, a
   * redirect without a pass and a join, except a pass while unmounted or
   * not yet due.
   */
  predicate Notifies(r: Route, unmounted: bool) {
    match r
    case Ignored => false
    case RedirectWithoutPass => false
    case Join(_) => false
    case Passing(_, _, when) => !unmounted && WhenImmediate(when)
    case _ => true
  }

  /**
   * A message notifies at most once, exactly when `Notifies` says so, and
   * calls `onPass` only for a pass that is due while mounted.
   */
  lemma MessageCounts(r: Route, unmounted: bool)
    ensures Notifications(MessageEvents(r, unmounted)) == (if Notifies(r, unmounted) then 1 else 0)
    ensures Passes(MessageEvents(r, unmounted)) == (if r.Passing? && Notifies(r, unmounted) then 1 else 0)
  {
    var events := MessageEvents(r, unmounted);
    if r.Join? {
      assert events[..0] == [];
    }
  }

  /** A `notify` followed by a callback, with what each adds to the counts. */
  function Announced(n: Event, c: Event): (events: seq<Event>)
    ensures events == [n, c]
    ensures Notifications(events) == (if n.Notified? then 1 else 0) + (if c.Notified? then 1 else 0)
    ensures Passes(events) == (if n.OnPass? then 1 else 0) + (if c.OnPass? then 1 else 0)
  {
    CountsAppend([n], [c]);
    [n] + [c]
  }

  /** What a redirect's pass route reports, schedules and notifies. */
  lemma PassRouteEffects(target: string, passType: Option<string>, when: Option<int>, unmounted: bool, now: int)
    ensures var r := PassRoute(target, passType, when);
            var due := !unmounted && WhenImmediate(when);
            && MessageEvents(r, unmounted)
               == (if r.MarkerMissing? then [Notified(ERROR), OnError(HANDLING_ERROR + LISTENER_TYPE_ERROR)]
                   else if due then [Notified(PASS), OnPass(passType)] else [])
            && Scheduled(r, unmounted, now)
               == (if r.MarkerMissing? || unmounted || WhenImmediate(when) then []
                   else [DeferredPass(now + WhenDelay(when), passType)])
            && Notifies(r, unmounted) == (r.MarkerMissing? || due)
  {
    var r := PassRoute(target, passType, when);
    if r.Passing? {
      assert r == Passing(r.validation, passType, when);
    } else {
      assert r == MarkerMissing;
    }
  }

  /**
   * The errors a parsed message reports, each announced by ERROR: a span
   * JSON.parse rejects, a null, a redirect with `qfpt` but no target, and
   * a target without `qfqid`; a join only calls onJoin, and a redirect
   * without `qfpt` makes no call.
   */
  lemma MessageErrors(message: string, json: PageJson, unmounted: bool)
    ensures var events := MessageEvents(JsonRoute(message, json), unmounted);
            && (json.Unparsable? ==> events == [Notified(ERROR), OnError(UNPARSABLE)])
            && (json.NullJson? ==> events == [Notified(ERROR), OnError(BAD_JSON)])
            && (json.Object? && Contains(message, JOIN) ==> events == [OnJoin(json.request)])
            && (json.Object? && !Contains(message, JOIN) && !Contains(message, PASS_MARKER) ==> events == [])
            && (json.Object? && !Contains(message, JOIN) && Contains(message, PASS_MARKER) && json.target.None? ==>
                  events == [Notified(ERROR), OnError(INVALID_TARGET)])
            && (json.Object? && !Contains(message, JOIN) && Contains(message, PASS_MARKER) && json.target.Some?
                && !Contains(json.target.value, VALIDATION_MARKER) ==>
                  events == [Notified(ERROR), OnError(HANDLING_ERROR + LISTENER_TYPE_ERROR)])
  {
  }

  /**
   * A pass a mounted component defers (its `when` is not `<= 0`) is due
   * `when` ms later, or at once when `when` is absent; a negative delay
   * never reaches the timer.
   */
  lemma ScheduledDue(r: Route, unmounted: bool, now: int)
    requires r.Passing? && !unmounted && !WhenImmediate(r.when)
    ensures r.when.Some? ==> (r.when.value > 0
                              && Scheduled(r, unmounted, now) == [DeferredPass(now + r.when.value, r.passType)])
    ensures r.when.None? ==> Scheduled(r, unmounted, now) == [DeferredPass(now, r.passType)]
  {
  }

  /** The `onPass` a message schedules: a pass while mounted whose `when` is not `<= 0`. */
  function Scheduled(r: Route, unmounted: bool, now: int): seq<DeferredPass> {
    if r.Passing? && !unmounted && !WhenImmediate(r.when)
    then [DeferredPass(now + WhenDelay(r.when), r.passType)] else []
  }

  /** The number of `notify` calls in a log. */
  function Notifications(log: seq<Event>): nat {
    if log == [] then 0
    else Notifications(log[..|log| - 1]) + (if log[|log| - 1].Notified? then 1 else 0)
  }

  /** The number of `onPass` calls in a log. */
  function Passes(log: seq<Event>): nat {
    if log == [] then 0
    else Passes(log[..|log| - 1]) + (if log[|log| - 1].OnPass? then 1 else 0)
  }

  /** How appending events changes both counts. */
  lemma CountsAppend(log: seq<Event>, more: seq<Event>)
    ensures Notifications(log + more) == Notifications(log) + Notifications(more)
    ensures Passes(log + more) == Passes(log) + Passes(more)
    decreases |more|
  {
    if more == [] {
      assert log + more == log;
    } else {
      var init := more[..|more| - 1];
      CountsAppend(log, init);
      assert (log + more)[..|log + more| - 1] == log + init;
    }
  }

  /** The constructor's successive appends that build the queue page URL. */
  method BuildPageUrl(config: Config) returns (url: string)
    ensures url == QueuePageUrl(config)
  {
    var base := "https://" + config.account + PAGE_HOST + config.queue + "?";
    url := base;
    if Truthy(config.variant) {
      url := url + "qfv=" + config.variant.value + "&";
    }
    assert url == base + TagParam("qfv=", config.variant);
    if Truthy(config.extra) {
      url := url + "qfx=" + config.extra.value + "&";
    }
    assert url == base + TagParam("qfv=", config.variant) + TagParam("qfx=", config.extra);
    url := url + PAGE_FLAGS;
  }

  class QueueFairWebView {
    const config: Config
    /** The queue page URL. */
    const location: string
    const passedLifetimeMinutes: int
    const webViewTimeout: int
    var passed: bool
    var unmounted: bool
    var showingBlank: bool
    /** When the page-load timer is due, while it is armed. */
    var savedTimeout: Option<int>
    var appState: string
    /** Whether the app-state listener is registered. */
    var subscribed: bool
    var deferred: seq<DeferredPass>
    var store: Store
    var log: seq<Event>

    /**
     * A pass is reported or scheduled only after its validation was stored:
     * the pass entry then starts with `qfqid`. While the page-load timer is
     * armed nothing has been notified (every `notify` disarms it).
     */
    ghost predicate Valid()
      reads this
    {
      && (unmounted ==> !subscribed)
      && (savedTimeout.Some? ==> Notifications(log) == 0)
      && (|deferred| > 0 ==> passed)
      && (!passed ==> Passes(log) == 0)
      && (passed ==> PassKey(config.queue) in store
                     && OccursAt(store[PassKey(config.queue)], VALIDATION_MARKER, 0))
    }

    /**
     * Takes the configured lifetime and timeout (defaults 60 and 30), builds
     * the queue page URL by successive appends, and arms the page-load timer.
     */
    constructor (config: Config, appState: string, store: Store, now: int)
      ensures Valid()
      ensures this.config == config && this.appState == appState && this.store == store
      ensures passedLifetimeMinutes == if config.passedLifetimeMinutes.Some?
                                       then config.passedLifetimeMinutes.value else DEFAULT_PASSED_LIFETIME_MINUTES
      ensures webViewTimeout == if config.webViewTimeout.Some?
                                then config.webViewTimeout.value else DEFAULT_WEBVIEW_TIMEOUT
      ensures location == QueuePageUrl(config)
      ensures savedTimeout == Some(now + TimerDelay(webViewTimeout * 1000))
      ensures !passed && !unmounted && !showingBlank && !subscribed && deferred == [] && log == []
    {
      this.config := config;
      this.appState := appState;
      this.store := store;
      passedLifetimeMinutes := if config.passedLifetimeMinutes.Some?
                               then config.passedLifetimeMinutes.value else DEFAULT_PASSED_LIFETIME_MINUTES;
      var timeout := if config.webViewTimeout.Some? then config.webViewTimeout.value else DEFAULT_WEBVIEW_TIMEOUT;
      webViewTimeout := timeout;
      var url := BuildPageUrl(config);
      location := url;
      passed, unmounted, showingBlank := false, false, false;
      savedTimeout := Some(now + TimerDelay(timeout * 1000));
      subscribed := false;
      deferred := [];
      log := [];
    }

    /** `notify(what)`: disarms the page-load timer and records the outcome. */
    method Notify(what: Outcome)
      modifies this`savedTimeout, this`log
      ensures savedTimeout.None? && log == old(log) + [Notified(what)]
      ensures Notifications(log) == Notifications(old(log)) + 1 && Passes(log) == Passes(old(log))
    {
      if savedTimeout.Some? {
        savedTimeout := None;
      }
      CountsAppend(log, [Notified(what)]);
      log := log + [Notified(what)];
    }

    /** `notify(what)` and then the callback that reports the outcome. */
    method Announce(what: Outcome, callback: Event)
      modifies this`savedTimeout, this`log
      ensures savedTimeout.None? && log == old(log) + Announced(Notified(what), callback)
      ensures Notifications(log) == Notifications(old(log)) + Notifications(Announced(Notified(what), callback))
      ensures Passes(log) == Passes(old(log)) + Passes(Announced(Notified(what), callback))
    {
      ghost var before := log;
      Notify(what);
      log := log + [callback];
      assert log == before + Announced(Notified(what), callback);
      CountsAppend(before, Announced(Notified(what), callback));
    }

    /** The page-load timer fires: ERROR, with 'Queue page did not run.'. */
    method OnTimeOut(now: int)
      requires Valid() && savedTimeout.Some? && savedTimeout.value <= now
      modifies this`savedTimeout, this`log
      ensures Valid() && savedTimeout.None?
      ensures log == old(log) + [Notified(ERROR), OnError(PAGE_DID_NOT_RUN)]
    {
      savedTimeout := None;
      ReportError(PAGE_DID_NOT_RUN);
    }

    /** `notify(ERROR)` and then `onError(detail)`. */
    method ReportError(detail: string)
      requires Valid()
      modifies this`savedTimeout, this`log
      ensures Valid() && savedTimeout.None?
      ensures log == old(log) + [Notified(ERROR), OnError(detail)]
    {
      Announce(ERROR, OnError(detail));
    }

    /** Mounting registers the app-state listener. */
    method ComponentDidMount()
      requires Valid()
      modifies this`unmounted, this`subscribed
      ensures Valid() && !unmounted && subscribed
    {
      unmounted := false;
      subscribed := true;
    }

    /** Unmounting removes the listener and abandons, unless a pass was received. */
    method ComponentWillUnmount()
      requires Valid() && subscribed
      modifies this`unmounted, this`subscribed, this`savedTimeout, this`log
      ensures Valid() && unmounted && !subscribed
      ensures log == old(log) + (if passed then [] else [Notified(ABANDON), OnAbandon(UNMOUNT)])
      ensures savedTimeout == if passed then old(savedTimeout) else None
    {
      unmounted := true;
      subscribed := false;
      if !passed {
        Announce(ABANDON, OnAbandon(UNMOUNT));
      }
    }

    /**
     * The app changes state. Coming back to 'active' from a sleeping state
     * reloads the queue page if it was blanked; going to sleep from 'active'
     * blanks the page and abandons, whether or not a pass was received.
     */
    method AppStateChanged(next: string)
      requires Valid() && subscribed
      modifies this`showingBlank, this`savedTimeout, this`log, this`appState
      ensures Valid() && appState == next
      ensures var wake := IsAsleep(old(appState)) && next == ACTIVE;
              var sleep := IsAsleep(next) && old(appState) == ACTIVE;
              && log == old(log) + (if wake && old(showingBlank) then [Reload(location)] else [])
                                 + (if sleep then [NavigateBlank, Notified(ABANDON), OnAbandon(BACKGROUND)] else [])
              && showingBlank == (old(showingBlank) || sleep)
              && savedTimeout == (if sleep then None else old(savedTimeout))
    {
      if IsAsleep(appState) && next == ACTIVE {
        if showingBlank {
          CountsAppend(log, [Reload(location)]);
          log := log + [Reload(location)];
        }
      }
      if IsAsleep(next) && appState == ACTIVE {
        WentToBackground();
      }
      appState := next;
    }

    /** Going to the background: blank the page, then ABANDON with 'Background'. */
    method WentToBackground()
      requires Valid()
      modifies this`showingBlank, this`savedTimeout, this`log
      ensures Valid() && showingBlank && savedTimeout.None?
      ensures log == old(log) + [NavigateBlank, Notified(ABANDON), OnAbandon(BACKGROUND)]
    {
      showingBlank := true;
      ghost var before := log;
      CountsAppend(log, [NavigateBlank]);
      log := log + [NavigateBlank];
      Announce(ABANDON, OnAbandon(BACKGROUND));
      assert log == before + [NavigateBlank] + [Notified(ABANDON), OnAbandon(BACKGROUND)];
    }

    /**
     * `storeValidation`: stores the suffix of `target` from the last
     * `qfqid` under the queue's pass key, stamped from the configured
     * lifetime (`WrittenPassStamp`). Without the marker it throws (`stored`
     * is false) and stores nothing.
     */
    method StoreValidation(target: string, now: int) returns (stored: bool)
      requires Valid()
      modifies this`store
      ensures Valid()
      ensures stored ==> PassKey(config.queue) in store
                         && OccursAt(store[PassKey(config.queue)], VALIDATION_MARKER, 0)
      ensures stored == ValidationSuffix(target).Some?
      ensures stored ==> store == Write(old(store), PassKey(config.queue), ValidationSuffix(target).value,
                                        WrittenPassStamp(config, now))
      ensures !stored ==> store == old(store)
    {
      var i := LastIndexOf(target, VALIDATION_MARKER);
      if i == -1 {
        return false;
      }
      var validation := target[i..];
      store := store[PassKey(config.queue) := validation];
      store := store[ExpiresKey(PassKey(config.queue)) := WrittenPassStamp(config, now)];
      return true;
    }

    /**
     * `handleMessage`: disarms the page-load timer on the startup marker
     * (only while it is armed), drops a message without `{` or without
     * `REDIRECT` and `JOIN`, and hands the rest to `HandleJson`.
     */
    method HandleMessage(message: string, parse: string -> PageJson, now: int)
      requires Valid()
      modifies this`savedTimeout, this`store, this`passed, this`deferred, this`log
      ensures Valid()
      ensures var r := RouteOf(message, parse);
              && log == old(log) + MessageEvents(r, unmounted)
              && passed == (old(passed) || r.Passing?)
              && (r.Join? ==> store == old(store)[REQUEST_KEY := StringOf(r.request)])
              && (r.Passing? ==> store == Write(old(store), PassKey(config.queue), r.validation,
                                                WrittenPassStamp(config, now)))
              && (!r.Join? && !r.Passing? ==> store == old(store))
              && deferred == old(deferred) + Scheduled(r, unmounted, now)
              && savedTimeout == (if (old(savedTimeout).Some? && IsStartupMarker(message))
                                     || Notifies(r, unmounted)
                                  then None else old(savedTimeout))
    {
      if savedTimeout.Some? && IsStartupMarker(message) {
        savedTimeout := None;
      }
      IndexOfChar(message, '{');
      var i := IndexOf(message, "{");
      if i == -1 {
        return;
      }
      if IndexOf(message, REDIRECT) == -1 && IndexOf(message, JOIN) == -1 {
        return;
      }
      HandleJson(message, parse(Span(message)), now);
    }

    /**
     * The `try` block of `handleMessage`, once the span was parsed into
     * `json`: reports a parse failure or null, records a join, ignores a
     * redirect without `qfpt`, reports a missing target, stores the pass
     * (the `catch` reports the throw when the target lacks `qfqid`), and
     * then reports or schedules it.
     */
    method HandleJson(message: string, json: PageJson, now: int)
      requires Valid()
      modifies this`savedTimeout, this`store, this`passed, this`deferred, this`log
      ensures Valid()
      ensures var r := JsonRoute(message, json);
              && log == old(log) + MessageEvents(r, unmounted)
              && passed == (old(passed) || r.Passing?)
              && (r.Join? ==> store == old(store)[REQUEST_KEY := StringOf(r.request)])
              && (r.Passing? ==> store == Write(old(store), PassKey(config.queue), r.validation,
                                                WrittenPassStamp(config, now)))
              && (!r.Join? && !r.Passing? ==> store == old(store))
              && deferred == old(deferred) + Scheduled(r, unmounted, now)
              && savedTimeout == (if Notifies(r, unmounted) then None else old(savedTimeout))
    {
      ghost var r := JsonRoute(message, json);
      if json.Unparsable? {
        assert r == ParseFailed;
        ReportError(UNPARSABLE);
        return;
      }
      if json.NullJson? {
        assert r == BadJson;
        ReportError(BAD_JSON);
        return;
      }
      if IndexOf(message, JOIN) != -1 {
        assert r == Join(json.request);
        RecordJoin(json.request);
        return;
      }
      HandleRedirect(message, json, now);
    }

    /** A JOIN: the request number is kept under its key and `onJoin` is called. */
    method RecordJoin(request: Option<string>)
      requires Valid()
      modifies this`store, this`log
      ensures Valid()
      ensures store == old(store)[REQUEST_KEY := StringOf(request)]
      ensures log == old(log) + [OnJoin(request)]
    {
      KeysDistinct(config.account, config.queue);
      store := store[REQUEST_KEY := StringOf(request)];
      CountsAppend(log, [OnJoin(request)]);
      log := log + [OnJoin(request)];
    }

    /**
     * A parsed redirect: ignored without `qfpt`; a missing target is
     * reported; otherwise the pass is stored (the `catch` reports the throw
     * when the target lacks `qfqid`) and then reported or scheduled.
     */
    method HandleRedirect(message: string, json: PageJson, now: int)
      requires Valid() && json.Object? && !Contains(message, JOIN)
      modifies this`savedTimeout, this`store, this`passed, this`deferred, this`log
      ensures Valid()
      ensures var r := JsonRoute(message, json);
              && log == old(log) + MessageEvents(r, unmounted)
              && passed == (old(passed) || r.Passing?)
              && (r.Passing? ==> store == Write(old(store), PassKey(config.queue), r.validation,
                                                WrittenPassStamp(config, now)))
              && (!r.Passing? ==> store == old(store))
              && deferred == old(deferred) + Scheduled(r, unmounted, now)
              && savedTimeout == (if Notifies(r, unmounted) then None else old(savedTimeout))
    {
      ghost var r := JsonRoute(message, json);
      if IndexOf(message, PASS_MARKER) == -1 {
        assert r == RedirectWithoutPass;
        assert MessageEvents(r, unmounted) == [] && Scheduled(r, unmounted, now) == [];
        return;
      }
      if json.target.None? {
        assert r == InvalidTarget;
        ReportError(INVALID_TARGET);
        return;
      }
      assert r == PassRoute(json.target.value, json.passType, json.when);
      PassRouteEffects(json.target.value, json.passType, json.when, unmounted, now);
      AcceptPass(json.target.value, json.passType, json.when, now);
    }

    /**
     * Lines up the pass of a redirect: stores the validation (the `catch`
     * reports the throw when the target lacks `qfqid`), then reports or
     * schedules the pass.
     */
    method AcceptPass(target: string, passType: Option<string>, when: Option<int>, now: int)
      requires Valid()
      modifies this`savedTimeout, this`store, this`passed, this`deferred, this`log
      ensures Valid()
      ensures ValidationSuffix(target).None? ==>
                && store == old(store) && passed == old(passed) && deferred == old(deferred)
                && log == old(log) + [Notified(ERROR), OnError(HANDLING_ERROR + LISTENER_TYPE_ERROR)]
                && savedTimeout.None?
      ensures ValidationSuffix(target).Some? ==>
                && store == Write(old(store), PassKey(config.queue), ValidationSuffix(target).value,
                                  WrittenPassStamp(config, now))
                && passed
                && log == old(log) + (if unmounted || !WhenImmediate(when) then [] else [Notified(PASS), OnPass(passType)])
                && deferred == old(deferred)
                     + (if unmounted || WhenImmediate(when) then [] else [DeferredPass(now + WhenDelay(when), passType)])
                && savedTimeout == if unmounted || !WhenImmediate(when) then old(savedTimeout) else None
    {
      var stored := StoreValidation(target, now);
      if !stored {
        ReportError(HANDLING_ERROR + LISTENER_TYPE_ERROR);
        return;
      }
      Passed(passType, when, now);
    }

    /**
     * A pass was stored: `passed` is set; no callback while unmounted; at
     * once when `when <= 0`; otherwise scheduled `when` ms later.
     */
    method Passed(passType: Option<string>, when: Option<int>, now: int)
      requires Valid()
      requires PassKey(config.queue) in store && OccursAt(store[PassKey(config.queue)], VALIDATION_MARKER, 0)
      modifies this`passed, this`deferred, this`savedTimeout, this`log
      ensures Valid() && passed
      ensures log == old(log) + (if unmounted || !WhenImmediate(when) then [] else [Notified(PASS), OnPass(passType)])
      ensures deferred == old(deferred)
                + (if unmounted || WhenImmediate(when) then [] else [DeferredPass(now + WhenDelay(when), passType)])
      ensures savedTimeout == if unmounted || !WhenImmediate(when) then old(savedTimeout) else None
    {
      passed := true;
      if unmounted {
        return;
      }
      if WhenImmediate(when) {
        Announce(PASS, OnPass(passType));
        return;
      }
      deferred := deferred + [DeferredPass(now + WhenDelay(when), passType)];
    }

    /**
     * The timer of the `k`th scheduled pass fires: PASS and onPass, mounted
     * or not.
     */
    method PassTimerFired(k: nat, now: int)
      requires Valid() && k < |deferred| && deferred[k].due <= now
      modifies this`deferred, this`savedTimeout, this`log
      ensures Valid() && savedTimeout.None?
      ensures deferred == old(deferred[..k] + deferred[k + 1..])
      ensures log == old(log) + [Notified(PASS), OnPass(old(deferred[k].passType))]
    {
      var passType := deferred[k].passType;
      deferred := deferred[..k] + deferred[k + 1..];
      Announce(PASS, OnPass(passType));
    }
  }
}
