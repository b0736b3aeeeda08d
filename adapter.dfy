/**
 * The admission session controller (class QueueFairAdapter): reads the
 * cached identity, then the cached pass, then consults the Queue-Fair
 * adapter endpoint, and reports the result to its listener through
 * onNoInternet, onError, onShow or onPass.
 *
 * Every asynchronous continuation of the source (a store read completing,
 * the fetch completing or failing, the read timer firing) is a method of its
 * own; `stage` records which continuation is pending. The listener calls and
 * the fetch request are appended to `log`.
 */
module Adapter {
  import opened Wrappers
  import opened JsString
  import opened JsNumber
  import opened Preferences
  import opened QueryString

  const ADAPTER_HOST: string := ".queue-fair.net/adapter/"
  /** `encodeURIComponent('QUEUE-FAIR REACT NATIVE ADAPTER')`. */
  const IDENTIFIER: string := "QUEUE-FAIR%20REACT%20NATIVE%20ADAPTER"
  const SEND_TO_QUEUE: string := "SendToQueue"
  const REPASS: string := "Repass"
  const NO_JSON_ERROR: string := "Did not receive JSON response - is your config correct?"
  const NULL_RESULT_ERROR: string := "Null result from Adapter"
  const NO_ACTION_ERROR: string := "Result from Adapter has no action."
  /** The rejection the promise chain carries when `gotAdapter` throws. */
  const GOT_ADAPTER_THREW: string := "exception thrown by gotAdapter"
  const DEFAULT_READ_TIMEOUT: int := 5
  const DEFAULT_PASSED_LIFETIME_MINUTES: int := 60

  /** The configuration object; `None` is a property left undefined. */
  datatype Config = Config(
    account: string,
    queue: string,
    readTimeout: Option<int>,
    passedLifetimeMinutes: Option<int>,
    showingQueue: bool,
    debug: bool)

  /**
   * What `JSON.parse` made of the adapter's reply: it threw, it gave null, or
   * it gave a value whose properties are read (absent ones are `None`);
   * `cookieSeconds` is `Number(json.cookieSeconds)`, `None` when NaN.
   */
  datatype ParsedReply =
    | Unparsable
    | NullReply
    | Reply(uid: Option<string>, cookieSeconds: Option<int>, action: Option<string>, validation: Option<string>)

  /** The fetch of the consult URL, and the four listener callbacks. */
  datatype Event = Consult(url: string) | NoInternet | Error(detail: string) | Show | Pass(passType: string)

  /** The continuation that is pending. */
  datatype Stage = Idle | ReadingUid | ReadingPass | Consulting | Done

  /**
   * The uid held in a stored identity value: what follows the first `:`, or
   * the first `=` when there is no `:`; nothing when there is neither.
   */
  function UidFromPreference(p: string): (r: Option<string>)
    ensures r.None? <==> ':' !in p && '=' !in p
    ensures forall i :: IsFirst(p, ':', i) ==> r == Some(p[i + 1..])
    ensures ':' !in p ==> forall i :: IsFirst(p, '=', i) ==> r == Some(p[i + 1..])
  {
    IndexOfChar(p, ':');
    IndexOfChar(p, '=');
    var i := IndexOf(p, ":");
    var j := if i == -1 then IndexOf(p, "=") else i;
    if j == -1 then None else Some(p[j + 1..])
  }

  /** A uid stored as `'u:' + x` reads back as `x`, whatever `x` contains. */
  lemma UidRoundTrip(x: string)
    ensures UidFromPreference("u:" + x) == Some(x)
  {
    var p := "u:" + x;
    assert IsFirst(p, ':', 1);
    assert p[2..] == x;
  }

  /** The adapter endpoint consulted for `account`, `queue` and the known uid. */
  function ConsultUrl(account: string, queue: string, uid: Option<string>): string {
    "https://" + account + ADAPTER_HOST + queue + "?"
      + (if uid.Some? then "uid=" + uid.value + "&" else "")
      + "identifier=" + IDENTIFIER
  }

  /**
   * The consult URL addresses the account's adapter for the queue; its
   * parameters are the uid when one is known, and then always the client
   * identifier, last.
   */
  lemma ConsultUrlLayout(account: string, queue: string, uid: Option<string>)
    requires '?' !in account && '?' !in queue
    requires uid.Some? ==> '&' !in uid.value
    ensures Path(ConsultUrl(account, queue, uid)) == "https://" + account + ADAPTER_HOST + queue
    ensures Params(ConsultUrl(account, queue, uid))
         == (if uid.Some? then ["uid=" + uid.value] else []) + ["identifier=" + IDENTIFIER]
  {
    var path := "https://" + account + ADAPTER_HOST + queue;
    var query := ConsultQuery(uid);
    NoMarkIn(["https://", account, ADAPTER_HOST, queue], '?');
    assert ConsultUrl(account, queue, uid) == path + "?" + query;
    UrlParts(path, query);
    ConsultQueryParams(uid);
  }

  /** The query part of the consult URL. */
  function ConsultQuery(uid: Option<string>): string {
    (if uid.Some? then "uid=" + uid.value + "&" else "") + "identifier=" + IDENTIFIER
  }

  lemma ConsultQueryParams(uid: Option<string>)
    requires uid.Some? ==> '&' !in uid.value
    ensures Split(ConsultQuery(uid), '&')
         == (if uid.Some? then ["uid=" + uid.value] else []) + ["identifier=" + IDENTIFIER]
  {
    var last := "identifier=" + IDENTIFIER;
    NoMarkIn(["identifier=", IDENTIFIER], '&');
    SplitFree(last, '&');
    if uid.Some? {
      var first := "uid=" + uid.value;
      NoMarkIn(["uid=", uid.value], '&');
      assert ConsultQuery(uid) == first + ['&'] + last;
      SplitAfterPiece(first, '&', last);
      assert Split(ConsultQuery(uid), '&') == [first] + [last];
    } else {
      assert ConsultQuery(uid) == last;
    }
  }

  /** The reply guard of `gotAdapter`: the body has a `{` and does not start with `<`. */
  function IsJsonLike(body: string): (r: bool)
    ensures r <==> '{' in body && !(|body| > 0 && body[0] == '<')
  {
    IndexOfChar(body, '{');
    IndexOfChar(body, '<');
    !(IndexOf(body, "{") == -1 || IndexOf(body, "<") == 0)
  }

  /** The reply carries a uid and a different one is already known. */
  predicate UidMismatch(known: Option<string>, replyUid: Option<string>) {
    replyUid.Some? && known.Some? && known.value != replyUid.value
  }

  /** The uid step of `gotAdapter`: a reply's uid is stored only when none was known. */
  function StoreUid(store: Store, account: string, known: Option<string>,
                    replyUid: Option<string>, cookieSeconds: Option<int>, now: int): Store
  {
    if replyUid.Some? && known.None? then
      Write(store, StoreKey(account), "u:" + replyUid.value, ExpiryStamp(now, cookieSeconds, 1000))
    else store
  }

  /** The store after a reply, the callbacks it fires, and whether an exception escaped. */
  datatype ReplyOutcome = ReplyOutcome(store: Store, events: seq<Event>, threw: bool)

  /**
   * What `gotAdapter` does with a reply body: `parsed` is what JSON.parse made
   * of it and `decode` is decodeURIComponent (`None` when it throws).
   * A reply fires exactly one callback unless an exception escaped, and then none.
   */
  function ReplyEffect(store: Store, config: Config, known: Option<string>,
                       lifetimeMinutes: int, body: string, parsed: ParsedReply,
                       decode: string -> Option<string>, now: int): (r: ReplyOutcome)
    ensures |r.events| == (if r.threw then 0 else 1)
    ensures forall e :: e in r.events ==> e.Error? || e.Show? || e.Pass?
    ensures r.threw ==> IsJsonLike(body) && !parsed.NullReply?
  {
    if !IsJsonLike(body) then ReplyOutcome(store, [Error(NO_JSON_ERROR)], false)
    else match parsed
      case Unparsable => ReplyOutcome(store, [], true)
      case NullReply => ReplyOutcome(store, [Error(NULL_RESULT_ERROR)], false)
      case Reply(replyUid, cookieSeconds, action, validation) =>
        if UidMismatch(known, replyUid) && config.debug then ReplyOutcome(store, [], true)
        else
        var s := StoreUid(store, config.account, known, replyUid, cookieSeconds, now);
        if action.None? then ReplyOutcome(s, [Error(NO_ACTION_ERROR)], false)
        else if action.value == SEND_TO_QUEUE then ReplyOutcome(s, [Show], false)
        else match decode(StringOf(validation))
          case None => ReplyOutcome(s, [], true)
          case Some(v) =>
            ReplyOutcome(Write(s, PassKey(config.queue), v, ExpiryStamp(now, Some(lifetimeMinutes), 60000)),
                         [Pass(action.value)], false)
  }

  /**
   * The error paths of a reply: a body that is not JSON-like, or that parses
   * to null, reports onError with the store untouched; a reply without an
   * action reports onError after the uid step, leaving the pass entry alone;
   * a body JSON.parse rejects throws with no callback and nothing stored.
   */
  lemma ReplyErrors(store: Store, config: Config, known: Option<string>,
                    lifetimeMinutes: int, body: string, parsed: ParsedReply,
                    decode: string -> Option<string>, now: int)
    ensures var e := ReplyEffect(store, config, known, lifetimeMinutes, body, parsed, decode, now);
            && (!IsJsonLike(body) ==> e == ReplyOutcome(store, [Error(NO_JSON_ERROR)], false))
            && (IsJsonLike(body) && parsed.Unparsable? ==> e == ReplyOutcome(store, [], true))
            && (IsJsonLike(body) && parsed.NullReply? ==> e == ReplyOutcome(store, [Error(NULL_RESULT_ERROR)], false))
            && (IsJsonLike(body) && parsed.Reply? && parsed.action.None? && !(UidMismatch(known, parsed.uid) && config.debug) ==>
                  && e.events == [Error(NO_ACTION_ERROR)] && !e.threw
                  && e.store == StoreUid(store, config.account, known, parsed.uid, parsed.cookieSeconds, now)
                  && Get(e.store, PassKey(config.queue)) == Get(store, PassKey(config.queue))
                  && Get(e.store, ExpiresKey(PassKey(config.queue))) == Get(store, ExpiresKey(PassKey(config.queue))))
  {
    KeysDistinct(config.account, config.queue);
  }

  /** 'SendToQueue' shows the queue and leaves the pass entry alone. */
  lemma SendToQueueWritesNoPass(store: Store, config: Config, known: Option<string>,
                                lifetimeMinutes: int, body: string, parsed: ParsedReply,
                                decode: string -> Option<string>, now: int)
    requires IsJsonLike(body) && parsed.Reply? && parsed.action == Some(SEND_TO_QUEUE)
    requires !(UidMismatch(known, parsed.uid) && config.debug)
    ensures var e := ReplyEffect(store, config, known, lifetimeMinutes, body, parsed, decode, now);
            && e.events == [Show]
            && Get(e.store, PassKey(config.queue)) == Get(store, PassKey(config.queue))
            && Get(e.store, ExpiresKey(PassKey(config.queue))) == Get(store, ExpiresKey(PassKey(config.queue)))
  {
    KeysDistinct(config.account, config.queue);
  }

  /**
   * Any other action passes: the decoded validation is cached under the
   * queue's pass key, valid until `now + lifetimeMinutes * 60000` inclusive,
   * and onPass receives the action.
   */
  lemma ProceedCachesPass(store: Store, config: Config, known: Option<string>,
                          lifetimeMinutes: int, body: string, parsed: ParsedReply,
                          decode: string -> Option<string>, now: int, t: int)
    requires IsJsonLike(body) && parsed.Reply? && parsed.action.Some?
    requires parsed.action.value != SEND_TO_QUEUE
    requires !(UidMismatch(known, parsed.uid) && config.debug)
    requires decode(StringOf(parsed.validation)).Some?
    ensures var e := ReplyEffect(store, config, known, lifetimeMinutes, body, parsed, decode, now);
            && e.events == [Pass(parsed.action.value)]
            && Get(e.store, PassKey(config.queue)) == decode(StringOf(parsed.validation))
            && (ExpiryValid(Get(e.store, ExpiresKey(PassKey(config.queue))), t) <==> t <= now + lifetimeMinutes * 60000)
  {
    StampedEntryWindow(now, lifetimeMinutes, 60000, t);
  }

  /**
   * With debug logging on, a reply whose uid differs from the known one
   * throws while the mismatch is being logged: no callback fires and nothing
   * is stored. With it off the mismatch is ignored and the known uid kept.
   */
  lemma MismatchUnderDebugThrows(store: Store, config: Config, known: Option<string>,
                                 lifetimeMinutes: int, body: string, parsed: ParsedReply,
                                 decode: string -> Option<string>, now: int)
    requires IsJsonLike(body) && parsed.Reply? && UidMismatch(known, parsed.uid)
    ensures var e := ReplyEffect(store, config, known, lifetimeMinutes, body, parsed, decode, now);
            && (config.debug ==> e == ReplyOutcome(store, [], true))
            && (!config.debug ==> Get(e.store, StoreKey(config.account)) == Get(store, StoreKey(config.account)))
  {
    KeysDistinct(config.account, config.queue);
  }

  /**
   * The identity entry and its stamp change only when the reply carries a
   * uid and none was known.
   */
  lemma UidKeptUnlessUnknown(store: Store, config: Config, known: Option<string>,
                             lifetimeMinutes: int, body: string, parsed: ParsedReply,
                             decode: string -> Option<string>, now: int)
    requires !(IsJsonLike(body) && parsed.Reply? && parsed.uid.Some? && known.None?)
    ensures var e := ReplyEffect(store, config, known, lifetimeMinutes, body, parsed, decode, now);
            var key := StoreKey(config.account);
            Get(e.store, key) == Get(store, key) && Get(e.store, ExpiresKey(key)) == Get(store, ExpiresKey(key))
  {
    KeysDistinct(config.account, config.queue);
  }

  /**
   * A reply's uid with none known is stored as `'u:' + uid`, reads back as
   * that uid, and stays valid for `cookieSeconds` seconds (forever when that
   * is not a number).
   */
  lemma UidWrittenWhenUnknown(store: Store, config: Config, known: Option<string>,
                              lifetimeMinutes: int, body: string, parsed: ParsedReply,
                              decode: string -> Option<string>, now: int, t: int)
    requires IsJsonLike(body) && parsed.Reply? && parsed.uid.Some? && known.None?
    ensures var e := ReplyEffect(store, config, known, lifetimeMinutes, body, parsed, decode, now);
            var key := StoreKey(config.account);
            && Get(e.store, key) == Some("u:" + parsed.uid.value)
            && UidFromPreference(e.store[key]) == parsed.uid
            && (parsed.cookieSeconds.Some? ==>
                  (ExpiryValid(Get(e.store, ExpiresKey(key)), t) <==> t <= now + parsed.cookieSeconds.value * 1000))
            && (parsed.cookieSeconds.None? ==> ExpiryValid(Get(e.store, ExpiresKey(key)), t))
  {
    var e := ReplyEffect(store, config, known, lifetimeMinutes, body, parsed, decode, now);
    var key := StoreKey(config.account);
    var stamp := ExpiryStamp(now, parsed.cookieSeconds, 1000);
    assert Get(e.store, key) == Some("u:" + parsed.uid.value) && Get(e.store, ExpiresKey(key)) == Some(stamp) by {
      KeysDistinct(config.account, config.queue);
    }
    UidRoundTrip(parsed.uid.value);
    if parsed.cookieSeconds.Some? {
      StampedEntryWindow(now, parsed.cookieSeconds.value, 1000, t);
    } else {
      NaNStampNeverExpires(now, 1000, t);
    }
  }

  /** The number of listener callbacks (every event but the fetch) in a log. */
  ghost function Callbacks(log: seq<Event>): nat {
    if log == [] then 0
    else Callbacks(log[..|log| - 1]) + (if log[|log| - 1].Consult? then 0 else 1)
  }

  /** The number of onNoInternet callbacks in a log. */
  ghost function NoInternets(log: seq<Event>): nat {
    if log == [] then 0
    else NoInternets(log[..|log| - 1]) + (if log[|log| - 1].NoInternet? then 1 else 0)
  }

  /** The first listener callback in a log, if there is one. */
  ghost function FirstCallback(log: seq<Event>): Option<Event> {
    if log == [] then None
    else if FirstCallback(log[..|log| - 1]).Some? then FirstCallback(log[..|log| - 1])
    else if log[|log| - 1].Consult? then None
    else Some(log[|log| - 1])
  }

  /** How appending one event changes both counts and the first callback. */
  lemma LogAppend(log: seq<Event>, e: Event)
    ensures Callbacks(log + [e]) == Callbacks(log) + (if e.Consult? then 0 else 1)
    ensures NoInternets(log + [e]) == NoInternets(log) + (if e.NoInternet? then 1 else 0)
    ensures FirstCallback(log + [e]) == if FirstCallback(log).Some? || e.Consult? then FirstCallback(log) else Some(e)
  {
    assert (log + [e])[..|log|] == log;
  }

  class QueueFairAdapter {
    const config: Config
    /** `config.showingQueue`, which `go` resets. */
    var showingQueue: bool
    var timedOut: bool
    var finished: bool
    var preference: Option<string>
    var uid: Option<string>
    var readTimeout: int
    var passedLifetimeMinutes: int
    var store: Store
    var log: seq<Event>
    var stage: Stage
    /** When the pending read-timeout callback is due, if one is pending. */
    var readTimer: Option<int>

    /**
     * The flag discipline: the timeout reports onNoInternet at most once and
     * only as the session's first callback; no callback fires
     * while `finished` is unset; at most one callback fires per session
     * without a timeout, and at most two with one.
     */
    ghost predicate Valid()
      reads this
    {
      && (timedOut ==> finished)
      && (stage == Done ==> finished)
      && (stage == Idle ==> !finished && readTimer.None? && log == [])
      && NoInternets(log) == (if timedOut then 1 else 0)
      && (FirstCallback(log).None? <==> Callbacks(log) == 0)
      && (timedOut ==> FirstCallback(log) == Some(NoInternet))
      && (!finished ==> Callbacks(log) == 0)
      && (stage != Done ==> Callbacks(log) == (if timedOut then 1 else 0))
      && Callbacks(log) <= (if timedOut then 2 else 1)
    }

    constructor (config: Config, store: Store)
      ensures Valid()
      ensures this.config == config && this.store == store && showingQueue == config.showingQueue
      ensures !timedOut && !finished && preference.None? && uid.None?
      ensures readTimeout == DEFAULT_READ_TIMEOUT
      ensures passedLifetimeMinutes == DEFAULT_PASSED_LIFETIME_MINUTES
      ensures log == [] && stage == Idle && readTimer.None?
    {
      this.config := config;
      this.store := store;
      showingQueue := config.showingQueue;
      timedOut, finished := false, false;
      preference, uid := None, None;
      readTimeout := DEFAULT_READ_TIMEOUT;
      passedLifetimeMinutes := DEFAULT_PASSED_LIFETIME_MINUTES;
      log, stage, readTimer := [], Idle, None;
    }

    /**
     * Starts the session: takes the configured timeouts (the read timeout is
     * used as given, not floored), arms the read timer and starts the
     * identity lookup.
     */
    method Go(now: int)
      requires Valid() && stage == Idle
      modifies this`showingQueue, this`readTimeout, this`passedLifetimeMinutes, this`readTimer,
               this`preference, this`stage
      ensures Valid()
      ensures !showingQueue
      ensures readTimeout == if config.readTimeout.Some? then config.readTimeout.value else old(readTimeout)
      ensures passedLifetimeMinutes == if config.passedLifetimeMinutes.Some?
                                       then config.passedLifetimeMinutes.value else old(passedLifetimeMinutes)
      ensures readTimer == Some(now + TimerDelay(readTimeout * 1000))
      ensures stage == ReadingUid && preference.None?
    {
      showingQueue := false;
      if config.readTimeout.Some? {
        readTimeout := config.readTimeout.value;
      }
      if config.passedLifetimeMinutes.Some? {
        passedLifetimeMinutes := config.passedLifetimeMinutes.value;
      }
      readTimer := Some(now + TimerDelay(readTimeout * 1000));
      SetUidFromPreference();
    }

    /** The read timer fires: onNoInternet, unless the session already finished. */
    method ReadTimeoutFired(now: int)
      requires Valid() && readTimer.Some? && readTimer.value <= now
      modifies this`readTimer, this`timedOut, this`finished, this`log
      ensures Valid() && readTimer.None? && finished
      ensures old(finished) ==> timedOut == old(timedOut) && log == old(log)
      ensures !old(finished) ==> timedOut && log == old(log) + [NoInternet]
    {
      readTimer := None;
      if finished {
        return;
      }
      timedOut := true;
      finished := true;
      LogAppend(log, NoInternet);
      log := log + [NoInternet];
    }

    /** Issues the read of the identity entry. */
    method SetUidFromPreference()
      modifies this`preference, this`stage
      ensures preference.None? && stage == ReadingUid
    {
      preference := None;
      stage := ReadingUid;
    }

    /**
     * Checks an expiry stamp read for `key`: false when absent; false, and
     * both the entry and its stamp cleared, when in the past; true otherwise
     * (a stamp equal to `now`, or one that is not a number, is valid).
     */
    method IsValidExpiry(key: string, expires: Option<string>, now: int) returns (valid: bool)
      modifies this`store
      ensures valid == ExpiryValid(expires, now)
      ensures store == if Expired(expires, now) then Evict(old(store), key) else old(store)
    {
      if expires.None? {
        return false;
      }
      var stamp := ParseNumber(expires.value);
      if stamp.Some? && stamp.value < now {
        store := store - {key};
        store := store - {ExpiresKey(key)};
        return false;
      }
      return true;
    }

    /**
     * Reads the entry under `key` and its expiry stamp, as both lookups do:
     * `preference` receives the value; `valid` is `isValidExpiry`'s answer,
     * false when there is no value.
     */
    method ReadEntry(key: string, now: int) returns (valid: bool)
      requires preference.None?
      modifies this`preference, this`store
      ensures preference == Get(old(store), key)
      ensures store == AfterRead(old(store), key, now)
      ensures valid == ValidEntry(old(store), key, now).Some?
    {
      var value := Get(store, key);
      var expires: Option<string> := None;
      if value.Some? {
        preference := value;
        expires := Get(store, ExpiresKey(key));
      }
      valid := false;
      if preference.Some? {
        valid := IsValidExpiry(key, expires, now);
      }
    }

    /**
     * The identity read completes: a valid stored identity sets `uid`; then,
     * unless the session already finished, the pass lookup starts.
     */
    method UidLookupCompleted(now: int)
      requires Valid() && stage == ReadingUid && preference.None?
      modifies this`preference, this`store, this`uid, this`stage
      ensures Valid()
      ensures store == AfterRead(old(store), StoreKey(config.account), now)
      ensures var found := ValidEntry(old(store), StoreKey(config.account), now);
              uid == if found.Some? && UidFromPreference(found.value).Some?
                     then UidFromPreference(found.value) else old(uid)
      ensures stage == (if finished then Done else ReadingPass)
      ensures preference == if finished then Get(old(store), StoreKey(config.account)) else None
    {
      var valid := ReadEntry(StoreKey(config.account), now);
      if valid {
        var found := UidFromPreference(preference.value);
        if found.Some? {
          uid := found;
        }
      }
      if !finished {
        CheckPassed();
      } else {
        stage := Done;
      }
    }

    /** Issues the read of the pass entry. */
    method CheckPassed()
      modifies this`preference, this`stage
      ensures preference.None? && stage == ReadingPass
    {
      preference := None;
      stage := ReadingPass;
    }

    /**
     * The pass read completes: a valid pass finishes the session with
     * onPass('Repass') and no consult (nothing when already finished); an
     * absent or expired one starts the consult, finished or not.
     */
    method PassLookupCompleted(now: int)
      requires Valid() && stage == ReadingPass && preference.None?
      modifies this`preference, this`store, this`finished, this`log, this`stage
      ensures Valid()
      ensures preference == Get(old(store), PassKey(config.queue))
      ensures store == AfterRead(old(store), PassKey(config.queue), now)
      ensures ValidEntry(old(store), PassKey(config.queue), now).None? ==>
                finished == old(finished) && stage == Consulting
                && log == old(log) + [Consult(ConsultUrl(config.account, config.queue, uid))]
      ensures ValidEntry(old(store), PassKey(config.queue), now).Some? ==>
                finished && stage == Done && log == old(log) + (if old(finished) then [] else [Pass(REPASS)])
    {
      var valid := ReadEntry(PassKey(config.queue), now);
      if !valid {
        ConsultAdapter();
        return;
      }
      Repass();
    }

    /** A valid pass was found: onPass('Repass'), unless the session already finished. */
    method Repass()
      requires Valid() && stage == ReadingPass
      modifies this`finished, this`log, this`stage
      ensures Valid() && finished && stage == Done
      ensures log == old(log) + (if old(finished) then [] else [Pass(REPASS)])
    {
      stage := Done;
      if finished {
        return;
      }
      finished := true;
      LogAppend(log, Pass(REPASS));
      log := log + [Pass(REPASS)];
    }

    /** Builds the consult URL, appending the optional uid and the identifier. */
    method BuildConsultUrl() returns (url: string)
      ensures url == ConsultUrl(config.account, config.queue, uid)
    {
      url := "https://" + config.account + ADAPTER_HOST + config.queue;
      var sep := "?";
      if uid.Some? {
        url := url + sep + "uid=" + uid.value;
        sep := "&";
      }
      url := url + sep + "identifier=" + IDENTIFIER;
    }

    /** Fetches the consult URL; its completion or failure is a later event. */
    method ConsultAdapter()
      requires Valid() && stage == ReadingPass
      modifies this`log, this`stage
      ensures Valid()
      ensures log == old(log) + [Consult(ConsultUrl(config.account, config.queue, uid))]
      ensures stage == Consulting
    {
      var url := BuildConsultUrl();
      LogAppend(log, Consult(url));
      log := log + [Consult(url)];
      stage := Consulting;
    }

    /**
     * `gotAdapter`: maps the reply to one callback, caches the uid and the
     * pass as the reply says, and sets `finished` on every path (the
     * `finally`). It does not look at `finished` first. `threw` reports an
     * exception (JSON.parse or decodeURIComponent) escaping it.
     */
    method GotAdapter(body: string, parse: string -> ParsedReply, decode: string -> Option<string>, now: int)
      returns (threw: bool)
      modifies this`store, this`log, this`finished
      ensures finished
      ensures var e := ReplyEffect(old(store), config, uid, passedLifetimeMinutes,
                                   body, parse(body), decode, now);
              store == e.store && log == old(log) + e.events && threw == e.threw
      ensures threw ==> log == old(log)
      ensures !threw ==> |log| == |old(log)| + 1 && log == old(log) + [log[|old(log)|]]
                         && (log[|old(log)|].Error? || log[|old(log)|].Show? || log[|old(log)|].Pass?)
    {
      if !IsJsonLike(body) {
        log := log + [Error(NO_JSON_ERROR)];
        finished := true;
        return false;
      }
      var json := parse(body);
      if json.Unparsable? {
        finished := true;
        return true;
      }
      if json.NullReply? {
        log := log + [Error(NULL_RESULT_ERROR)];
        finished := true;
        return false;
      }
      threw := GotReply(body, json, decode, now);
    }

    /** `gotAdapter` on a reply that parsed to a value. */
    method GotReply(ghost body: string, json: ParsedReply, decode: string -> Option<string>, now: int)
      returns (threw: bool)
      requires IsJsonLike(body) && json.Reply?
      modifies this`store, this`log, this`finished
      ensures finished
      ensures var e := ReplyEffect(old(store), config, uid, passedLifetimeMinutes, body, json, decode, now);
              store == e.store && log == old(log) + e.events && threw == e.threw
    {
      if UidMismatch(uid, json.uid) && config.debug {
        // The mismatch is only logged, but the logging statement applies
        // the uid as a template tag, which throws.
        finished := true;
        return true;
      }
      RecordUid(json.uid, json.cookieSeconds, now);
      var action := json.action;
      if action.None? {
        log := log + [Error(NO_ACTION_ERROR)];
        finished := true;
        return false;
      }
      if action.value == SEND_TO_QUEUE {
        log := log + [Show];
        finished := true;
        return false;
      }
      var validation := decode(StringOf(json.validation));
      if validation.None? {
        finished := true;
        return true;
      }
      store := store[PassKey(config.queue) := validation.value];
      store := store[ExpiresKey(PassKey(config.queue)) := ExpiryStamp(now, Some(passedLifetimeMinutes), 60000)];
      log := log + [Pass(action.value)];
      finished := true;
      return false;
    }

    /** Stores the reply's uid with its lifetime when no uid was known; a different known one is kept. */
    method RecordUid(replyUid: Option<string>, cookieSeconds: Option<int>, now: int)
      modifies this`store
      ensures store == StoreUid(old(store), config.account, uid, replyUid, cookieSeconds, now)
    {
      if replyUid.Some? && uid.None? {
        store := store[StoreKey(config.account) := "u:" + replyUid.value];
        store := store[ExpiresKey(StoreKey(config.account)) := ExpiryStamp(now, cookieSeconds, 1000)];
      }
    }

    /**
     * The fetch completes with `body`: `gotAdapter` runs; an exception it
     * throws reaches the chain's `.catch`, which finds `finished` set and
     * reports nothing.
     */
    method FetchCompleted(body: string, parse: string -> ParsedReply, decode: string -> Option<string>, now: int)
      requires Valid() && stage == Consulting
      modifies this`store, this`log, this`finished, this`stage
      ensures Valid() && stage == Done && finished
      ensures var e := ReplyEffect(old(store), config, uid, passedLifetimeMinutes,
                                   body, parse(body), decode, now);
              store == e.store && log == old(log) + e.events
    {
      ghost var before := log;
      var threw := GotAdapter(body, parse, decode, now);
      if threw {
        FetchFailed(GOT_ADAPTER_THREW);
      } else {
        LogAppend(before, log[|before|]);
        stage := Done;
      }
    }

    /** The fetch chain rejects: onError, unless the session already finished. */
    method FetchFailed(error: string)
      requires Valid() && stage == Consulting
      modifies this`finished, this`log, this`stage
      ensures Valid() && finished && stage == Done
      ensures log == old(log) + (if old(finished) then [] else [Error(error)])
    {
      stage := Done;
      if finished {
        return;
      }
      finished := true;
      LogAppend(log, Error(error));
      log := log + [Error(error)];
    }
  }
}
