/**
 * Whole sessions of the admission controller, driven event by event from a
 * fresh instance; each states the callbacks the listener receives.
 */
module AdapterScenarios {
  import opened Wrappers
  import opened JsNumber
  import opened Preferences
  import opened Adapter

  /** A session with nothing cached runs both lookups and consults without a uid. */
  method FirstVisit(config: Config, now: int) returns (session: QueueFairAdapter)
    ensures fresh(session) && session.Valid() && session.config == config
    ensures session.stage == Consulting && !session.finished && !session.timedOut
    ensures session.uid.None? && session.store == map[]
    ensures session.log == [Consult(ConsultUrl(config.account, config.queue, None))]
    ensures session.readTimeout == if config.readTimeout.Some? then config.readTimeout.value else DEFAULT_READ_TIMEOUT
    ensures session.passedLifetimeMinutes == if config.passedLifetimeMinutes.Some?
                                             then config.passedLifetimeMinutes.value else DEFAULT_PASSED_LIFETIME_MINUTES
    ensures session.readTimer == Some(now + TimerDelay(session.readTimeout * 1000))
  {
    session := new QueueFairAdapter(config, map[]);
    session.Go(now);
    assert session.store == map[] && session.log == [] && !session.finished;
    assert ValidEntry(map[], StoreKey(config.account), now).None?;
    session.UidLookupCompleted(now);
    assert session.uid.None? && session.store == map[] && !session.finished;
    assert session.stage == ReadingPass && session.preference.None?;
    assert ValidEntry(map[], PassKey(config.queue), now).None?;
    session.PassLookupCompleted(now);
  }

  /**
   * With nothing cached, the read timer firing while the consult is in
   * flight reports onNoInternet, and the reply arriving afterwards still
   * reports onShow: two callbacks in one session.
   */
  method LateReplyAfterTimeout(config: Config, body: string, parse: string -> ParsedReply,
                               decode: string -> Option<string>, t0: int, t1: int)
    returns (log: seq<Event>)
    requires config.readTimeout.None?
    requires IsJsonLike(body) && parse(body) == Reply(None, None, Some(SEND_TO_QUEUE), None)
    requires t1 >= t0 + 5000
    ensures log == [Consult(ConsultUrl(config.account, config.queue, None)), NoInternet, Show]
  {
    var url := ConsultUrl(config.account, config.queue, None);
    var session := FirstVisit(config, t0);
    session.ReadTimeoutFired(t1);
    assert session.log == [Consult(url), NoInternet];
    var reply := ReplyEffect(map[], config, None, session.passedLifetimeMinutes, body, parse(body), decode, t1);
    assert reply.events == [Show] && reply.store == map[];
    session.FetchCompleted(body, parse, decode, t1);
    log := session.log;
  }

  /**
   * A reply that makes `gotAdapter` throw (JSON.parse or decodeURIComponent
   * rejects it) ends the session without any callback: the `.catch` finds
   * `finished` set, and so does the read timer when it fires later.
   */
  method ThrowingReplyIsSilent(config: Config, body: string, parse: string -> ParsedReply,
                               decode: string -> Option<string>, t0: int, t1: int)
    returns (log: seq<Event>)
    requires config.readTimeout.None?
    requires ReplyEffect(map[], config, None, if config.passedLifetimeMinutes.Some?
                         then config.passedLifetimeMinutes.value else DEFAULT_PASSED_LIFETIME_MINUTES,
                         body, parse(body), decode, t0).threw
    requires t1 >= t0 + 5000
    ensures log == [Consult(ConsultUrl(config.account, config.queue, None))]
  {
    var session := FirstVisit(config, t0);
    session.FetchCompleted(body, parse, decode, t0);
    session.ReadTimeoutFired(t1);
    log := session.log;
  }

  /**
   * A cached pass whose stamp is exactly the current instant is still
   * valid: the session ends with onPass('Repass') and no consult.
   */
  method RepassAtExpiryInstant(config: Config, validation: string, t: int) returns (log: seq<Event>)
    ensures log == [Pass(REPASS)]
  {
    KeysDistinct(config.account, config.queue);
    StampRoundTrip(t);
    var key := PassKey(config.queue);
    var session := new QueueFairAdapter(config, map[key := validation, ExpiresKey(key) := Stamp(t)]);
    session.Go(t);
    session.UidLookupCompleted(t);
    session.PassLookupCompleted(t);
    log := session.log;
  }

  /**
   * One millisecond later the same pass has expired: both of its entries
   * are cleared and the adapter is consulted instead.
   */
  method ExpiredPassConsults(config: Config, validation: string, t: int)
    returns (log: seq<Event>, store: Store)
    ensures log == [Consult(ConsultUrl(config.account, config.queue, None))]
    ensures store == map[]
  {
    KeysDistinct(config.account, config.queue);
    StampRoundTrip(t);
    var key := PassKey(config.queue);
    var session := new QueueFairAdapter(config, map[key := validation, ExpiresKey(key) := Stamp(t)]);
    session.Go(t + 1);
    session.UidLookupCompleted(t + 1);
    assert session.uid.None? && !session.finished;
    assert session.store == map[key := validation, ExpiresKey(key) := Stamp(t)];
    assert Expired(Get(session.store, ExpiresKey(key)), t + 1);
    session.PassLookupCompleted(t + 1);
    log, store := session.log, session.store;
  }

  /**
   * A uid received without a cookie lifetime is stored with a "NaN" stamp,
   * which never expires: the next session, however much later, consults
   * with that uid, even one holding `:`.
   */
  method UidCarriedToNextSession(config: Config, x: string, body: string, parse: string -> ParsedReply,
                                 decode: string -> Option<string>, t0: int, t1: int)
    returns (log: seq<Event>)
    requires IsJsonLike(body) && parse(body) == Reply(Some(x), None, Some(SEND_TO_QUEUE), None)
    ensures log == [Consult(ConsultUrl(config.account, config.queue, Some(x)))]
  {
    KeysDistinct(config.account, config.queue);
    var first := FirstVisit(config, t0);
    var reply := ReplyEffect(map[], config, None, first.passedLifetimeMinutes, body, parse(body), decode, t0);
    var key := StoreKey(config.account);
    assert reply.store == map[key := "u:" + x, ExpiresKey(key) := NaN];
    first.FetchCompleted(body, parse, decode, t0);
    log := ReturningVisit(config, x, first.store, t1);
  }

  /**
   * A session that finds the identity `'u:' + x` with a "NaN" stamp and no
   * pass consults with uid `x`.
   */
  method ReturningVisit(config: Config, x: string, store: Store, now: int) returns (log: seq<Event>)
    requires store == map[StoreKey(config.account) := "u:" + x, ExpiresKey(StoreKey(config.account)) := NaN]
    ensures log == [Consult(ConsultUrl(config.account, config.queue, Some(x)))]
  {
    KeysDistinct(config.account, config.queue);
    NaNIsNotANumber();
    UidRoundTrip(x);
    assert ValidEntry(store, StoreKey(config.account), now) == Some("u:" + x);
    assert AfterRead(store, StoreKey(config.account), now) == store;
    var session := new QueueFairAdapter(config, store);
    session.Go(now);
    session.UidLookupCompleted(now);
    assert session.uid == Some(x) && !session.finished;
    assert PassKey(config.queue) !in session.store;
    session.PassLookupCompleted(now);
    log := session.log;
  }
}
