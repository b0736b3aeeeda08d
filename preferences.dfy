/**
 * The persistent key-value store (react-native-default-preference) as the
 * adapter and the bridge use it: string values, each optionally paired with
 * an expiry stamp under `key + ':expires'` holding `'' + <epoch milliseconds>`.
 */
module Preferences {
  import opened Wrappers
  import opened JsNumber

  type Store = map<string, string>

  const STORE_PREFIX: string := "QF-QueueFair-Store-"
  const PASS_PREFIX: string := "QF-QueueFair-Pass-"
  /** Where the bridge records the request number of the latest JOIN. */
  const REQUEST_KEY: string := "QF-mostRecentRequestNumber"

  /** The identity (uid) entry of an account. */
  function StoreKey(account: string): string {
    STORE_PREFIX + account
  }

  /** The pass (validation) entry of a queue. */
  function PassKey(queue: string): string {
    PASS_PREFIX + queue
  }

  /** The key holding the expiry stamp of `key`. */
  function ExpiresKey(key: string): string {
    key + ":expires"
  }

  /** `DefaultPreference.get(key)`: the value, or null. */
  function Get(store: Store, key: string): Option<string> {
    if key in store then Some(store[key]) else None
  }

  /** `set(key, value)` followed by `set(key + ':expires', stamp)`. */
  function Write(store: Store, key: string, value: string, stamp: string): (r: Store)
    ensures Get(r, key) == Some(value) && Get(r, ExpiresKey(key)) == Some(stamp)
    ensures forall k :: k != key && k != ExpiresKey(key) ==> Get(r, k) == Get(store, k)
  {
    store[key := value][ExpiresKey(key) := stamp]
  }

  /** `clear(key)` followed by `clear(key + ':expires')`. */
  function Evict(store: Store, key: string): (r: Store)
    ensures Get(r, key) == None && Get(r, ExpiresKey(key)) == None
    ensures forall k :: k != key && k != ExpiresKey(key) ==> Get(r, k) == Get(store, k)
  {
    store - {key} - {ExpiresKey(key)}
  }

  /** `Number(expires) < Date.now()` on a present stamp; a NaN stamp is never in the past. */
  predicate Expired(expires: Option<string>, now: int) {
    expires.Some? && ParseNumber(expires.value).Some? && ParseNumber(expires.value).value < now
  }

  /** What `isValidExpiry` answers: the stamp is present and not in the past. */
  predicate ExpiryValid(expires: Option<string>, now: int) {
    expires.Some? && !Expired(expires, now)
  }

  /**
   * A stamped entry read at `now` (`get(key)`, `get(key + ':expires')`, then
   * `isValidExpiry`): the value when it is present with a stamp that is
   * present and not in the past.
   */
  function ValidEntry(store: Store, key: string, now: int): Option<string> {
    if key in store && ExpiryValid(Get(store, ExpiresKey(key)), now) then Some(store[key]) else None
  }

  /** The store after such a read: a present entry whose stamp is in the past is evicted with its stamp. */
  function AfterRead(store: Store, key: string, now: int): Store {
    if key in store && Expired(Get(store, ExpiresKey(key)), now) then Evict(store, key) else store
  }

  /**
   * A read evicts nothing it reports as valid, leaves the entry present
   * exactly when it was present and not expired, and reading again at the
   * same instant reports the same.
   */
  lemma ReadSettles(store: Store, key: string, now: int)
    ensures ValidEntry(store, key, now).Some? ==> AfterRead(store, key, now) == store
    ensures Get(AfterRead(store, key, now), key).Some?
        <==> key in store && !Expired(Get(store, ExpiresKey(key)), now)
    ensures ValidEntry(AfterRead(store, key, now), key, now) == ValidEntry(store, key, now)
    ensures AfterRead(AfterRead(store, key, now), key, now) == AfterRead(store, key, now)
  {
  }

  /**
   * `'' + (Date.now() + Number(lifetime) * unit)`; an absent (or non-numeric)
   * lifetime makes the sum NaN, rendered "NaN".
   */
  function ExpiryStamp(now: int, lifetime: Option<int>, unit: int): (r: string)
    ensures lifetime.Some? ==> ParseNumber(r) == Some(now + lifetime.value * unit)
    ensures lifetime.None? ==> ParseNumber(r).None?
  {
    if lifetime.Some? then
      StampRoundTrip(now + lifetime.value * unit);
      Stamp(now + lifetime.value * unit)
    else NaN
  }

  /**
   * A stamp written with a lifetime is valid up to and including the instant
   * `now + lifetime * unit`, and expired from the next millisecond on.
   */
  lemma StampedEntryWindow(now: int, lifetime: int, unit: int, t: int)
    ensures ExpiryValid(Some(ExpiryStamp(now, Some(lifetime), unit)), t) <==> t <= now + lifetime * unit
    ensures Expired(Some(ExpiryStamp(now, Some(lifetime), unit)), t) <==> t > now + lifetime * unit
  {
    StampRoundTrip(now + lifetime * unit);
  }

  /** A stamp written without a numeric lifetime ("NaN") never expires. */
  lemma NaNStampNeverExpires(now: int, unit: int, t: int)
    ensures ExpiryValid(Some(ExpiryStamp(now, None, unit)), t)
  {
    NaNIsNotANumber();
  }

  /**
   * The identity, pass and request entries never share a key, so writing or
   * clearing one leaves the others alone.
   */
  lemma KeysDistinct(account: string, queue: string)
    ensures PassKey(queue) != StoreKey(account) && PassKey(queue) != ExpiresKey(StoreKey(account))
    ensures ExpiresKey(PassKey(queue)) != StoreKey(account)
    ensures ExpiresKey(PassKey(queue)) != ExpiresKey(StoreKey(account))
    ensures REQUEST_KEY != PassKey(queue) && REQUEST_KEY != ExpiresKey(PassKey(queue))
    ensures REQUEST_KEY != StoreKey(account) && REQUEST_KEY != ExpiresKey(StoreKey(account))
  {
    assert PassKey(queue)[13] == ExpiresKey(PassKey(queue))[13] == 'P';
    assert StoreKey(account)[13] == ExpiresKey(StoreKey(account))[13] == 'S';
    assert REQUEST_KEY[3] == 'm';
    assert PassKey(queue)[3] == ExpiresKey(PassKey(queue))[3] == 'Q';
    assert StoreKey(account)[3] == ExpiresKey(StoreKey(account))[3] == 'Q';
  }
}
