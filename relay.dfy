/**
 * The handoff relay: three keys of the userscript's key-value store that the
 * issue-tracker page writes and the admin-tool page reads, checks for expiry
 * and clears.
 */
module Relay {
  import opened Wrappers

  /** A stored value: the relay only ever holds strings, numbers and `null`. */
  datatype Value = Str(s: string) | Num(n: int) | Null

  /** The relay keys. */
  const HostnameKey := "lifeguard_hostname"
  const TicketKey := "lifeguard_ticket"
  const TimestampKey := "lifeguard_timestamp"

  /** How long, in milliseconds, a handoff stays valid after it was written. */
  const ValidityWindowMs := 300000

  /** The store: a key that was never set reads as `undefined`. */
  type Store = map<string, Value>

  /** `storage.get(key)`. */
  function Get(store: Store, key: string): (r: Option<Value>)
    ensures r.Some? <==> key in store
    ensures r.Some? ==> r.value == store[key]
  {
    if key in store then Some(store[key]) else None
  }

  /** A handoff accepted by the reader. */
  datatype RelayRecord = RelayRecord(hostname: string, ticket: string, timestamp: int)

  /** One of the three relay keys. */
  predicate IsRelayKey(k: string)
  {
    k == HostnameKey || k == TicketKey || k == TimestampKey
  }

  /** The three writes of a handoff, in order: hostname, ticket, timestamp. */
  function Written(store: Store, hostname: string, ticket: string, now: int): (s: Store)
    ensures Get(s, HostnameKey) == Some(Str(hostname))
    ensures Get(s, TicketKey) == Some(Str(ticket))
    ensures Get(s, TimestampKey) == Some(Num(now))
    ensures forall k :: !IsRelayKey(k) ==> Get(s, k) == Get(store, k)
  {
    store[HostnameKey := Str(hostname)][TicketKey := Str(ticket)][TimestampKey := Num(now)]
  }

  /** The three clearing writes after a fill: every relay key set to `null`. */
  function Cleared(store: Store): (s: Store)
    ensures forall k :: IsRelayKey(k) ==> Get(s, k) == Some(Null)
    ensures forall k :: !IsRelayKey(k) ==> Get(s, k) == Get(store, k)
  {
    store[HostnameKey := Null][TicketKey := Null][TimestampKey := Null]
  }

  /**
   * The read at the start of `fillLifeguardForm`: the handoff is accepted
   * only when hostname, ticket and timestamp are all truthy and at most the
   * validity window has passed since the timestamp.
   */
  function ReadIfValid(store: Store, now: int): (r: Option<RelayRecord>)
    ensures r.Some? <==>
      && Get(store, HostnameKey).Some? && Get(store, HostnameKey).value.Str? && Get(store, HostnameKey).value.s != ""
      && Get(store, TicketKey).Some? && Get(store, TicketKey).value.Str? && Get(store, TicketKey).value.s != ""
      && Get(store, TimestampKey).Some? && Get(store, TimestampKey).value.Num? && Get(store, TimestampKey).value.n != 0
      && now - Get(store, TimestampKey).value.n <= ValidityWindowMs
    ensures r.Some? ==>
      && Get(store, HostnameKey) == Some(Str(r.value.hostname))
      && Get(store, TicketKey) == Some(Str(r.value.ticket))
      && Get(store, TimestampKey) == Some(Num(r.value.timestamp))
  {
    match (Get(store, HostnameKey), Get(store, TicketKey), Get(store, TimestampKey))
    case (Some(Str(hostname)), Some(Str(ticket)), Some(Num(timestamp))) =>
      if hostname == "" || ticket == "" || timestamp == 0 || now - timestamp > ValidityWindowMs then None
      else Some(RelayRecord(hostname, ticket, timestamp))
    case _ => None
  }

  /** Round trip: a handoff is read back exactly as written while its fields are truthy and the window has not passed. */
  lemma ReadAfterWrite(store: Store, hostname: string, ticket: string, at: int, now: int)
    ensures ReadIfValid(Written(store, hostname, ticket, at), now)
      == if hostname != "" && ticket != "" && at != 0 && now - at <= ValidityWindowMs
         then Some(RelayRecord(hostname, ticket, at)) else None
  {
  }

  /** The window is inclusive: a read exactly 300000 ms after the write is accepted, one more millisecond is too late. */
  lemma ExpiryBoundary(store: Store, hostname: string, ticket: string, at: int)
    requires hostname != "" && ticket != "" && at != 0
    ensures ReadIfValid(Written(store, hostname, ticket, at), at + ValidityWindowMs).Some?
    ensures forall now :: now > at + ValidityWindowMs ==> ReadIfValid(Written(store, hostname, ticket, at), now).None?
  {
  }

  /** After the clearing writes no handoff is accepted, at any time. */
  lemma ReadAfterClear(store: Store, now: int)
    ensures ReadIfValid(Cleared(store), now) == None
  {
  }

  /** A rejected store stays rejected as time goes on; an accepted one was accepted at every earlier time. */
  lemma RejectionPersists(store: Store, now: int, later: int)
    requires now <= later
    ensures ReadIfValid(store, now).None? ==> ReadIfValid(store, later).None?
  {
  }

  /** The userscript's store; `storage.set` replaces one key. */
  class HandoffRelay {
    var store: Store

    /** A store holding `initial`. */
    constructor (initial: Store)
      ensures store == initial
    {
      store := initial;
    }

    /** `storage.set(key, value)`. */
    method Set(key: string, value: Value)
      modifies this
      ensures store == old(store)[key := value]
    {
      store := store[key := value];
    }
  }
}
