/**
 * The store operations the lock is built from, as methods on the store. Run without interference, each is
 * the sequence of steps the transition system of `Lock` gives to one session.
 */
module LockStore {
  import opened Basics
  import opened Vault
  import opened Lock

  /** How a store call ends: with a value, with the store's nil reply, or with an error. */
  datatype Reply<T> = Value(value: T) | NoValue | Failed

  /** The last command of `WriteNX`; without a positive time to live it is left out. */
  function GiveLease(s: State, i: nat, ttl: int, net: Net): State
    requires i in s.sessions && s.sessions[i].pc.Stamped?
  {
    var key := s.sessions[i].pc.key;
    if ttl <= 0 then Move(s, i, Holding(key), s.store)
    else Move(s, i, if net.Answered? then Holding(key) else Idle,
              if net.NotSent? then s.store else Expire(s.store, key, s.now + ttl))
  }

  /** The steps of `WriteNX` for session `i`, one after the other. */
  function WriteNXSteps(suite: Suite, s: State, i: nat, random: Bytes, modTime: int, ttl: int,
                        nets: (Net, Net, Net)): State
    requires i in s.sessions && s.sessions[i].pc.Trying?
  {
    var s1 := Next(suite, s, TryNX(i, random, nets.0));
    if !s1.sessions[i].pc.Claimed? then s1 else
      var s2 := Next(suite, s1, WriteMeta(i, modTime, nets.1));
      if !s2.sessions[i].pc.Stamped? then s2 else GiveLease(s2, i, ttl, nets.2)
  }

  /** With the time to live of the lock these are the steps of the transition system. */
  lemma LockLease(suite: Suite, s: State, i: nat, net: Net)
    requires i in s.sessions && s.sessions[i].pc.Stamped?
    ensures GiveLease(s, i, LOCK_TTL_SECONDS, net) == Next(suite, s, WriteExpiry(i, net))
  {
  }

  /** The steps of `Unlock`. */
  function UnlockSteps(suite: Suite, s: State, i: nat, nets: (Net, Net)): State
    requires i in s.sessions && s.sessions[i].pc.Unlocking?
  {
    var s1 := Next(suite, s, ReadOwner(i, nets.0));
    if !s1.sessions[i].pc.Deleting? then s1 else Next(suite, s1, DeleteEntry(i, nets.1))
  }

  class ValKeyKeyService {
    const suite: Suite
    const vault: Option<Member>
    var entries: Store
    var now: int

    constructor (s: Suite, v: Option<Member>, st: Store, t: int)
      ensures suite == s && vault == v && entries == st && now == t
    {
      suite, vault, entries, now := s, v, st, t;
    }

    method Read(id: string, net: Net) returns (r: Reply<Bytes>)
      ensures r.NoValue? <==> net.Answered? && HGet(entries, id).None?
      ensures forall v :: r == Value(v) <==> net.Answered? && HGet(entries, id).Some? && vault.Some?
                                             && Unseal(suite, vault.value, HGet(entries, id).value) == Ok(v)
    {
      if !net.Answered? { return Failed; }
      var box := HGet(entries, id);
      if box.None? { return NoValue; }
      if vault.None? { return Failed; }
      var d := Unseal(suite, vault.value, box.value);
      if d.Err? { return Failed; }
      r := Value(d.value);
    }

    method Delete(id: string, net: Net) returns (failed: bool)
      modifies this`entries
      ensures entries == if net.NotSent? then old(entries) else Del(old(entries), id)
      ensures failed == !net.Answered?
    {
      if !net.NotSent? { entries := entries - {id}; }
      failed := !net.Answered?;
    }

    /** `ghost s` is a state of the transition system in which session `i` is about to make this call. */
    method WriteNX(id: string, value: Bytes, ttlSeconds: int, random: Bytes, modTime: int, nets: (Net, Net, Net),
                   ghost s: State, i: nat) returns (acquired: bool, failed: bool)
      requires s.store == entries && s.now == now && i in s.sessions
      requires s.sessions[i] == Session(value, vault, Trying(id))
      modifies this`entries
      ensures var s' := WriteNXSteps(suite, s, i, random, modTime, ttlSeconds, nets);
              && entries == s'.store && now == s'.now
              && s'.sessions[i].pc == (if failed then Idle else if acquired then Holding(id) else Waiting(id))
    {
      if vault.None? { return false, true; }
      var data := Seal(suite, vault.value, random, value);
      if data.Err? { return false, true; }
      if nets.0.NotSent? { return false, true; }
      acquired := !(id in entries && entries[id].data.Some?);
      if acquired {
        entries := entries[id := if id in entries then entries[id].(data := Some(data.value), maker := i)
                                 else Entry(Some(data.value), None, None, i)];
      }
      if !nets.0.Answered? { return false, true; }
      if !acquired { return false, false; }
      if nets.1.NotSent? { return true, true; }
      entries := entries[id := entries[id].(meta := Some(Meta(|data.value|, modTime)))];
      if !nets.1.Answered? { return true, true; }
      if ttlSeconds > 0 {
        if nets.2.NotSent? { return true, true; }
        entries := entries[id := entries[id].(expires := Some(now + ttlSeconds))];
        if !nets.2.Answered? { return true, true; }
      }
      failed := false;
    }
  }

  class CertStorage {
    const client: ValKeyKeyService
    const nodeId: Name

    constructor (c: ValKeyKeyService, id: Name)
      ensures client == c && nodeId == id
    {
      client, nodeId := c, id;
    }

    /** Deletes the entry only when it names this node. */
    method Unlock(key: string, nets: (Net, Net), ghost s: State, ghost i: nat, ghost held: bool) returns (failed: bool)
      requires s.store == client.entries && i in s.sessions
      requires s.sessions[i] == Session(nodeId, client.vault, Unlocking(key, held))
      modifies client`entries
      ensures client.entries == UnlockSteps(client.suite, s, i, nets).store
      ensures var box := HGet(old(client.entries), key);
              failed <==>
                || !nets.0.Answered?
                || (box.Some? && (client.vault.None? || Unseal(client.suite, client.vault.value, box.value).Err?))
      ensures client.entries != old(client.entries) ==>
                HGet(old(client.entries), key).Some? && client.vault.Some?
                && Unseal(client.suite, client.vault.value, HGet(old(client.entries), key).value) == Ok(nodeId)
    {
      var val := client.Read(key, nets.0);
      match val
      case Value(v) =>
        if v == nodeId { var ignored := client.Delete(key, nets.1); }
        failed := false;
      case NoValue => failed := false;
      case Failed => failed := true;
    }
  }
}
