/**
 * The seeding record of a node: the key it has fixed, what it exchanged with each other seed,
 * and the operations on it. The class carries the record the way the program updates it, under
 * one lock; each method is proved against a function on the record's value, and the cluster
 * model takes its steps from those functions.
 */
module Seed {
  import opened Basics
  import opened Vault

  datatype Exchange = Exchange(sentTo: bool, receivedFrom: bool)

  datatype Record = Record(
    generatedKey: Bytes,
    exchange: map<Name, Exchange>,
    others: seq<Name>,
    members: seq<Name>)

  const DUMMY_KEY: Bytes := [1]

  function Fresh(others: seq<Name>): Record {
    Record([], map[], others, [])
  }

  function Wiped(): Record {
    Record([], map[], [], [])
  }

  predicate ReceivedFrom(r: Record, n: Name) {
    n in r.exchange && r.exchange[n].receivedFrom
  }

  predicate SentTo(r: Record, n: Name) {
    n in r.exchange && r.exchange[n].sentTo
  }

  /** The completion test, as the program computes it: enough entries, and every entry received. */
  predicate AllReceived(r: Record) {
    |r.exchange| >= |r.others| && forall n :: n in r.exchange ==> r.exchange[n].receivedFrom
  }

  /** The record lists only its other seeds, each at most once. */
  ghost predicate WellFormed(r: Record) {
    NoDup(r.others) && r.exchange.Keys <= ToSet(r.others)
  }

  /** Counting entries is enough: the test holds exactly when every other seed was heard from. */
  lemma AllReceivedIffEverySeed(r: Record)
    requires WellFormed(r)
    ensures AllReceived(r) <==> forall n :: n in r.others ==> ReceivedFrom(r, n)
  {
    NoDupCardinality(r.others);
    assert |r.exchange| == |r.exchange.Keys|;
    if AllReceived(r) {
      SubsetSameSize(r.exchange.Keys, ToSet(r.others));
      forall n | n in r.others ensures ReceivedFrom(r, n) {
        assert n in ToSet(r.others);
      }
    }
    if forall n :: n in r.others ==> ReceivedFrom(r, n) {
      assert ToSet(r.others) <= r.exchange.Keys;
      assert r.exchange.Keys == ToSet(r.others);
    }
  }

  // ------------------------------------------------------------------ steps

  function StartMaster(r: Record, key: Bytes, members: seq<Name>): Record {
    Record(key, map[], r.others, members)
  }

  function StartSlave(r: Record, members: seq<Name>): Record {
    Record(DUMMY_KEY, map[], r.others, members)
  }

  datatype Received =
    | UnknownSender
    | WrongSize
    | Mismatch
    | Accepted(record: Record, completed: Bytes, forward: bool)

  predicate Panics(r: Received) {
    !r.Accepted?
  }

  /** `keyReceived`: the three panics, the empty-key return, and the normal course. */
  function KeyReceived(r: Record, k: Bytes, sender: Name): Received {
    if sender !in r.others then UnknownSender
    else if |k| != KEY_SIZE then WrongSize
    else if r.generatedKey == [] then Accepted(r, [], false)
    else
      var fixedKey := if r.generatedKey == DUMMY_KEY then k else r.generatedKey;
      if k != fixedKey then Mismatch else
      var sent := SentTo(r, sender);
      var r' := r.(generatedKey := fixedKey, exchange := r.exchange[sender := Exchange(sent, true)]);
      Accepted(r', if AllReceived(r') then k else [], true)
  }

  /** One round of the forwarding loop: the peer gets an entry, and the mark when the send succeeded. */
  function ForwardOne(r: Record, peer: Name, sent: bool): Record {
    var ex := if peer in r.exchange then r.exchange[peer] else Exchange(false, false);
    r.(exchange := r.exchange[peer := Exchange(ex.sentTo || sent, ex.receivedFrom)])
  }

  /** A send is attempted only to a listed member that is not marked yet. */
  predicate Attempts(r: Record, peer: Name) {
    !SentTo(r, peer) && peer in r.members
  }

  /** The whole loop over `peers`, when the sends to `reachable` succeed. */
  function ForwardAll(r: Record, peers: seq<Name>, reachable: set<Name>): Record
    decreases |peers|
  {
    if peers == [] then r
    else
      var p := peers[0];
      ForwardAll(ForwardOne(r, p, Attempts(r, p) && p in reachable), peers[1..], reachable)
  }

  /** The peers the loop sends to successfully, in order. */
  function Deliveries(r: Record, peers: seq<Name>, reachable: set<Name>): seq<Name>
    decreases |peers|
  {
    if peers == [] then []
    else
      var p := peers[0];
      var sent := Attempts(r, p) && p in reachable;
      (if sent then [p] else []) + Deliveries(ForwardOne(r, p, sent), peers[1..], reachable)
  }

  /** `checkCleanup` keeps the record only if the lengths agree and some entry is unfinished. */
  predicate Unfinished(r: Record) {
    && |r.others| == |r.exchange|
    && exists n :: n in r.exchange && (!r.exchange[n].sentTo || !r.exchange[n].receivedFrom)
  }

  function Cleanup(r: Record): Record {
    if Unfinished(r) then r else Wiped()
  }

  // ------------------------------------------------------------- properties

  /** Once every other seed has an entry, cleanup wipes exactly when all are sent to and received from. */
  lemma CleanupIffDone(r: Record)
    requires WellFormed(r) && r.exchange.Keys == ToSet(r.others)
    ensures Cleanup(r) == Wiped() <==>
              r == Wiped() || forall n :: n in r.others ==> SentTo(r, n) && ReceivedFrom(r, n)
    ensures Cleanup(r) == Wiped() || Cleanup(r) == r
  {
    NoDupCardinality(r.others);
    assert |r.exchange| == |r.exchange.Keys|;
    assert forall n :: n in r.others <==> n in ToSet(r.others);
  }

  /** Forwarding to all other seeds gives every one of them an entry and never takes a mark away. */
  lemma {:induction false} ForwardAllCovers(r: Record, peers: seq<Name>, reachable: set<Name>)
    ensures var r' := ForwardAll(r, peers, reachable);
            && r'.exchange.Keys == r.exchange.Keys + ToSet(peers)
            && r'.others == r.others && r'.members == r.members && r'.generatedKey == r.generatedKey
            && (forall n :: ReceivedFrom(r', n) <==> ReceivedFrom(r, n))
            && (forall n :: SentTo(r', n) <==>
                  SentTo(r, n) || (n in peers && n in r.members && n in reachable))
    decreases |peers|
  {
    if peers != [] {
      var p := peers[0];
      var r1 := ForwardOne(r, p, Attempts(r, p) && p in reachable);
      ForwardAllCovers(r1, peers[1..], reachable);
      assert peers == [p] + peers[1..];
      assert ToSet(peers) == {p} + ToSet(peers[1..]);
    }
  }

  /** One forwarding run sends to each peer at most once, and only to peers it had not marked. */
  lemma {:induction false} DeliveriesOnce(r: Record, peers: seq<Name>, reachable: set<Name>)
    ensures NoDup(Deliveries(r, peers, reachable))
    ensures forall n :: n in Deliveries(r, peers, reachable) <==>
              n in peers && n in reachable && Attempts(r, n)
    decreases |peers|
  {
    if peers != [] {
      var p := peers[0];
      var sent := Attempts(r, p) && p in reachable;
      var r1 := ForwardOne(r, p, sent);
      DeliveriesOnce(r1, peers[1..], reachable);
      var tail := Deliveries(r1, peers[1..], reachable);
      assert peers == [p] + peers[1..];
      assert forall n :: n != p ==> (Attempts(r1, n) <==> Attempts(r, n));
      assert sent ==> p !in tail;
    }
  }

  lemma OneRound(r: Record, r': Record, peers: seq<Name>, reachable: set<Name>, sent: seq<Name>, sent': seq<Name>)
    requires peers != [] && r' == ForwardOne(r, peers[0], Attempts(r, peers[0]) && peers[0] in reachable)
    requires sent' == sent + if Attempts(r, peers[0]) && peers[0] in reachable then [peers[0]] else []
    ensures ForwardAll(r', peers[1..], reachable) == ForwardAll(r, peers, reachable)
    ensures sent' + Deliveries(r', peers[1..], reachable) == sent + Deliveries(r, peers, reachable)
  {
    var now := if Attempts(r, peers[0]) && peers[0] in reachable then [peers[0]] else [];
    assert Deliveries(r, peers, reachable) == now + Deliveries(r', peers[1..], reachable);
    assert (sent + now) + Deliveries(r', peers[1..], reachable) == sent + (now + Deliveries(r', peers[1..], reachable));
  }

  // ------------------------------------------------------------------ class

  class SeedNode {
    const id: Name
    var generatedKey: Bytes
    var exchange: map<Name, Exchange>
    var others: seq<Name>
    var members: seq<Name>
    /** Background work spawned so far: the keys of forwarding tasks, and cleanup tasks. */
    var forwards: seq<Bytes>
    var cleanups: nat
    /** The keys of the first rounds spawned so far. */
    var rounds: seq<Bytes>
    /** Names a key message was sent to successfully, oldest first. */
    var outbox: seq<Name>

    ghost function Value(): Record
      reads this
    {
      Record(generatedKey, exchange, others, members)
    }

    constructor (id: Name, others: seq<Name>)
      ensures Value() == Fresh(others) && forwards == [] && rounds == [] && cleanups == 0 && outbox == []
      ensures this.id == id
    {
      this.id := id;
      generatedKey, exchange, this.others, members := [], map[], others, [];
      forwards, rounds, cleanups, outbox := [], [], 0, [];
    }

    method HasReceivedKeysFromAllSeedPeers() returns (all: bool)
      ensures all == AllReceived(Value())
    {
      if |exchange| < |others| { return false; }
      var rest := exchange.Keys;
      while rest != {}
        invariant rest <= exchange.Keys
        invariant forall n :: n in exchange && n !in rest ==> exchange[n].receivedFrom
        decreases rest
      {
        var n :| n in rest;
        if !exchange[n].receivedFrom { return false; }
        rest := rest - {n};
      }
      return true;
    }

    method CheckCleanup()
      modifies this
      ensures Value() == Cleanup(old(Value()))
      ensures forwards == old(forwards) && rounds == old(rounds) && cleanups == old(cleanups) && outbox == old(outbox)
    {
      if |others| == |exchange| {
        var rest := exchange.Keys;
        while rest != {}
          invariant rest <= exchange.Keys
          invariant Value() == old(Value())
          invariant forwards == old(forwards) && rounds == old(rounds)
          invariant cleanups == old(cleanups) && outbox == old(outbox)
          invariant forall n :: n in exchange && n !in rest ==> exchange[n].sentTo && exchange[n].receivedFrom
          decreases rest
        {
          var n :| n in rest;
          if !exchange[n].sentTo || !exchange[n].receivedFrom { return; }
          rest := rest - {n};
        }
      }
      generatedKey, exchange, others, members := [], map[], [], [];
    }

    /** The sends to members in `reachable` succeed, the others fail. */
    method ForwardKeyToOtherSeedPeers(reachable: set<Name>)
      requires NoDup(members)
      modifies this
      ensures Value() == ForwardAll(old(Value()), old(others), reachable)
      ensures outbox == old(outbox) + Deliveries(old(Value()), old(others), reachable)
      ensures cleanups == old(cleanups) + 1 && forwards == old(forwards) && rounds == old(rounds)
    {
      var n := 0;
      ghost var rest := others;
      ghost var record := ForwardAll(Value(), others, reachable);
      ghost var sends := outbox + Deliveries(Value(), others, reachable);
      while n < |others|
        invariant 0 <= n <= |others| && rest == others[n..]
        invariant others == old(others) && members == old(members)
        invariant forwards == old(forwards) && rounds == old(rounds) && cleanups == old(cleanups)
        invariant ForwardAll(Value(), rest, reachable) == record
        invariant outbox + Deliveries(Value(), rest, reachable) == sends
      {
        ghost var before, sent := Value(), outbox;
        assert rest[0] == others[n] && rest[1..] == others[n + 1..];
        ForwardToPeer(others[n], reachable);
        OneRound(before, Value(), rest, reachable, sent, outbox);
        rest := rest[1..];
        n := n + 1;
      }
      assert rest == [] && outbox + [] == outbox;
      cleanups := cleanups + 1;
    }

    /** One round of the forwarding loop. */
    method ForwardToPeer(p: Name, reachable: set<Name>)
      requires NoDup(members)
      modifies this
      ensures Value() == ForwardOne(old(Value()), p, Attempts(old(Value()), p) && p in reachable)
      ensures outbox == old(outbox) + if Attempts(old(Value()), p) && p in reachable then [p] else []
      ensures forwards == old(forwards) && rounds == old(rounds) && cleanups == old(cleanups)
    {
      if p !in exchange {
        exchange := exchange[p := Exchange(false, false)];
      }
      if !exchange[p].sentTo {
        SendToMembersNamed(p, reachable);
      }
    }

    /** The inner loop over the members, of which at most one bears the name. */
    method SendToMembersNamed(p: Name, reachable: set<Name>)
      requires NoDup(members) && p in exchange && !exchange[p].sentTo
      modifies this
      ensures others == old(others) && members == old(members) && generatedKey == old(generatedKey)
      ensures forwards == old(forwards) && rounds == old(rounds) && cleanups == old(cleanups)
      ensures exchange == old(exchange)[p := Exchange(p in members && p in reachable, old(exchange)[p].receivedFrom)]
      ensures outbox == old(outbox) + if p in members && p in reachable then [p] else []
    {
      var k := 0;
      while k < |members|
        invariant 0 <= k <= |members|
        invariant others == old(others) && members == old(members) && generatedKey == old(generatedKey)
        invariant forwards == old(forwards) && rounds == old(rounds) && cleanups == old(cleanups)
        invariant p in exchange
        invariant exchange ==
                    old(exchange)[p := Exchange(p in members[..k] && p in reachable, old(exchange)[p].receivedFrom)]
        invariant outbox == old(outbox) + if p in members[..k] && p in reachable then [p] else []
      {
        assert members[..k + 1] == members[..k] + [members[k]];
        if members[k] == p {
          assert p !in members[..k];
          if p in reachable {
            outbox := outbox + [p];
            exchange := exchange[p := exchange[p].(sentTo := true)];
          }
        }
        k := k + 1;
      }
      assert members[..k] == members;
    }

    /** Starting as master panics on a key of the wrong size. */
    method StartSeedAsMaster(key: Bytes, otherMembers: seq<Name>) returns (ok: bool)
      modifies this
      ensures ok <==> |key| == KEY_SIZE
      ensures Value() == if ok then StartMaster(old(Value()), key, otherMembers) else old(Value())
      ensures rounds == old(rounds) + if ok then [key] else []
      ensures forwards == old(forwards) && cleanups == old(cleanups) && outbox == old(outbox)
    {
      ok := |key| == KEY_SIZE;
      if ok {
        generatedKey, exchange, members := key, map[], otherMembers;
        rounds := rounds + [key];
      }
    }

    method StartSeedAsSlave(otherMembers: seq<Name>)
      modifies this
      ensures Value() == StartSlave(old(Value()), otherMembers)
      ensures forwards == old(forwards) && rounds == old(rounds) && cleanups == old(cleanups) && outbox == old(outbox)
    {
      generatedKey, exchange, members := DUMMY_KEY, map[], otherMembers;
    }

    /** `completed` is the key once every other seed has sent it, and empty before. */
    method KeyReceivedFrom(k: Bytes, sender: Name) returns (panicked: bool, completed: Bytes)
      modifies this
      ensures panicked <==> Panics(KeyReceived(old(Value()), k, sender))
      ensures panicked ==> completed == []
      ensures !panicked ==>
                var out := KeyReceived(old(Value()), k, sender);
                && Value() == out.record
                && completed == out.completed
                && forwards == old(forwards) + (if out.forward then [k] else [])
                && rounds == old(rounds) && cleanups == old(cleanups) && outbox == old(outbox)
    {
      panicked, completed := true, [];
      if sender !in others { return; }
      if |k| != KEY_SIZE { return; }
      if generatedKey == [] { return false, []; }
      if generatedKey == DUMMY_KEY { generatedKey := k; }
      if k != generatedKey { return; }
      panicked := false;
      if sender !in exchange {
        exchange := exchange[sender := Exchange(false, true)];
      } else {
        exchange := exchange[sender := exchange[sender].(receivedFrom := true)];
      }
      forwards := forwards + [k];
      var all := HasReceivedKeysFromAllSeedPeers();
      if all { completed := k; }
    }
  }
}
