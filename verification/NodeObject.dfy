/**
 * The node as the program has it: an object whose handlers update the status, the key store, the seeding
 * record and the queues in place. Every method is proved to do, run without interference, what the
 * transition system of `Protocol` does in the corresponding step.
 */
module NodeObject {
  import opened Basics
  import opened Vault
  import opened Names
  import opened Protocol
  import Hex
  import KeyStore
  import Seed

  /** The state with which the step function leaves the node once a completed seeding is stored as well. */
  function Stored(id: Name, n: Node): Node {
    if n.proc.Some? && n.proc.value.loop.Complete?
    then CompleteSeeding(n, n.proc.value, id, n.proc.value.loop.key).node
    else n
  }

  // ------------------------------------------------------ one forwarding pass

  /** The process after the remaining rounds of its forwarding loop, when the sends to `reachable` succeed. */
  function ForwardRounds(n: Node, p: Proc, reachable: set<Name>): Proc
    requires p.lock.Forwarding?
    decreases |p.lock.rest|
  {
    if p.lock.rest == [] then p
    else
      var st := ForwardNext(n, p, p.lock.rest[0] in reachable);
      ForwardRounds(n, st.node.proc.value, reachable)
  }

  /** The peers these rounds send to. */
  function ForwardSends(n: Node, p: Proc, reachable: set<Name>): seq<Name>
    requires p.lock.Forwarding?
    decreases |p.lock.rest|
  {
    if p.lock.rest == [] then []
    else
      var st := ForwardNext(n, p, p.lock.rest[0] in reachable);
      (if st.out.Send? then [st.out.dst] else []) + ForwardSends(n, st.node.proc.value, reachable)
  }

  /** The steps of the transition system do what the loop of `SeedNode` does. */
  lemma {:induction false} RoundsAreLoop(n: Node, p: Proc, reachable: set<Name>)
    requires p.lock.Forwarding?
    ensures ForwardRounds(n, p, reachable) ==
            p.(seed := Seed.ForwardAll(p.seed, p.lock.rest, reachable), lock := Forwarding(p.lock.key, []))
    ensures ForwardSends(n, p, reachable) == Seed.Deliveries(p.seed, p.lock.rest, reachable)
    decreases |p.lock.rest|
  {
    if p.lock.rest != [] {
      RoundsAreLoop(n, ForwardNext(n, p, p.lock.rest[0] in reachable).node.proc.value, reachable);
    }
  }

  /**
   * An undisturbed pass over the other seeds gives each of them an entry, marks and sends to exactly those
   * that are listed, reachable and not marked before, and sends to none twice.
   */
  lemma ForwardPass(n: Node, p: Proc, reachable: set<Name>)
    requires p.lock.Forwarding? && p.lock.rest == p.seed.others
    ensures var r, r' := p.seed, ForwardRounds(n, p, reachable).seed;
            && r'.exchange.Keys == r.exchange.Keys + ToSet(r.others) && r'.generatedKey == r.generatedKey
            && (forall x :: Seed.ReceivedFrom(r', x) <==> Seed.ReceivedFrom(r, x))
            && (forall x :: Seed.SentTo(r', x) <==>
               Seed.SentTo(r, x) || (x in r.others && x in r.members && x in reachable))
    ensures NoDup(ForwardSends(n, p, reachable))
    ensures forall x :: x in ForwardSends(n, p, reachable) <==>
              x in p.seed.others && x in reachable && Seed.Attempts(p.seed, x)
  {
    RoundsAreLoop(n, p, reachable);
    Seed.ForwardAllCovers(p.seed, p.seed.others, reachable);
    Seed.DeliveriesOnce(p.seed, p.seed.others, reachable);
  }

  // --------------------------------------------------------------- the object

  /** What a waiting node decides in one round of its loop. */
  datatype Decision = AskForKey | BeginSeed | Wait

  class ClusterNode {
    const id: Name
    const seedNodes: seq<Name>
    const suite: Suite
    const masterKs: KeyStore.MasterKeyStore
    const seed: Seed.SeedNode
    var status: Status
    /** The queue of state changes for the listener, and the answers spawned but not sent yet. */
    var notes: seq<Status>
    var replies: multiset<Reply>
    /** The spawned question to a peer and the spawned initial send. */
    var ask: Ask
    var initial: Initial

    /** A node in state 0 with its seed lists, `others` being the seeds without itself. */
    constructor (self: Name, configuredSeeds: seq<Name>, others: seq<Name>, s: Suite, onDisk: Option<Member>)
      ensures id == self && suite == s && masterKs.file == onDisk && masterKs.nodeId == self
      ensures seedNodes == configuredSeeds && AsProc(FreshProc(others)) == FreshProc(others)
      ensures fresh(masterKs) && fresh(seed)
    {
      id, seedNodes, suite := self, configuredSeeds, s;
      masterKs := new KeyStore.MasterKeyStore(self, onDisk);
      seed := new Seed.SeedNode(self, others);
      status, notes, replies, ask, initial := Booting, [], multiset{}, NoAsk, NoInitial;
    }

    /** The process `p`, with the parts this object holds taken from it. */
    ghost function AsProc(p: Proc): Proc
      reads this, masterKs, seed
    {
      p.(status := status, seed := seed.Value(), forwards := multiset(seed.forwards), cache := masterKs.cached,
         notes := notes, replies := replies, ask := ask, initial := initial)
    }

    /** The object holds exactly the state of node `n`; where its threads are is in `n` alone. */
    ghost predicate Represents(n: Node)
      reads this, masterKs, seed
    {
      n.disk == masterKs.file && n.proc.Some? && AsProc(n.proc.value) == n.proc.value && masterKs.nodeId == id
    }

    /** The object did what the step function says, or panicked with it. */
    ghost predicate Simulates(st: Step, panicked: bool)
      reads this, masterKs, seed
    {
      (panicked <==> st.Panic?) && (st.Step? ==> Represents(Stored(id, st.node)))
    }

    method SetStatus(st: Status)
      modifies this`status, this`notes
      ensures status == st && notes == old(notes) + [st]
    {
      status := st;
      notes := notes + [st];
    }

    /** The first read of `Start`: a seed with a key uses it, any other node validates it, without one it waits. */
    method ReadAtStart(c: Config, ghost n: Node) returns (pc: StartPc)
      requires Represents(n) && id in c.seedLists && c.seedLists[id] == ToSet(seedNodes) && n.proc.value.pc.AtStart?
      modifies masterKs`cached
      ensures var st := ProcStep(c, id, n, n.proc.value, Label.StartRead(id));
              st.Step? && Represents(st.node) && st.node.proc.value.pc == pc
    {
      var localId := masterKs.Read();
      pc := if localId.None? then NoKeyBegin else if id in seedNodes then OwnKey else Validate;
      assert id in seedNodes <==> id in ToSet(seedNodes);
    }

    method MembersCanProvideKey(view: seq<Peer>) returns (can: bool)
      ensures can == CanProvide(view)
    {
      var k := 0;
      while k < |view|
        invariant 0 <= k <= |view| && forall j :: 0 <= j < k ==> !view[j].ready
      {
        if view[k].ready { return true; }
        k := k + 1;
      }
      can := false;
    }

    /** The peer a joining node asks: the first READY member that is not the node itself. */
    method FirstReadyOther(view: seq<Peer>) returns (to: Option<Name>)
      ensures to == if ReadyOthers(view, id) == [] then None else Some(ReadyOthers(view, id)[0])
    {
      var k := 0;
      while k < |view|
        invariant 0 <= k <= |view| && ReadyOthers(view[k..], id) == ReadyOthers(view, id)
      {
        assert view[k..][1..] == view[k + 1..];
        if view[k].name != id && view[k].ready { return Some(view[k].name); }
        k := k + 1;
      }
      to := None;
    }

    /** One round of the waiting loop: the guards of the steps that leave NO_KEY. */
    method DecideOnNoKey(view: seq<Peer>) returns (d: Decision)
      requires id != []
      ensures d == AskForKey <==> CanProvide(view)
      ensures d == BeginSeed <==>
                !CanProvide(view) && id in seedNodes && forall x :: x in seedNodes && x != [] ==> Listed(view, x)
    {
      var can := MembersCanProvideKey(view);
      if can { return AskForKey; }
      if id !in seedNodes { return Wait; }
      var seedSet := new StringSet();
      seedSet.AddAll(seedNodes);
      seedSet.Add(id);
      var seeds := seedSet.Sorted();
      var k := 0;
      while k < |seeds|
        invariant 0 <= k <= |seeds| && forall j :: 0 <= j < k ==> Listed(view, seeds[j])
      {
        var joined := IsListed(view, seeds[k]);
        if !joined {
          assert seeds[k] in ToSet(seeds);
          return Wait;
        }
        k := k + 1;
      }
      forall x | x in seedNodes && x != [] ensures Listed(view, x) {
        assert x in ToSet(seeds);
      }
      d := BeginSeed;
    }

    method IsListed(view: seq<Peer>, x: Name) returns (b: bool)
      ensures b == Listed(view, x)
    {
      var k := 0;
      while k < |view|
        invariant 0 <= k <= |view| && forall j :: 0 <= j < k ==> view[j].name != x
      {
        if view[k].name == x { return true; }
        k := k + 1;
      }
      b := false;
    }

    /** The READY members other than the node itself, in member order. */
    method ReadyPeers(view: seq<Peer>) returns (others: seq<Name>)
      ensures others == ReadyOthers(view, id)
    {
      others := [];
      var k := 0;
      while k < |view|
        invariant 0 <= k <= |view| && others + ReadyOthers(view[k..], id) == ReadyOthers(view, id)
      {
        assert view[k..][1..] == view[k + 1..];
        if view[k].name != id && view[k].ready { others := others + [view[k].name]; }
        k := k + 1;
      }
      assert view[k..] == [];
    }

    method StartQueryKey(view: seq<Peer>, ghost n: Node)
      requires Represents(n)
      modifies this
      ensures var p := Protocol.SetStatus(n.proc.value, Status.QueryKey).(ask := AskKey(ReadyOthers(view, id)));
              Represents(n.(proc := Some(p)))
    {
      SetStatus(Status.QueryKey);
      var others := ReadyPeers(view);
      ask := AskKey(others);
    }

    /** The online members other than the node itself, in member order. */
    method OtherPeers(peers: seq<Name>) returns (others: seq<Name>)
      ensures others == Without(peers, id)
    {
      others := [];
      var k := 0;
      while k < |peers|
        invariant 0 <= k <= |peers| && others + Without(peers[k..], id) == Without(peers, id)
      {
        assert peers[k..][1..] == peers[k + 1..];
        if peers[k] != id { others := others + [peers[k]]; }
        k := k + 1;
      }
      assert peers[k..] == [];
    }

    /** `Node.seed`: the election decides whether this node makes the key or waits for it. */
    method StartSeeding(peers: seq<Name>, random: Bytes, ghost n: Node)
      requires Represents(n) && id != [] && |random| == KEY_SIZE
      modifies this, seed
      ensures var st := BeginSeeding(n, n.proc.value, id, peers, random, Elected(id, n.proc.value.seed.others) == id);
              st.Step? && Represents(st.node.(proc := Some(st.node.proc.value.(pc := n.proc.value.pc))))
    {
      SetStatus(Seeding);
      var others := OtherPeers(peers);
      var first := First(id, seed.others);
      if first == id {
        var ok := seed.StartSeedAsMaster(random, others);
        initial := Spawned(random);
      } else {
        seed.StartSeedAsSlave(others);
      }
    }

    method HandleSeedKey(k: Bytes, sender: Name, ghost n: Node) returns (panicked: bool)
      requires Represents(n)
      modifies this, seed, masterKs
      ensures Simulates(Protocol.HandleSeedKey(n, n.proc.value, k, sender), panicked)
      ensures panicked ==> masterKs.file == old(masterKs.file)
    {
      var completed;
      panicked, completed := seed.KeyReceivedFrom(k, sender);
      if panicked { return; }
      assert multiset(old(seed.forwards) + [k]) == multiset(old(seed.forwards)) + multiset{k};
      if |completed| > 0 {
        masterKs.Write(Hex.Encode(completed));
        SetStatus(Ready);
      }
    }

    method HandleQueryKey(sender: Name, ghost n: Node) returns (panicked: bool)
      requires Represents(n)
      modifies this, masterKs
      ensures Simulates(Protocol.HandleQueryKey(n, n.proc.value, sender), panicked)
    {
      var mk := masterKs.Read();
      if mk.None? { return true; }
      var k := Hex.Decode(mk.value.secret);
      if k.None? { return true; }
      replies := replies + multiset{KeyReply(sender, k.value)};
      panicked := false;
    }

    method HandleKeyResponse(key: Bytes, ghost n: Node)
      requires Represents(n)
      modifies this, masterKs
      ensures Simulates(Protocol.HandleKeyResponse(n, n.proc.value, id, key), false)
    {
      masterKs.Write(Hex.Encode(key));
      SetStatus(Ready);
    }

    method HandleKeyChallengeRequest(c: Config, data: Bytes, sender: Name, random: Bytes, ghost n: Node)
      returns (panicked: bool)
      requires Represents(n) && c.suite == suite
      modifies this, masterKs
      ensures Simulates(HandleChallenge(c, n, n.proc.value, data, sender, random), panicked)
    {
      var localId := masterKs.Read();
      if localId.None? { return true; }
      var enc := Seal(suite, localId.value, random, data);
      if enc.Err? { return true; }
      replies := replies + multiset{ChallengeReply(sender, enc.value)};
      panicked := false;
    }

    method HandleKeyChallengeResponse(c: Config, box: Bytes, ghost n: Node) returns (panicked: bool)
      requires Represents(n) && c.suite == suite
      modifies this, masterKs
      ensures Simulates(HandleChallengeResponse(c, n, n.proc.value, box), panicked)
    {
      var localId := masterKs.Read();
      if localId.None? { return true; }
      var dec := Unseal(suite, localId.value, box);
      if dec.Err? { return true; }
      if dec.value != localId.value.id { return true; }
      SetStatus(Ready);
      panicked := false;
    }

    /** One round of the message loop with the status it has read. */
    method LoopOnce(c: Config, m: Msg, random: Bytes, ghost n: Node) returns (panicked: bool)
      requires Represents(n) && c.suite == suite
      modifies this, seed, masterKs
      ensures Simulates(Dispatch(c, id, n, n.proc.value, m, old(status), random), panicked)
    {
      panicked := false;
      match status
      case Seeding => if m.body.KeyInit? { panicked := HandleSeedKey(m.body.key, m.src, n); }
      case Ready =>
        if m.body.KeyQuery? {
          panicked := HandleQueryKey(m.src, n);
        } else if m.body.Challenge? {
          panicked := HandleKeyChallengeRequest(c, m.body.data, m.src, random, n);
        }
      case Validating => if m.body.ChallengeResp? { panicked := HandleKeyChallengeResponse(c, m.body.box, n); }
      case QueryKey => if m.body.KeyResp? { HandleKeyResponse(m.body.key, n); }
      case Booting =>
      case NoKey =>
    }
  }

  /** `NewNode`: the configured seeds sorted, and the same without the node itself. */
  method NewNode(self: Name, configured: seq<Name>, s: Suite, onDisk: Option<Member>) returns (node: ClusterNode)
    ensures fresh(node) && fresh(node.masterKs) && fresh(node.seed)
    ensures node.id == self && node.suite == s && node.masterKs.file == onDisk && node.masterKs.nodeId == self
    ensures node.seedNodes == SortedOf(Added(configured))
    ensures node.seed.Value() == Seed.Fresh(OtherSeeds(Added(configured), self))
  {
    var seedNodes := new StringSet();
    seedNodes.AddAll(configured);
    assert seedNodes.m == Added(configured);
    var sorted := seedNodes.Sorted();
    seedNodes.Remove(self);
    var others := seedNodes.Sorted();
    node := new ClusterNode(self, sorted, others, s, onDisk);
    assert node.AsProc(FreshProc(others)).seed == Seed.Fresh(others);
  }

  /** The latch the bootstrap thread waits on. */
  class NodeStateListener {
    var done: bool
    var countdown: int

    ghost predicate Valid()
      reads this
    {
      countdown == if done then 0 else 1
    }

    constructor ()
      ensures Valid() && !done
    {
      done, countdown := false, 1;
    }

    /** The countdown reaches zero with the first READY and never goes below. */
    method OnStateChanged(state: Status)
      requires Valid()
      modifies this
      ensures Valid() && done == (old(done) || state == Ready)
    {
      if !done && state == Ready {
        done := true;
        countdown := countdown - 1;
      }
    }

    /** Delivering a whole queue opens the latch exactly when READY is in it, as the notifier's steps do. */
    method NotifyAll(p: Proc) returns (latched: bool)
      requires Valid() && done == p.latched
      modifies this
      ensures Valid() && latched == done == (p.latched || Ready in p.notes)
    {
      var k := 0;
      while k < |p.notes|
        invariant 0 <= k <= |p.notes| && Valid() && done == (p.latched || Ready in p.notes[..k])
      {
        assert p.notes[..k + 1] == p.notes[..k] + [p.notes[k]];
        OnStateChanged(p.notes[k]);
        k := k + 1;
      }
      assert p.notes[..k] == p.notes;
      latched := done;
    }
  }
}
