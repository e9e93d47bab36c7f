/**
 * The one panic that crashes can cause is reachable: a master that crashes in mid-seeding and starts over
 * with another key is sent its first key by a seed that had received it.
 */
module Mismatch {
  import opened Basics
  import opened Vault
  import opened Names
  import opened Protocol
  import opened Preserve
  import opened CrashFree
  import opened Exactness
  import opened Scenarios
  import Seed

  // ------------------------------------------------------- steps of one node

  /** A step of node `l.i` to `n'` that emits `out`. */
  lemma Walk(c: Config, ls: seq<Label>, s: State, l: Label, n': Node, out: Out) returns (ls': seq<Label>, s': State)
    requires Exec(c, ls) == Some(s) && l.i in s.nodes && l.i in c.seedLists && ViewOf(s, l)
    requires (l.Take? ==> l.msg in s.net)
    requires LocalEnabled(c, l.i, s.nodes[l.i], l) && LocalStep(c, l.i, s.nodes[l.i], l) == Step(n', out)
    requires out.Send? ==> out.dst in s.nodes && s.nodes[out.dst].proc.Some?
    ensures Exec(c, ls') == Some(s') && s'.nodes == s.nodes[l.i := n']
    ensures s'.net == (if l.Take? then s.net - multiset{l.msg} else s.net) + multiset(Posted(s, l.i, Step(n', out)))
  {
    ls', s' := Go(c, ls, s, l, n', Posted(s, l.i, Step(n', out)));
  }

  /** A step that sends nothing and takes no message. */
  lemma Stroll(c: Config, ls: seq<Label>, s: State, l: Label, n': Node) returns (ls': seq<Label>, s': State)
    requires Exec(c, ls) == Some(s) && l.i in s.nodes && l.i in c.seedLists && ViewOf(s, l) && !l.Take?
    requires LocalEnabled(c, l.i, s.nodes[l.i], l) && LocalStep(c, l.i, s.nodes[l.i], l) == Step(n', Silent)
    ensures Exec(c, ls') == Some(s') && s'.nodes == s.nodes[l.i := n'] && s'.net == s.net
  {
    ls', s' := Walk(c, ls, s, l, n', Silent);
    assert s.net + multiset({}) == s.net;
  }

  ghost function Booted(c: Config, i: Name, n: Node, p: Proc): Node {
    Node(n.inc + 1, n.disk, Some(p), n.fixed, n.won)
  }

  lemma LocalBoot(c: Config, i: Name, n: Node)
    requires i in c.seedLists && Asleep(n)
    ensures LocalEnabled(c, i, n, Boot(i))
    ensures LocalStep(c, i, n, Boot(i)) == Step(Booted(c, i, n, FreshProc(Others(c, i))), Silent)
  {
  }

  lemma LocalRead(c: Config, i: Name, n: Node)
    requires i in c.seedLists && n.disk.None? && n.proc == Some(FreshProc(Others(c, i)))
    ensures LocalEnabled(c, i, n, StartRead(i))
    ensures LocalStep(c, i, n, StartRead(i)) ==
            Step(n.(proc := Some(FreshProc(Others(c, i)).(pc := NoKeyBegin))), Silent)
  {
  }

  lemma LocalNoKey(c: Config, i: Name, n: Node)
    requires i in c.seedLists && n.proc == Some(FreshProc(Others(c, i)).(pc := NoKeyBegin))
    ensures LocalEnabled(c, i, n, EnterNoKey(i))
    ensures LocalStep(c, i, n, EnterNoKey(i)) == Step(n.(proc := Some(Waker(Others(c, i)))), Silent)
  {
  }

  lemma WakeBooted(c: Config, ls: seq<Label>, s: State, i: Name) returns (ls': seq<Label>, s': State)
    requires Exec(c, ls) == Some(s) && i in s.nodes && i in c.seedLists && Asleep(s.nodes[i])
    ensures Exec(c, ls') == Some(s') && s'.net == s.net
    ensures s'.nodes == s.nodes[i := Booted(c, i, s.nodes[i], FreshProc(Others(c, i)))]
  {
    LocalBoot(c, i, s.nodes[i]);
    ls', s' := Stroll(c, ls, s, Boot(i), Booted(c, i, s.nodes[i], FreshProc(Others(c, i))));
  }

  lemma WakeFurther(c: Config, ls: seq<Label>, s: State, i: Name, n: Node) returns (ls': seq<Label>, s': State)
    requires Exec(c, ls) == Some(s) && i in s.nodes && i in c.seedLists && s.nodes[i] == n
    requires n.disk.None? && n.proc == Some(FreshProc(Others(c, i)))
    ensures Exec(c, ls') == Some(s') && s'.net == s.net
    ensures s'.nodes == s.nodes[i := n.(proc := Some(Waker(Others(c, i))))]
  {
    var n1 := n.(proc := Some(FreshProc(Others(c, i)).(pc := NoKeyBegin)));
    LocalRead(c, i, n);
    var ls1, s1 := Stroll(c, ls, s, StartRead(i), n1);
    LocalNoKey(c, i, n1);
    ls', s' := Stroll(c, ls1, s1, EnterNoKey(i), n1.(proc := Some(Waker(Others(c, i)))));
  }

  lemma Overwritten(nodes: map<Name, Node>, i: Name, n1: Node, n2: Node)
    ensures nodes[i := n1][i := n2] == nodes[i := n2]
  {
  }

  lemma BootedThen(c: Config, i: Name, n: Node, p: Proc, q: Proc)
    ensures Booted(c, i, n, p).(proc := Some(q)) == Booted(c, i, n, q)
    ensures Booted(c, i, n, p).disk == n.disk && Booted(c, i, n, p).proc == Some(p)
  {
  }

  /** A node without a file starts and waits in NO_KEY. */
  lemma Wake(c: Config, ls: seq<Label>, s: State, i: Name) returns (ls': seq<Label>, s': State)
    requires Exec(c, ls) == Some(s) && i in s.nodes && i in c.seedLists && Asleep(s.nodes[i])
    ensures Exec(c, ls') == Some(s') && s'.net == s.net
    ensures s'.nodes == s.nodes[i := Booted(c, i, s.nodes[i], Waker(Others(c, i)))]
  {
    var n, p, q := s.nodes[i], FreshProc(Others(c, i)), Waker(Others(c, i));
    var ls1, s1 := WakeBooted(c, ls, s, i);
    BootedThen(c, i, n, p, q);
    ls', s' := WakeFurther(c, ls1, s1, i, Booted(c, i, n, p));
    Overwritten(s.nodes, i, Booted(c, i, n, p), Booted(c, i, n, q));
  }

  ghost function StartLabel(seeds: set<Name>, i: Name, o: Name, key: Bytes): Label
    requires seeds != {}
  {
    StartSeed(i, Unready(SortedOf(seeds)), [o], key, i == Least(seeds))
  }

  function Begins(n: Node, others: seq<Name>, o: Name, key: Bytes, master: bool): Node {
    if master then n.(proc := Some(Master(others, [o], key)), fixed := n.fixed[n.inc := key])
    else n.(proc := Some(Slave(others, [o])))
  }

  lemma LocalCanBegin(c: Config, seeds: set<Name>, i: Name, o: Name, n: Node, key: Bytes)
    requires FreshCluster(c, seeds) && i in c.names && i in seeds && |key| == KEY_SIZE
    requires n.proc == Some(Waker(Others(c, i)))
    ensures LocalEnabled(c, i, n, StartLabel(seeds, i, o, key))
  {
    ElectsLeast(c, seeds, i);
    var l := StartLabel(seeds, i, o, key);
    forall x | x in c.seedLists[i] ensures Listed(l.view, x) {
      assert x in ToSet(SortedOf(seeds));
      ViewLists(SortedOf(seeds), x);
    }
    assert !CanProvide(l.view);
  }

  lemma BeginsIsSeeding(n: Node, others: seq<Name>, i: Name, o: Name, key: Bytes, master: bool)
    requires o != i
    ensures BeginSeeding(n, Waker(others), i, [o], key, master) == Step(Begins(n, others, o, key, master), Silent)
  {
    assert Without([o], i) == [o] by { assert [o][1..] == []; }
  }

  lemma LocalBegin(c: Config, seeds: set<Name>, i: Name, o: Name, n: Node, key: Bytes)
    requires FreshCluster(c, seeds) && i in c.names && i in seeds && o != i && |key| == KEY_SIZE
    requires n.proc == Some(Waker(Others(c, i)))
    ensures var l := StartLabel(seeds, i, o, key);
            && LocalEnabled(c, i, n, l)
            && LocalStep(c, i, n, l) == Step(Begins(n, Others(c, i), o, key, i == Least(seeds)), Silent)
  {
    LocalCanBegin(c, seeds, i, o, n, key);
    BeginsIsSeeding(n, Others(c, i), i, o, key, i == Least(seeds));
  }

  /** A waiting seed begins, with one peer in its member list. */
  lemma BeginWith(c: Config, seeds: set<Name>, ls: seq<Label>, s: State, i: Name, o: Name, key: Bytes)
    returns (ls': seq<Label>, s': State)
    requires FreshCluster(c, seeds) && i in c.names && i in seeds && o != i && |key| == KEY_SIZE
    requires Exec(c, ls) == Some(s) && i in s.nodes && s.nodes[i].proc == Some(Waker(Others(c, i)))
    ensures Exec(c, ls') == Some(s') && s'.net == s.net
    ensures s'.nodes == s.nodes[i := Begins(s.nodes[i], Others(c, i), o, key, i == Least(seeds))]
  {
    LocalBegin(c, seeds, i, o, s.nodes[i], key);
    ls', s' := Stroll(c, ls, s, StartLabel(seeds, i, o, key),
                      Begins(s.nodes[i], Others(c, i), o, key, i == Least(seeds)));
  }

  lemma LocalFirstRound(c: Config, i: Name, n: Node, p: Proc, key: Bytes, o: Name)
    requires i in c.seedLists && n.proc == Some(p) && p.initial == Spawned(key) && p.seed.members == [o]
    ensures var n1 := n.(proc := Some(p.(initial := Sending(key, [o]))));
            && LocalEnabled(c, i, n, InitialStart(i)) && LocalStep(c, i, n, InitialStart(i)) == Step(n1, Silent)
            && LocalEnabled(c, i, n1, InitialPeer(i, true))
            && LocalStep(c, i, n1, InitialPeer(i, true)) ==
               Step(n.(proc := Some(p.(initial := Sending(key, [])))), Send(o, KeyInit(key)))
  {
    assert [o][1..] == [];
  }

  /** The master sends its key to the one peer it lists. */
  lemma SendFirst(c: Config, ls: seq<Label>, s: State, i: Name, p: Proc, key: Bytes, o: Name)
    returns (ls': seq<Label>, s': State)
    requires Exec(c, ls) == Some(s) && i in s.nodes && i in c.seedLists && s.nodes[i].proc == Some(p)
    requires p.initial == Spawned(key) && p.seed.members == [o] && o != i && o in s.nodes && s.nodes[o].proc.Some?
    ensures Exec(c, ls') == Some(s')
    ensures s'.nodes == s.nodes[i := s.nodes[i].(proc := Some(p.(initial := Sending(key, []))))]
    ensures s'.net == s.net + multiset{Msg(i, s.nodes[i].inc, o, s.nodes[o].inc, KeyInit(key))}
  {
    var n := s.nodes[i];
    var n1 := n.(proc := Some(p.(initial := Sending(key, [o]))));
    LocalFirstRound(c, i, n, p, key, o);
    var ls1, s1 := Stroll(c, ls, s, InitialStart(i), n1);
    var m := Msg(i, n.inc, o, s.nodes[o].inc, KeyInit(key));
    var n2 := n.(proc := Some(p.(initial := Sending(key, []))));
    assert Posted(s1, i, Step(n2, Send(o, KeyInit(key)))) == {m};
    ls', s' := Walk(c, ls1, s1, InitialPeer(i, true), n2, Send(o, KeyInit(key)));
    assert multiset({m}) == multiset{m};
  }

  lemma LocalTakes(c: Config, i: Name, n: Node, p: Proc, m: Msg)
    requires i in c.seedLists && n.proc == Some(p) && p.loop == Idle && p.status == Seeding && p.pc == Finished
    requires m.dst == i && m.dstInc == n.inc
    ensures LocalEnabled(c, i, n, Take(i, m))
    ensures LocalStep(c, i, n, Take(i, m)) == Step(n.(proc := Some(p.(loop := Got(m, Seeding)))), Silent)
  {
  }

  /** A seed in SEEDING reads a message. */
  lemma Read(c: Config, ls: seq<Label>, s: State, i: Name, p: Proc, m: Msg) returns (ls': seq<Label>, s': State)
    requires Exec(c, ls) == Some(s) && i in s.nodes && i in c.seedLists && s.nodes[i].proc == Some(p)
    requires p.loop == Idle && p.status == Seeding && p.pc == Finished && m in s.net && m.dst == i
    requires m.dstInc == s.nodes[i].inc
    ensures Exec(c, ls') == Some(s') && s'.nodes == s.nodes[i := s.nodes[i].(proc := Some(p.(loop := Got(m, Seeding))))]
  {
    LocalTakes(c, i, s.nodes[i], p, m);
    ls', s' := Walk(c, ls, s, Take(i, m), s.nodes[i].(proc := Some(p.(loop := Got(m, Seeding)))), Silent);
  }

  // ------------------------------------------------------------- the receiver

  /** The seed that received `key` from `a` and has it to forward. */
  ghost predicate HasReceived(n: Node, others: seq<Name>, a: Name, key: Bytes) {
    && n.proc.Some?
    && var p := n.proc.value;
       && p.seed.others == others && p.seed.members == [a] && !Seed.SentTo(p.seed, a)
       && p.lock == Unlocked && p.forwards == multiset{key}
  }

  lemma LocalAccepts(c: Config, b: Name, n: Node, a: Name, m: Msg, others: seq<Name>)
    requires b in c.seedLists && n.proc == Some(Slave(others, [a]).(loop := Got(m, Seeding)))
    requires m.src == a && a in others && m.body.KeyInit? && |m.body.key| == KEY_SIZE
    ensures LocalEnabled(c, b, n, Handle(b, []))
    ensures var st := LocalStep(c, b, n, Handle(b, []));
            && st.Step? && st.out == Silent && HasReceived(st.node, others, a, m.body.key)
            && st.node.inc == n.inc
  {
    HandleIsDispatch(c, b, n, Handle(b, []));
    var p := n.proc.value;
    assert Seed.KeyReceived(p.seed, m.body.key, a).Accepted?;
    SeedKeyShape(n, p, m.body.key, a);
    assert multiset{} + multiset{m.body.key} == multiset{m.body.key};
  }

  lemma LocalForwards(c: Config, b: Name, n: Node, a: Name, key: Bytes, others: seq<Name>)
    requires b in c.seedLists && HasReceived(n, others, a, key) && others != [] && others[0] == a
    ensures var p := n.proc.value;
            var n1 := n.(proc := Some(p.(forwards := multiset{}, lock := Forwarding(key, others))));
            && LocalEnabled(c, b, n, ForwardStart(b, key))
            && LocalStep(c, b, n, ForwardStart(b, key)) == Step(n1, Silent)
            && LocalEnabled(c, b, n1, ForwardPeer(b, true))
            && LocalStep(c, b, n1, ForwardPeer(b, true)).Step?
            && LocalStep(c, b, n1, ForwardPeer(b, true)).out == Send(a, KeyInit(key))
  {
    assert multiset{key} - multiset{key} == multiset{};
  }

  /** It forwards the key to `a`, whichever incarnation of `a` is running. */
  lemma ForwardFirst(c: Config, ls: seq<Label>, s: State, b: Name, a: Name, key: Bytes, others: seq<Name>)
    returns (ls': seq<Label>, s': State)
    requires Exec(c, ls) == Some(s) && b in s.nodes && b in c.seedLists && a in s.nodes && a != b
    requires s.nodes[a].proc.Some?
    requires HasReceived(s.nodes[b], others, a, key) && others != [] && others[0] == a
    ensures Exec(c, ls') == Some(s') && a in s'.nodes && s'.nodes[a] == s.nodes[a]
    ensures Msg(b, s.nodes[b].inc, a, s.nodes[a].inc, KeyInit(key)) in s'.net
  {
    var n := s.nodes[b];
    var n1 := n.(proc := Some(n.proc.value.(forwards := multiset{}, lock := Forwarding(key, others))));
    LocalForwards(c, b, n, a, key, others);
    var ls1, s1 := Stroll(c, ls, s, ForwardStart(b, key), n1);
    var m := Msg(b, n.inc, a, s.nodes[a].inc, KeyInit(key));
    var n2 := LocalStep(c, b, n1, ForwardPeer(b, true)).node;
    assert Posted(s1, b, Step(n2, Send(a, KeyInit(key)))) == {m};
    ls', s' := Walk(c, ls1, s1, ForwardPeer(b, true), n2, Send(a, KeyInit(key)));
    assert m in multiset({m});
  }

  // ------------------------------------------------------------------ the run

  /** The least seed comes first among the others of any other seed. */
  lemma LeastComesFirst(c: Config, seeds: set<Name>, b: Name)
    requires FreshCluster(c, seeds) && b in c.names && b in seeds && b != Least(seeds)
    ensures Others(c, b) != [] && Others(c, b)[0] == Least(seeds)
  {
    var others, a := Others(c, b), Least(seeds);
    OthersNoDup(c, b);
    assert Added([b]) == {b};
    assert a in ToSet(others);
    FirstIsLeast(others);
    LeastUnique(others[0], a, ToSet(others));
  }

  ghost predicate TwoSeeds(c: Config, seeds: set<Name>, b: Name) {
    FreshCluster(c, seeds) && Least(seeds) in c.names && b in c.names && b in seeds && b != Least(seeds)
  }

  /** The master has sent `k1` and the other seed has received it. */
  lemma UpToReceived(c: Config, seeds: set<Name>, b: Name, k1: Bytes) returns (ls: seq<Label>, s: State)
    requires TwoSeeds(c, seeds, b) && |k1| == KEY_SIZE
    ensures Exec(c, ls) == Some(s) && Least(seeds) in s.nodes && b in s.nodes
    ensures s.nodes[Least(seeds)].inc == 1 && s.nodes[Least(seeds)].disk.None? && s.nodes[Least(seeds)].won.None?
    ensures s.nodes[Least(seeds)].proc.Some? && HasReceived(s.nodes[b], Others(c, b), Least(seeds), k1)
  {
    var a := Least(seeds);
    LeastComesFirst(c, seeds, b);
    var ls1, s1 := Wake(c, [], Init(c), a);
    var ls2, s2 := Wake(c, ls1, s1, b);
    var ls3, s3 := BeginWith(c, seeds, ls2, s2, a, b, k1);
    var ls4, s4 := BeginWith(c, seeds, ls3, s3, b, a, k1);
    var ls5, s5 := SendFirst(c, ls4, s4, a, Master(Others(c, a), [b], k1), k1, b);
    var m := Msg(a, 1, b, 1, KeyInit(k1));
    var ls6, s6 := Read(c, ls5, s5, b, Slave(Others(c, b), [a]), m);
    LocalAccepts(c, b, s6.nodes[b], a, m, Others(c, b));
    ls, s := Stroll(c, ls6, s6, Handle(b, []), LocalStep(c, b, s6.nodes[b], Handle(b, [])).node);
  }

  /** The master crashes, starts again without a file, and begins with `k2`. */
  lemma StartsOver(c: Config, seeds: set<Name>, ls: seq<Label>, s: State, b: Name, k2: Bytes)
    returns (ls': seq<Label>, s': State)
    requires TwoSeeds(c, seeds, b) && |k2| == KEY_SIZE && Exec(c, ls) == Some(s) && Least(seeds) in s.nodes
    requires b in s.nodes
    requires var n := s.nodes[Least(seeds)]; n.proc.Some? && n.disk.None? && n.won.None?
    ensures Exec(c, ls') == Some(s') && Least(seeds) in s'.nodes && b in s'.nodes && s'.nodes[b] == s.nodes[b]
    ensures s'.nodes[Least(seeds)].proc == Some(Master(Others(c, Least(seeds)), [b], k2))
  {
    var a := Least(seeds);
    var ls1, s1 := Stroll(c, ls, s, Crash(a), s.nodes[a].(proc := None));
    var ls2, s2 := Wake(c, ls1, s1, a);
    ls', s' := BeginWith(c, seeds, ls2, s2, a, b, k2);
  }

  lemma LocalMismatch(c: Config, a: Name, n: Node, m: Msg, others: seq<Name>, b: Name, k2: Bytes)
    requires a in c.seedLists && n.proc == Some(Master(others, [b], k2).(loop := Got(m, Seeding)))
    requires m.src in others && m.body.KeyInit? && |m.body.key| == KEY_SIZE && |k2| == KEY_SIZE && m.body.key != k2
    ensures LocalEnabled(c, a, n, Handle(a, [])) && LocalStep(c, a, n, Handle(a, [])) == Panic(PanicReason.Mismatch)
  {
    HandleIsDispatch(c, a, n, Handle(a, []));
  }

  /**
   * With crashes allowed, every fresh cluster with two seeds or more has a run that ends in the panic on
   * different keys, for any two keys.
   */
  lemma CrashCausesMismatch(c: Config, seeds: set<Name>, b: Name, k1: Bytes, k2: Bytes)
    returns (ls: seq<Label>, l: Label)
    requires TwoSeeds(c, seeds, b) && |k1| == KEY_SIZE && |k2| == KEY_SIZE && k1 != k2
    ensures Exec(c, ls).Some? && Panicking(c, Exec(c, ls).value, l)
    ensures LocalStep(c, l.i, Exec(c, ls).value.nodes[l.i], l) == Panic(PanicReason.Mismatch)
  {
    var a := Least(seeds);
    LeastComesFirst(c, seeds, b);
    OthersNoDup(c, a);
    assert b in ToSet(Others(c, a)) by { assert Added([a]) == {a}; }
    var ls1, s1 := UpToReceived(c, seeds, b, k1);
    var ls2, s2 := StartsOver(c, seeds, ls1, s1, b, k2);
    var ls3, s3 := ForwardFirst(c, ls2, s2, b, a, k1, Others(c, b));
    var m := Msg(b, s2.nodes[b].inc, a, s2.nodes[a].inc, KeyInit(k1));
    var s4;
    ls, s4 := Read(c, ls3, s3, a, Master(Others(c, a), [b], k2), m);
    l := Handle(a, []);
    LocalMismatch(c, a, s4.nodes[a], m, Others(c, a), b, k2);
  }
}
