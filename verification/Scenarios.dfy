/**
 * A concrete run that shows a hypothesis of completion is needed: a key message read before its receiver
 * is SEEDING is lost for good.
 */
module Scenarios {
  import opened Basics
  import opened Vault
  import opened Names
  import opened Protocol
  import opened Preserve
  import opened Agreement
  import opened CrashFree
  import opened Completion
  import opened Termination
  import opened Exactness
  import Seed

  /** One step of node `l.i` to `n'`, posting `posted`. */
  lemma Go(c: Config, ls: seq<Label>, s: State, l: Label, n': Node, posted: set<Msg>)
    returns (ls': seq<Label>, s': State)
    requires Exec(c, ls) == Some(s) && Enabled(c, s, l)
    requires NextNode(c, l.i, s.nodes[l.i], l) == n' && StepPosts(c, s, l) == posted
    ensures ls' == ls + [l] && Exec(c, ls') == Some(s')
    ensures s'.nodes == s.nodes[l.i := n']
    ensures s'.net == (if l.Take? then s.net - multiset{l.msg} else s.net) + multiset(posted)
    ensures s'.ready == if IsReady(n') then s.ready + {l.i} else s.ready
  {
    ls', s' := ls + [l], Apply(c, s, l);
    assert ls'[..|ls'| - 1] == ls;
    ApplyShape(c, s, l, s', n', posted);
    NetAfter(c, s, l);
  }

  lemma OnlyOther(c: Config, a: Name, b: Name)
    requires a in c.seedLists && c.seedLists[a] == {a, b} && a != b && a != [] && b != []
    ensures Others(c, a) == [b]
  {
    OthersNoDup(c, a);
    assert Added([a]) == {a};
    assert ToSet(Others(c, a)) == {b} && ToSet([b]) == {b};
    IncreasingUnique(Others(c, a), [b]);
  }

  lemma OnlyPeer(a: Name, b: Name)
    requires a != b
    ensures Without(SortedOf({a, b}), a) == [b] && Without(SortedOf({a, b}), b) == [a]
  {
    var l := SortedOf({a, b});
    IncreasingNoDup(l);
    NoDupCardinality(l);
    assert |{a, b}| == 2;
    assert l == [l[0], l[1]];
    assert l[0] in ToSet(l) && l[1] in ToSet(l);
    assert Without([l[1]], a) == (if l[1] != a then [l[1]] else []) + Without([], a);
    assert Without([l[1]], b) == (if l[1] != b then [l[1]] else []) + Without([], b);
    assert l[1..] == [l[1]];
  }

  /** The master after `Node.seed`, the slave likewise. */
  function Master(others: seq<Name>, peers: seq<Name>, key: Bytes): Proc {
    SetStatus(Waker(others), Seeding).(pc := Finished, seed := Seed.StartMaster(Seed.Fresh(others), key, peers),
        initial := Spawned(key))
  }

  function Slave(others: seq<Name>, peers: seq<Name>): Proc {
    SetStatus(Waker(others), Seeding).(pc := Finished, seed := Seed.StartSlave(Seed.Fresh(others), peers))
  }

  lemma BeginsLocally(c: Config, a: Name, b: Name, n: Node, i: Name, key: Bytes, n': Node)
    requires FreshCluster(c, {a, b}) && {a, b} <= c.names && a != b && Least({a, b}) == a && (i == a || i == b)
    requires |key| == KEY_SIZE
    requires n.proc == Some(Waker(Others(c, i)))
    requires var o := if i == a then b else a;
             n' == if i == a then n.(proc := Some(Master([o], [o], key)), fixed := n.fixed[n.inc := key])
                   else n.(proc := Some(Slave([o], [o])))
    ensures var l := Begin(c, {a, b}, i, key);
            LocalEnabled(c, i, n, l) && LocalStep(c, i, n, l) == Step(n', Silent) && forall x :: x in {a, b} ==>
                x in l.members
  {
    var got := BeginNode(c, {a, b}, i, n, key, Begin(c, {a, b}, i, key));
    OnlyPeer(a, b);
    if i == a { OnlyOther(c, a, b); } else { assert c.seedLists[b] == {b, a}; OnlyOther(c, b, a); }
    BeginLocal(c, {a, b}, i, n, key);
    assert got == n';
  }

  /** A waiting seed of a two-seed cluster begins. */
  lemma Begins(c: Config, a: Name, b: Name, ls: seq<Label>, s: State, i: Name, key: Bytes, n': Node)
    returns (ls': seq<Label>, s': State)
    requires FreshCluster(c, {a, b}) && {a, b} <= c.names && a != b && Least({a, b}) == a && (i == a || i == b)
    requires |key| == KEY_SIZE
    requires Exec(c, ls) == Some(s) && i in s.nodes && s.nodes[i].proc == Some(Waker(Others(c, i)))
    requires var o := if i == a then b else a;
             var n := s.nodes[i];
             n' == if i == a then n.(proc := Some(Master([o], [o], key)), fixed := n.fixed[n.inc := key])
                   else n.(proc := Some(Slave([o], [o])))
    ensures ls' == ls + [Begin(c, {a, b}, i, key)] && Exec(c, ls') == Some(s')
    ensures s'.nodes == s.nodes[i := n'] && s'.net == s.net && s'.ready == s.ready
    ensures Enabled(c, s, Begin(c, {a, b}, i, key)) && Reliable(c, {a, b}, s, Begin(c, {a, b}, i, key))
  {
    var l := Begin(c, {a, b}, i, key);
    BeginsLocally(c, a, b, s.nodes[i], i, key, n');
    assert Enabled(c, s, l);
    ls', s' := Go(c, ls, s, l, n', {});
    assert s.net + multiset({}) == s.net;
  }

  /** A reliable step of node `l.i` to `n'` that emits `out`. */
  lemma Steps(c: Config, seeds: set<Name>, ls: seq<Label>, s: State, l: Label, n': Node, out: Out, posted: set<Msg>)
    returns (ls': seq<Label>, s': State)
    requires ReliableRun(c, seeds, ls, true) && Exec(c, ls) == Some(s)
    requires l.i in s.nodes && l.i in c.seedLists && LocalEnabled(c, l.i, s.nodes[l.i], l)
    requires LocalStep(c, l.i, s.nodes[l.i], l) == Step(n', out)
    requires (l.Take? && l.msg in s.net) || l.InitialStart? || (l.InitialPeer? && l.ok) || l.Handle?
    requires out.Send? ==> out.dst in s.nodes && s.nodes[out.dst].proc.Some?
    requires posted == Posted(s, l.i, Step(n', out))
    ensures ReliableRun(c, seeds, ls', true) && Exec(c, ls') == Some(s')
    ensures s'.nodes == s.nodes[l.i := n']
    ensures s'.net == (if l.Take? then s.net - multiset{l.msg} else s.net) + multiset(posted)
    ensures s'.ready == if IsReady(n') then s.ready + {l.i} else s.ready
  {
    assert Enabled(c, s, l) && Reliable(c, seeds, s, l);
    ReliableExtend(c, seeds, ls, l, true);
    ls', s' := Go(c, ls, s, l, n', posted);
  }

  function MasterSending(b: Name, key: Bytes, rest: seq<Name>): Proc {
    Master([b], [b], key).(initial := Sending(key, rest))
  }

  lemma LocalInitialStart(c: Config, a: Name, b: Name, n: Node, key: Bytes)
    requires a in c.seedLists && n.proc == Some(Master([b], [b], key))
    ensures LocalEnabled(c, a, n, InitialStart(a))
    ensures LocalStep(c, a, n, InitialStart(a)) == Step(n.(proc := Some(MasterSending(b, key, [b]))), Silent)
  {
  }

  lemma LocalInitialPeer(c: Config, a: Name, b: Name, n: Node, key: Bytes)
    requires a in c.seedLists && n.proc == Some(MasterSending(b, key, [b]))
    ensures LocalEnabled(c, a, n, InitialPeer(a, true))
    ensures LocalStep(c, a, n, InitialPeer(a, true)) ==
              Step(n.(proc := Some(MasterSending(b, key, []))), Send(b, KeyInit(key)))
  {
    assert [b][1..] == [];
  }

  lemma LocalTake(c: Config, b: Name, n: Node, m: Msg)
    requires b in c.seedLists && n.proc == Some(Waker(Others(c, b))) && m.dst == b && m.dstInc == n.inc
    ensures LocalEnabled(c, b, n, Take(b, m))
    ensures LocalStep(c, b, n, Take(b, m)) ==
              Step(n.(proc := Some(Waker(Others(c, b)).(loop := Got(m, NoKey)))), Silent)
  {
  }

  lemma LocalDrop(c: Config, b: Name, n: Node, m: Msg)
    requires b in c.seedLists && n.proc == Some(Waker(Others(c, b)).(loop := Got(m, NoKey)))
    ensures LocalEnabled(c, b, n, Handle(b, []))
    ensures LocalStep(c, b, n, Handle(b, [])) == Step(n.(proc := Some(Waker(Others(c, b)))), Silent)
  {
  }

  /** The master looks up its members. */
  lemma LooksUp(c: Config, seeds: set<Name>, a: Name, b: Name, ls: seq<Label>, s: State, key: Bytes)
    returns (ls': seq<Label>, s': State)
    requires ReliableRun(c, seeds, ls, true) && Exec(c, ls) == Some(s) && a in s.nodes && a in c.seedLists
    requires s.nodes[a].proc == Some(Master([b], [b], key))
    ensures ReliableRun(c, seeds, ls', true) && Exec(c, ls') == Some(s') && s'.net == s.net
    ensures s'.nodes == s.nodes[a := s.nodes[a].(proc := Some(MasterSending(b, key, [b])))]
  {
    LocalInitialStart(c, a, b, s.nodes[a], key);
    ls', s' := Steps(c, seeds, ls, s, InitialStart(a), s.nodes[a].(proc := Some(MasterSending(b, key, [b]))), Silent,
                     {});
    assert s.net + multiset({}) == s.net;
  }

  /** It sends the key to its one peer. */
  lemma SendsFirst(c: Config, seeds: set<Name>, a: Name, b: Name, ls: seq<Label>, s: State, key: Bytes)
    returns (ls': seq<Label>, s': State)
    requires ReliableRun(c, seeds, ls, true) && Exec(c, ls) == Some(s) && a in s.nodes && b in s.nodes
    requires a in c.seedLists
    requires s.nodes[a].proc == Some(MasterSending(b, key, [b])) && s.nodes[b].proc.Some?
    ensures ReliableRun(c, seeds, ls', true) && Exec(c, ls') == Some(s')
    ensures s'.nodes == s.nodes[a := s.nodes[a].(proc := Some(MasterSending(b, key, [])))]
    ensures s'.net == s.net + multiset{Msg(a, s.nodes[a].inc, b, s.nodes[b].inc, KeyInit(key))}
  {
    var m := Msg(a, s.nodes[a].inc, b, s.nodes[b].inc, KeyInit(key));
    LocalInitialPeer(c, a, b, s.nodes[a], key);
    ls', s' := Steps(c, seeds, ls, s, InitialPeer(a, true), s.nodes[a].(proc := Some(MasterSending(b, key, []))),
                     Send(b, KeyInit(key)), {m});
    assert multiset({m}) == multiset{m};
  }

  /** A waiting seed takes a message from the network. */
  lemma TakesEarly(c: Config, seeds: set<Name>, ls: seq<Label>, s: State, b: Name, m: Msg)
    returns (ls': seq<Label>, s': State)
    requires ReliableRun(c, seeds, ls, true) && Exec(c, ls) == Some(s) && b in s.nodes && b in c.seedLists
    requires s.nodes[b].proc == Some(Waker(Others(c, b))) && m in s.net && m.dst == b && m.dstInc == s.nodes[b].inc
    ensures ReliableRun(c, seeds, ls', true) && Exec(c, ls') == Some(s') && s'.net == s.net - multiset{m}
    ensures s'.nodes == s.nodes[b := s.nodes[b].(proc := Some(Waker(Others(c, b)).(loop := Got(m, NoKey))))]
  {
    LocalTake(c, b, s.nodes[b], m);
    ls', s' := Steps(c, seeds, ls, s, Take(b, m),
                     s.nodes[b].(proc := Some(Waker(Others(c, b)).(loop := Got(m, NoKey)))), Silent, {});
  }

  /** It drops the message, since it is still in NO_KEY. */
  lemma Drops(c: Config, seeds: set<Name>, ls: seq<Label>, s: State, b: Name, m: Msg)
    returns (ls': seq<Label>, s': State)
    requires ReliableRun(c, seeds, ls, true) && Exec(c, ls) == Some(s) && b in s.nodes && b in c.seedLists
    requires s.nodes[b].proc == Some(Waker(Others(c, b)).(loop := Got(m, NoKey)))
    ensures ReliableRun(c, seeds, ls', true) && Exec(c, ls') == Some(s') && s'.net == s.net
    ensures s'.nodes == s.nodes[b := s.nodes[b].(proc := Some(Waker(Others(c, b))))]
  {
    LocalDrop(c, b, s.nodes[b], m);
    ls', s' := Steps(c, seeds, ls, s, Handle(b, []), s.nodes[b].(proc := Some(Waker(Others(c, b)))), Silent, {});
    assert s.net + multiset({}) == s.net;
  }

  lemma TwoUp(c: Config, a: Name, b: Name) returns (ls: seq<Label>, s: State)
    requires FreshCluster(c, {a, b}) && {a, b} <= c.names && a != b
    ensures ReliableRun(c, {a, b}, ls, true) && Exec(c, ls) == Some(s) && s.net == multiset{}
    ensures a in s.nodes && b in s.nodes
    ensures s.nodes[a] == Node(1, None, Some(Waker(Others(c, a))), map[], None)
    ensures s.nodes[b] == Node(1, None, Some(Waker(Others(c, b))), map[], None)
  {
    var ls1, s1 := WakeUp(c, {a, b}, true, [], Init(c), a);
    assert s1.nodes[b] == Node(0, None, None, map[], None);
    ls, s := WakeUp(c, {a, b}, true, ls1, s1, b);
  }

  ghost predicate Stuck(s: State, a: Name, b: Name, key: Bytes) {
    && s.net == multiset{} && a in s.nodes && b in s.nodes
    && s.nodes[a].proc == Some(MasterSending(b, key, [])) && s.nodes[b].proc == Some(Slave([a], [a]))
  }

  lemma StuckAtRest(s: State, a: Name, b: Name, key: Bytes)
    requires Stuck(s, a, b, key) && |key| == KEY_SIZE
    ensures Quiescent({a, b}, s) && !IsReady(s.nodes[a]) && !IsReady(s.nodes[b])
  {
  }

  lemma MasterSends(c: Config, a: Name, b: Name, key: Bytes) returns (ls: seq<Label>, s: State)
    requires FreshCluster(c, {a, b}) && {a, b} <= c.names && a != b && Least({a, b}) == a && |key| == KEY_SIZE
    ensures ReliableRun(c, {a, b}, ls, true) && Exec(c, ls) == Some(s) && a in s.nodes && b in s.nodes
    ensures s.nodes[a].proc == Some(MasterSending(b, key, [])) && s.nodes[b].proc == Some(Waker(Others(c, b)))
    ensures s.nodes[b].inc == 1
    ensures s.net == multiset{Msg(a, 1, b, 1, KeyInit(key))}
  {
    var ls0, s0 := TwoUp(c, a, b);
    var na := s0.nodes[a].(proc := Some(Master([b], [b], key)), fixed := s0.nodes[a].fixed[1 := key]);
    var ls1, s1 := Begins(c, a, b, ls0, s0, a, key, na);
    ReliableExtend(c, {a, b}, ls0, Begin(c, {a, b}, a, key), true);
    assert s1.nodes[a] == na && s1.nodes[b] == s0.nodes[b];
    var ls2, s2 := LooksUp(c, {a, b}, a, b, ls1, s1, key);
    assert s2.nodes[a] == na.(proc := Some(MasterSending(b, key, [b]))) && s2.nodes[b] == s0.nodes[b];
    ls, s := SendsFirst(c, {a, b}, a, b, ls2, s2, key);
    assert multiset{} + multiset{Msg(a, 1, b, 1, KeyInit(key))} == multiset{Msg(a, 1, b, 1, KeyInit(key))};
  }

  /**
   * A reliable run of two seeds that comes to rest with nobody READY: the slave reads the master's one
   * key message while still in NO_KEY.
   */
  lemma EarlyKeyIsLost(c: Config, a: Name, b: Name, key: Bytes) returns (ls: seq<Label>)
    requires FreshCluster(c, {a, b}) && {a, b} <= c.names && a != b && Least({a, b}) == a && |key| == KEY_SIZE
    ensures ReliableRun(c, {a, b}, ls, true) && Exec(c, ls).Some?
    ensures Quiescent({a, b}, Exec(c, ls).value)
    ensures var s := Exec(c, ls).value; !IsReady(s.nodes[a]) && !IsReady(s.nodes[b])
  {
    var ls0, s0 := MasterSends(c, a, b, key);
    var m := Msg(a, 1, b, 1, KeyInit(key));
    var ls1, s1 := TakesEarly(c, {a, b}, ls0, s0, b, m);
    assert s1.net == multiset{} && s1.nodes[a] == s0.nodes[a];
    var ls2, s2 := Drops(c, {a, b}, ls1, s1, b, m);
    assert s2.nodes[a] == s0.nodes[a];
    var nb := s2.nodes[b].(proc := Some(Slave([a], [a])));
    var s3;
    ls, s3 := Begins(c, a, b, ls2, s2, b, key, nb);
    ReliableExtend(c, {a, b}, ls2, Begin(c, {a, b}, b, key), true);
    assert Stuck(s3, a, b, key);
    StuckAtRest(s3, a, b, key);
  }
}
