/**
 * Runs in which no process is killed from outside, from empty files, with one seed list and the
 * election: no handler ever panics, all seeds end up with the master's key, and no seed ever asks
 * another node for the key.
 */
module CrashFree {
  import opened Basics
  import opened Vault
  import opened Names
  import opened Protocol
  import opened Invariant
  import opened Preserve
  import opened Agreement
  import Seed

  ghost predicate NoCrash(ls: seq<Label>) {
    forall k :: 0 <= k < |ls| ==> !ls[k].Crash?
  }

  /** A fresh cluster: one seed list, the election in force, nothing on disk. */
  ghost predicate FreshCluster(c: Config, seeds: set<Name>) {
    ValidConfig(c) && CommonSeeds(c, seeds) && c.election && c.preset == map[] && seeds != {} && [] !in seeds
  }

  /** Every node runs its first incarnation, and its file was empty when it started. */
  ghost predicate FirstLife(n: Node) {
    && n.inc <= 1 && (forall x :: x in n.fixed ==> x == 1)
    && (n.proc.None? ==> n.inc == 0 && n.disk.None?)
    && (n.proc.Some? ==>
          var p := n.proc.value;
          && n.inc == 1 && p.status != Validating
          && (p.pc.AtStart? ==> n.disk.None?)
          && !p.pc.OwnKey? && !p.pc.Validate? && !p.pc.AwaitPeer?)
  }

  ghost predicate FixedLike(n: Node, m: Node) {
    1 in n.fixed ==> 1 in m.fixed && n.fixed[1] == m.fixed[1]
  }

  ghost predicate NoQuery(n: Node) {
    n.proc.Some? ==> n.proc.value.status != QueryKey
  }

  ghost predicate FreshInv(c: Config, seeds: set<Name>, s: State)
    requires seeds != {}
  {
    && Inv(c, s)
    && (forall i :: i in s.nodes ==> FirstLife(s.nodes[i]))
    && (forall i :: i in s.nodes && s.nodes[i].fixed != map[] ==>
       Least(seeds) in s.nodes && FixedLike(s.nodes[i], s.nodes[Least(seeds)]))
    && (forall i :: i in s.nodes && i in seeds ==> NoQuery(s.nodes[i]))
  }

  // ------------------------------------------------------------------ panics

  /** Only the message loop can panic. */
  lemma OnlyHandlePanics(c: Config, i: Name, n: Node, l: Label)
    requires i in c.seedLists && LocalEnabled(c, i, n, l) && !l.Handle?
    ensures LocalStep(c, i, n, l).Step?
  {
    if n.proc.Some? && l.AskPeer? { AskOnly(n, n.proc.value, i, l.ok); }
  }

  /** A key from another seed is refused only if it differs from the key already fixed. */
  lemma SeedKeyPanicsOnlyOnMismatch(c: Config, s: State, i: Name, m: Msg)
    requires ValidConfig(c) && Inv(c, s) && i in s.nodes && s.nodes[i].proc.Some?
    requires var p := s.nodes[i].proc.value; p.loop == Got(m, Seeding) && m.body.KeyInit?
    requires IsSeed(c, m.src) && c.seedLists[m.src] == c.seedLists[i]
    ensures var n := s.nodes[i];
            var st := HandleSeedKey(n, n.proc.value, m.body.key, m.src);
            && (st.Panic? ==> st.reason == Mismatch)
            && (st.Panic? <==> n.inc in n.fixed && n.fixed[n.inc] != m.body.key)
  {
    assert NodeInv(c, s.sent, s.known, i, s.nodes[i]);
    assert SentInv(c, s, m);
    OthersNoDup(c, i);
    assert m.src in ToSet(Others(c, i));
    KeyRefusedIff(c, s.sent, s.known, i, s.nodes[i], s.nodes[i].proc.value, m);
  }

  lemma KeyRefusedIff(c: Config, sent: set<Msg>, known: set<Bytes>, i: Name, n: Node, p: Proc, m: Msg)
    requires i in c.seedLists && n.proc == Some(p) && NodeInv(c, sent, known, i, n) && p.loop == Got(m, Seeding)
    requires m.body.KeyInit? && |m.body.key| == KEY_SIZE && m.src in Others(c, i)
    ensures var st := HandleSeedKey(n, p, m.body.key, m.src);
            && (st.Panic? ==> st.reason == Mismatch)
            && (st.Panic? <==> n.inc in n.fixed && n.fixed[n.inc] != m.body.key)
  {
    assert p.seed != Seed.Wiped();
    assert Waiting(c, i, n, p) || Active(c, sent, i, n, p);
    assert p.seed.others == Others(c, i);
  }

  /** Serving nodes answer every query and every challenge. */
  lemma ServingNeverPanics(c: Config, s: State, i: Name, m: Msg, random: Bytes)
    requires Inv(c, s) && i in s.nodes && s.nodes[i].proc.Some?
    requires s.nodes[i].proc.value.loop == Got(m, Ready)
    ensures Dispatch(c, i, s.nodes[i], s.nodes[i].proc.value, m, Ready, random).Step?
  {
    var n := s.nodes[i];
    assert SentInv(c, s, m);
    match m.body {
      case KeyQuery => KeepsHandleQuery(c, s.sent, s.known, i, n, n.proc.value, m);
      case Challenge(d) => KeepsHandleChallenge(c, s.sent, s.known, i, n, n.proc.value, m, random);
      case _ =>
    }
  }

  /** In a fresh cluster every enabled step completes. */
  lemma FreshStepCompletes(c: Config, seeds: set<Name>, s: State, l: Label)
    requires FreshCluster(c, seeds) && FreshInv(c, seeds, s) && Enabled(c, s, l)
    ensures LocalStep(c, l.i, s.nodes[l.i], l).Step?
  {
    var n := s.nodes[l.i];
    if l.Handle? {
      var p := n.proc.value;
      var Got(m, seen) := p.loop;
      assert SentInv(c, s, m);
      match (seen, m.body) {
        case (Seeding, KeyInit(k)) =>
          SeedKeyPanicsOnlyOnMismatch(c, s, l.i, m);
          assert FirstLife(s.nodes[m.src]) && FirstLife(n);
        case (Ready, _) => ServingNeverPanics(c, s, l.i, m, l.random);
        case _ =>
      }
    } else {
      OnlyHandlePanics(c, l.i, n, l);
    }
  }

  // -------------------------------------------------------------- first life

  lemma DispatchStatus(c: Config, i: Name, n: Node, p: Proc, m: Msg, seen: Status, random: Bytes)
    ensures var st := Dispatch(c, i, n, p, m, seen, random);
            st.Step? ==>
              && st.node.proc.Some? && st.node.inc == n.inc && st.node.proc.value.pc == p.pc
              && (st.node.proc.value.status == p.status || st.node.proc.value.status == Ready)
              && (st.node.disk == n.disk || (seen == QueryKey && m.body.KeyResp?))
              && (st.node.fixed == n.fixed
                 || (seen == Seeding && m.body.KeyInit? && st.node.fixed == n.fixed[n.inc := m.body.key]))
  {
  }

  lemma FirstLifeStart(c: Config, sent: set<Msg>, known: set<Bytes>, i: Name, n: Node, l: Label)
    requires i in c.seedLists && NodeInv(c, sent, known, i, n) && FirstLife(n) && LocalEnabled(c, i, n, l)
    requires !l.Crash? && !l.Handle? && !SideStep(l)
    ensures FirstLife(NextNode(c, i, n, l))
  {
  }

  lemma FirstLifeHandle(c: Config, sent: set<Msg>, known: set<Bytes>, i: Name, n: Node, random: Bytes)
    requires i in c.seedLists && NodeInv(c, sent, known, i, n) && FirstLife(n) && n.proc.Some? && n.proc.value.loop.Got?
    ensures var st := Dispatch(c, i, n, n.proc.value, n.proc.value.loop.msg, n.proc.value.loop.seen, random);
            st.Step? ==> FirstLife(st.node)
  {
    var p := n.proc.value;
    DispatchStatus(c, i, n, p, p.loop.msg, p.loop.seen, random);
  }

  lemma FirstLifeStep(c: Config, sent: set<Msg>, known: set<Bytes>, i: Name, n: Node, l: Label)
    requires i in c.seedLists && NodeInv(c, sent, known, i, n) && FirstLife(n) && LocalEnabled(c, i, n, l)
    requires !l.Crash? && LocalStep(c, i, n, l).Step?
    ensures FirstLife(NextNode(c, i, n, l))
  {
    if SideStep(l) && n.proc.Some? {
      SideStepFrame(c, i, n, l);
    } else if l.Handle? {
      FirstLifeHandle(c, sent, known, i, n, l.random);
    } else {
      FirstLifeStart(c, sent, known, i, n, l);
    }
  }

  lemma FixedStep(c: Config, i: Name, n: Node, l: Label)
    requires i in c.seedLists && LocalEnabled(c, i, n, l)
    ensures var n' := NextNode(c, i, n, l);
            || n'.fixed == n.fixed
            || (l.StartSeed? && l.master && n'.fixed == n.fixed[n.inc := l.key])
            || (&& l.Handle? && n.proc.Some? && n.proc.value.loop.Got? && n.proc.value.loop.seen == Seeding
                && n.proc.value.loop.msg.body.KeyInit? && n'.fixed == n.fixed[n.inc := n.proc.value.loop.msg.body.key])
  {
    if n.proc.Some? {
      var p := n.proc.value;
      match l {
        case Handle(_, random) => DispatchStatus(c, i, n, p, p.loop.msg, p.loop.seen, random);
        case AskPeer(_, ok) => AskOnly(n, p, i, ok);
        case _ =>
      }
    }
  }

  lemma QueryStep(c: Config, i: Name, n: Node, l: Label)
    requires i in c.seedLists && LocalEnabled(c, i, n, l) && !l.StartQuery? && NoQuery(n)
    ensures NoQuery(NextNode(c, i, n, l))
  {
    if n.proc.Some? {
      var p := n.proc.value;
      match l {
        case Handle(_, random) => DispatchStatus(c, i, n, p, p.loop.msg, p.loop.seen, random);
        case AskPeer(_, ok) => AskOnly(n, p, i, ok);
        case _ =>
      }
    }
  }

  // -------------------------------------------------- readiness needs all seeds

  /** Some node has been READY only after every seed had fixed its key. */
  lemma ReadyMeansAllFixed(c: Config, seeds: set<Name>, s: State, r: Name, i: Name)
    requires FreshCluster(c, seeds) && Inv(c, s) && r in s.ready && i in seeds
    ensures i in s.nodes && s.nodes[i].fixed != map[]
  {
    var k :| k in s.known && Holds(r, s.nodes[r], k);
    assert KnownInv(c, s, k);
    var j :| j in s.nodes && k in WonKeys(s.nodes[j]);
    assert IsSeed(c, j);
    if i != j {
      OthersNoDup(c, j);
      assert i in ToSet(Others(c, j));
      HeardFixed(c, s, i, j);
    }
  }

  /** A seed that has fixed its key in its first life is past NO_KEY. */
  lemma FixedIsSeeding(c: Config, s: State, i: Name)
    requires Inv(c, s) && i in s.nodes && FirstLife(s.nodes[i]) && s.nodes[i].fixed != map[]
    ensures s.nodes[i].proc.Some? && Active(c, s.sent, i, s.nodes[i], s.nodes[i].proc.value)
  {
    var n := s.nodes[i];
    var x :| x in n.fixed;
    assert x == 1 && n.inc == 1;
  }

  lemma NoSeedAsks(c: Config, seeds: set<Name>, s: State, l: Label)
    requires FreshCluster(c, seeds) && FreshInv(c, seeds, s) && Enabled(c, s, l) && l.StartQuery?
    ensures l.i !in seeds
  {
    if l.i in seeds {
      var k :| 0 <= k < |l.view| && l.view[k].ready;
      AskerHasNoKey(c, l.i, s.nodes[l.i], l);
      ReadyMeansAllFixed(c, seeds, s, l.view[k].name, l.i);
      assert FirstLife(s.nodes[l.i]);
      FixedIsSeeding(c, s, l.i);
    }
  }

  lemma AskerHasNoKey(c: Config, i: Name, n: Node, l: Label)
    requires i in c.seedLists && (n.proc.Some? ==> StartInv(c, i, n, n.proc.value)) && LocalEnabled(c, i, n, l)
    requires l.StartQuery?
    ensures n.proc.Some? && n.proc.value.status == NoKey
  {
  }

  // ----------------------------------------------------------------- one key

  lemma ElectsLeast(c: Config, seeds: set<Name>, i: Name)
    requires FreshCluster(c, seeds) && i in c.names && i in seeds
    ensures i != [] && Elected(i, Others(c, i)) == Least(seeds)
  {
    var all := Added([i]) + Added(Others(c, i));
    OthersNoDup(c, i);
    forall x ensures x in all <==> x in seeds {
      assert x in Others(c, i) <==> x in ToSet(Others(c, i));
    }
    LeastUnique(Elected(i, Others(c, i)), Least(seeds), seeds);
  }

  /** The only key a node can newly fix is the master's. */
  lemma NewKeyIsMasters(c: Config, seeds: set<Name>, s: State, l: Label)
    requires FreshCluster(c, seeds) && FreshInv(c, seeds, s) && Enabled(c, s, l)
    requires NextNode(c, l.i, s.nodes[l.i], l).fixed != s.nodes[l.i].fixed
    ensures var n' := NextNode(c, l.i, s.nodes[l.i], l);
            || (l.i == Least(seeds) && forall j :: j in s.nodes ==> s.nodes[j].fixed == map[])
            || (&& Least(seeds) in s.nodes && 1 in s.nodes[Least(seeds)].fixed && l.i != Least(seeds)
                && n'.fixed == s.nodes[l.i].fixed[1 := s.nodes[Least(seeds)].fixed[1]])
  {
    var n := s.nodes[l.i];
    FixedStep(c, l.i, n, l);
    assert FirstLife(n);
    var p := n.proc.value;
    if l.StartSeed? {
      StarterIsFirst(c, seeds, s, l);
      forall j | j in s.nodes ensures s.nodes[j].fixed == map[] { NobodyFixed(c, seeds, s, j); }
    } else {
      var m := p.loop.msg;
      assert SentInv(c, s, m);
      assert FirstLife(s.nodes[m.src]);
    }
  }

  /** The master that starts to seed has fixed nothing yet. */
  lemma StarterIsFirst(c: Config, seeds: set<Name>, s: State, l: Label)
    requires FreshCluster(c, seeds) && FreshInv(c, seeds, s) && Enabled(c, s, l) && l.StartSeed? && l.master
    ensures l.i == Least(seeds) && s.nodes[l.i].fixed == map[]
  {
    var n := s.nodes[l.i];
    assert FirstLife(n) && Dormant(c, l.i, n, n.proc.value);
    ElectsLeast(c, seeds, l.i);
    assert n.fixed == map[] by { assert forall x :: x in n.fixed ==> x == 1; }
  }

  lemma NobodyFixed(c: Config, seeds: set<Name>, s: State, j: Name)
    requires seeds != {} && FreshInv(c, seeds, s) && j in s.nodes && Least(seeds) in s.nodes
    requires s.nodes[Least(seeds)].fixed == map[]
    ensures s.nodes[j].fixed == map[]
  {
    assert FirstLife(s.nodes[j]);
    assert 1 !in s.nodes[j].fixed;
    assert s.nodes[j].fixed.Keys == {};
  }

  ghost predicate FixesMasters(seeds: set<Name>, s: State, i: Name, n': Node)
    requires seeds != {} && i in s.nodes
  {
    || n'.fixed == s.nodes[i].fixed
    || (i == Least(seeds) && forall j :: j in s.nodes ==> s.nodes[j].fixed == map[])
    || (&& Least(seeds) in s.nodes && 1 in s.nodes[Least(seeds)].fixed && i != Least(seeds)
        && n'.fixed == s.nodes[i].fixed[1 := s.nodes[Least(seeds)].fixed[1]])
  }

  lemma FreshNodeStep(c: Config, seeds: set<Name>, s: State, l: Label)
    requires FreshCluster(c, seeds) && FreshInv(c, seeds, s) && Enabled(c, s, l) && !l.Crash?
    ensures var n' := NextNode(c, l.i, s.nodes[l.i], l);
            FirstLife(n') && (l.i in seeds ==> NoQuery(n')) && FixesMasters(seeds, s, l.i, n')
  {
    FreshStepCompletes(c, seeds, s, l);
    FirstLifeStep(c, s.sent, s.known, l.i, s.nodes[l.i], l);
    if l.StartQuery? { NoSeedAsks(c, seeds, s, l); } else if l.i in seeds { QueryStep(c, l.i, s.nodes[l.i], l); }
    if NextNode(c, l.i, s.nodes[l.i], l).fixed != s.nodes[l.i].fixed { NewKeyIsMasters(c, seeds, s, l); }
  }

  lemma FreshCarry(c: Config, seeds: set<Name>, s: State, s': State, i: Name, n': Node)
    requires seeds != {} && FreshInv(c, seeds, s) && Inv(c, s') && i in s.nodes && s'.nodes == s.nodes[i := n']
    requires FirstLife(n') && (i in seeds ==> NoQuery(n')) && FixesMasters(seeds, s, i, n')
    ensures FreshInv(c, seeds, s')
  {
  }

  lemma FreshInvStep(c: Config, seeds: set<Name>, s: State, l: Label)
    requires FreshCluster(c, seeds) && FreshInv(c, seeds, s) && Enabled(c, s, l) && !l.Crash?
    ensures FreshInv(c, seeds, Apply(c, s, l))
  {
    StepInv(c, s, l);
    FreshNodeStep(c, seeds, s, l);
    var s', n' := Apply(c, s, l), NextNode(c, l.i, s.nodes[l.i], l);
    ApplyShape(c, s, l, s', n', StepPosts(c, s, l));
    FreshCarry(c, seeds, s, s', l.i, n');
  }

  lemma {:induction false} FreshRunInv(c: Config, seeds: set<Name>, ls: seq<Label>)
    requires FreshCluster(c, seeds) && Exec(c, ls).Some? && NoCrash(ls)
    ensures FreshInv(c, seeds, Exec(c, ls).value)
  {
    if ls == [] {
      InitInv(c);
    } else {
      FreshRunInv(c, seeds, ls[..|ls| - 1]);
      FreshInvStep(c, seeds, Exec(c, ls[..|ls| - 1]).value, ls[|ls| - 1]);
    }
  }

  // ---------------------------------------------------------------- theorems

  /** No step of any crash-free run of a fresh cluster panics. */
  lemma NoHandlerPanics(c: Config, seeds: set<Name>, ls: seq<Label>, l: Label)
    requires FreshCluster(c, seeds) && Exec(c, ls).Some? && NoCrash(ls)
    ensures !Panicking(c, Exec(c, ls).value, l)
  {
    FreshRunInv(c, seeds, ls);
    if Enabled(c, Exec(c, ls).value, l) { FreshStepCompletes(c, seeds, Exec(c, ls).value, l); }
  }

  /**
   * Once any node has been READY, every seed has fixed the master's key and is SEEDING or READY; a
   * seed is never in QUERY_KEY.
   */
  lemma ReadyOnlyAfterAllSeeds(c: Config, seeds: set<Name>, ls: seq<Label>, i: Name)
    requires FreshCluster(c, seeds) && Exec(c, ls).Some? && NoCrash(ls) && i in seeds && i in c.names
    ensures var s := Exec(c, ls).value;
            && i in s.nodes && NoQuery(s.nodes[i])
            && (s.ready != {} ==>
                  && s.nodes[i].proc.Some? && 1 in s.nodes[i].fixed
                  && (s.nodes[i].proc.value.status == Seeding || s.nodes[i].proc.value.status == Ready)
                  && Least(seeds) in s.nodes && FixedLike(s.nodes[i], s.nodes[Least(seeds)]))
  {
    FreshRunInv(c, seeds, ls);
    var s := Exec(c, ls).value;
    if s.ready != {} {
      var r :| r in s.ready;
      ReadyMeansAllFixed(c, seeds, s, r, i);
      FixedIsSeeding(c, s, i);
    }
  }
}
