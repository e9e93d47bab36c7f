/**
 * Agreement of READY nodes alone. A node that is not a seed may start from any file: it becomes READY only
 * with the key of a READY peer. So READY nodes agree in all runs exactly when the seeds do not start from
 * different files.
 */
module ReadyAgreement {
  import opened Basics
  import opened Vault
  import opened Protocol
  import opened Invariant
  import opened Preserve
  import opened Agreement
  import opened Threads

  /** The keys seeds start with are all equal. */
  ghost predicate SafeSeedFiles(c: Config, seeds: set<Name>) {
    forall x, z :: x in seeds && z in seeds && x in c.preset && z in c.preset ==> c.preset[x] == c.preset[z]
  }

  ghost predicate SeedKey(c: Config, seeds: set<Name>, k: Bytes) {
    exists z :: z in seeds && z in c.preset && c.preset[z] == k
  }

  ghost predicate WonKey(s: State, k: Bytes) {
    exists j :: j in s.nodes && k in WonKeys(s.nodes[j])
  }

  /** A key that comes from the seeds: found on disk by one of them, or completed. */
  ghost predicate Good(c: Config, seeds: set<Name>, s: State, k: Bytes) {
    SeedKey(c, seeds, k) || WonKey(s, k)
  }

  ghost predicate HoldsGood(c: Config, seeds: set<Name>, s: State, i: Name, n: Node) {
    exists k :: Good(c, seeds, s, k) && Holds(i, n, k)
  }

  /** Whose file must come from the seeds: everybody's, except a file that a non-seed started with. */
  predicate Trusted(c: Config, seeds: set<Name>, ready: set<Name>, i: Name) {
    i in seeds || i !in c.preset || i in ready
  }

  ghost predicate NodeTrust(c: Config, seeds: set<Name>, s: State, i: Name, n: Node) {
    && (n.disk.Some? && Trusted(c, seeds, s.ready, i) ==> HoldsGood(c, seeds, s, i, n))
    && (IsReady(n) ==> i in s.ready)
    && (n.proc.Some? && n.proc.value.replies != multiset{} ==> i in s.ready)
    && (n.proc.Some? && n.proc.value.pc.OwnKey? ==> i in seeds)
  }

  predicate IsAnswer(b: Body) {
    b.KeyResp? || b.ChallengeResp?
  }

  ghost predicate TrustInv(c: Config, seeds: set<Name>, s: State) {
    && Inv(c, s)
    && (forall i :: i in s.nodes ==> NodeTrust(c, seeds, s, i, s.nodes[i]))
    && (forall m :: m in s.sent && IsAnswer(m.body) ==> m.src in s.ready)
  }

  // ------------------------------------------------------------------- steps

  lemma HoldsOne(i: Name, n: Node, k: Bytes, k': Bytes)
    requires Holds(i, n, k) && Holds(i, n, k')
    ensures k == k'
  {
    Hex.RoundTrip(k);
    Hex.RoundTrip(k');
  }

  /** How a step makes a node READY. */
  ghost predicate Becoming(c: Config, i: Name, n: Node, l: Label) {
    && n.proc.Some?
    && var p := n.proc.value;
       || (l.OwnKeyReady? && p.pc.OwnKey?)
       || (l.Finish? && p.loop.Complete?)
       || (l.Handle? && p.loop.Got? && p.loop.seen == QueryKey && p.loop.msg.body.KeyResp?)
       || (l.Handle? && p.loop.Got? && p.loop.seen == Validating && p.loop.msg.body.ChallengeResp?)
  }

  lemma DispatchReady(c: Config, i: Name, n: Node, p: Proc, m: Msg, seen: Status, random: Bytes)
    requires n.proc == Some(p) && p.loop == Got(m, seen) && p.status != Ready
    requires Dispatch(c, i, n, p, m, seen, random).Step? && IsReady(Dispatch(c, i, n, p, m, seen, random).node)
    ensures (seen == QueryKey && m.body.KeyResp?) || (seen == Validating && m.body.ChallengeResp?)
  {
  }

  lemma StartReady(c: Config, i: Name, n: Node, l: Label)
    requires i in c.seedLists && LocalEnabled(c, i, n, l) && !l.Handle? && !SideStep(l)
    requires !IsReady(n) && IsReady(NextNode(c, i, n, l))
    ensures Becoming(c, i, n, l)
  {
  }

  lemma BecomesReady(c: Config, i: Name, n: Node, l: Label)
    requires i in c.seedLists && LocalEnabled(c, i, n, l) && !IsReady(n) && IsReady(NextNode(c, i, n, l))
    ensures Becoming(c, i, n, l)
  {
    if n.proc.Some? && SideStep(l) {
      SideStepFrame(c, i, n, l);
    } else if n.proc.Some? && l.Handle? {
      HandleIsDispatch(c, i, n, l);
      DispatchReady(c, i, n, n.proc.value, n.proc.value.loop.msg, n.proc.value.loop.seen, l.random);
    } else {
      StartReady(c, i, n, l);
    }
  }

  lemma DispatchWrites(c: Config, i: Name, n: Node, p: Proc, m: Msg, seen: Status, random: Bytes)
    requires n.proc == Some(p)
    ensures var st := Dispatch(c, i, n, p, m, seen, random);
            st.Step? && st.node.disk != n.disk ==>
              seen == QueryKey && m.body.KeyResp? && st.node.disk == Some(FileFor(i, m.body.key))
    ensures var st := Dispatch(c, i, n, p, m, seen, random);
            st.Step? ==>
              && st.node.proc.Some? && st.node.proc.value.pc == p.pc
              && (st.node.proc.value.replies == p.replies || seen == Ready)
  {
  }

  /** What else a step can change that matters here. */
  lemma OtherChanges(c: Config, i: Name, n: Node, l: Label)
    requires i in c.seedLists && LocalEnabled(c, i, n, l) && !l.Handle?
    ensures var n' := NextNode(c, i, n, l);
            && (n'.disk != n.disk ==>
                  && l.Finish? && n.proc.Some? && n.proc.value.loop.Complete?
                  && n'.disk == Some(FileFor(i, n.proc.value.loop.key))
                  && n'.won == Some(Won(n.inc, n.proc.value.loop.key)))
            && (n'.proc.Some? && n'.proc.value.replies != multiset{} ==>
                  n.proc.Some? && n.proc.value.replies != multiset{})
            && (n'.proc.Some? && n'.proc.value.pc.OwnKey? ==>
                  i in c.seedLists[i] || (n.proc.Some? && n.proc.value.pc.OwnKey?))
  {
    if n.proc.Some? && l.AskPeer? { AskOnly(n, n.proc.value, i, l.ok); }
  }

  lemma GoodStays(c: Config, seeds: set<Name>, s: State, s': State, k: Bytes)
    requires Good(c, seeds, s, k) && s'.nodes.Keys == s.nodes.Keys
    requires forall j :: j in s.nodes && s.nodes[j].won.Some? ==> s'.nodes[j].won == s.nodes[j].won
    ensures Good(c, seeds, s', k)
  {
    if WonKey(s, k) {
      var j :| j in s.nodes && k in WonKeys(s.nodes[j]);
      assert j in s'.nodes && k in WonKeys(s'.nodes[j]);
    }
  }

  /** The key a READY sender hands out or seals with comes from the seeds. */
  lemma AnswerIsGood(c: Config, seeds: set<Name>, s: State, m: Msg)
    requires TrustInv(c, seeds, s) && m in s.sent && IsAnswer(m.body)
    ensures m.src in s.nodes && HoldsGood(c, seeds, s, m.src, s.nodes[m.src])
    ensures m.body.KeyResp? ==> Good(c, seeds, s, m.body.key) && |m.body.key| == KEY_SIZE
  {
    assert SentInv(c, s, m) && m.src in s.ready;
    var n := s.nodes[m.src];
    assert NodeTrust(c, seeds, s, m.src, n);
    if m.body.KeyResp? {
      var k :| Good(c, seeds, s, k) && Holds(m.src, n, k);
      HoldsOne(m.src, n, k, m.body.key);
    }
  }

  /** Keys agreed with a good holder are good. */
  lemma SameKeyIsGood(c: Config, seeds: set<Name>, s: State, i: Name, j: Name)
    requires i in s.nodes && j in s.nodes && HoldsGood(c, seeds, s, j, s.nodes[j]) && HoldsKnown(s.known, i, s.nodes[i])
    requires SecretKey(s.nodes[i].disk.value) == SecretKey(s.nodes[j].disk.value)
    ensures HoldsGood(c, seeds, s, i, s.nodes[i])
  {
    var k :| Good(c, seeds, s, k) && Holds(j, s.nodes[j], k);
    var k' :| k' in s.known && Holds(i, s.nodes[i], k');
    Hex.RoundTrip(k);
    Hex.RoundTrip(k');
  }

  /** A node that has just validated its file holds a key from the seeds. */
  lemma ValidatedIsGood(c: Config, seeds: set<Name>, s: State, l: Label)
    requires ValidConfig(c) && Ideal(c.suite) && TrustInv(c, seeds, s) && Enabled(c, s, l) && l.Handle?
    requires var n := s.nodes[l.i];
             && n.proc.Some? && n.proc.value.loop.Got? && n.proc.value.loop.seen == Validating
             && n.proc.value.loop.msg.body.ChallengeResp?
    requires IsReady(NextNode(c, l.i, s.nodes[l.i], l))
    ensures HoldsGood(c, seeds, s, l.i, s.nodes[l.i])
  {
    var m := s.nodes[l.i].proc.value.loop.msg;
    assert NodeInv(c, s.sent, s.known, l.i, s.nodes[l.i]);
    AnswerIsGood(c, seeds, s, m);
    var k, k', r := BothKeys(c, s, l.i, m);
    ReplyChecked(c, s, l.i, m, l.random, k, k', r);
    ApplyShape(c, s, l, Apply(c, s, l), NextNode(c, l.i, s.nodes[l.i], l), StepPosts(c, s, l));
    SameKeyIsGood(c, seeds, s, l.i, m.src);
  }

  lemma NodesMoved(c: Config, s: State, l: Label, s': State)
    requires ValidConfig(c) && Inv(c, s) && Enabled(c, s, l) && s' == Apply(c, s, l)
    ensures s'.nodes.Keys == s.nodes.Keys && (forall j :: j in s.nodes && j != l.i ==> s'.nodes[j] == s.nodes[j])
    ensures s'.nodes[l.i] == NextNode(c, l.i, s.nodes[l.i], l) && Grows(s.nodes[l.i], s'.nodes[l.i])
    ensures s'.ready == if IsReady(s'.nodes[l.i]) then s.ready + {l.i} else s.ready
    ensures s'.sent == s.sent + StepPosts(c, s, l)
  {
    StepMoves(c, s, l);
    ApplyShape(c, s, l, s', NextNode(c, l.i, s.nodes[l.i], l), StepPosts(c, s, l));
  }

  lemma GoodAfter(c: Config, seeds: set<Name>, s: State, l: Label, s': State, k: Bytes)
    requires ValidConfig(c) && Inv(c, s) && Enabled(c, s, l) && s' == Apply(c, s, l) && Good(c, seeds, s, k)
    ensures Good(c, seeds, s', k)
  {
    NodesMoved(c, s, l, s');
    GoodStays(c, seeds, s, s', k);
  }

  /** The file of the node that moves, when it changes. */
  lemma WrittenIsGood(c: Config, seeds: set<Name>, s: State, l: Label, s': State)
    requires ValidConfig(c) && TrustInv(c, seeds, s) && Enabled(c, s, l) && s' == Apply(c, s, l) && Inv(c, s')
    requires s'.nodes[l.i].disk != s.nodes[l.i].disk
    ensures HoldsGood(c, seeds, s', l.i, s'.nodes[l.i])
  {
    var n := s.nodes[l.i];
    NodesMoved(c, s, l, s');
    if l.Handle? {
      var p := n.proc.value;
      HandleIsDispatch(c, l.i, n, l);
      DispatchWrites(c, l.i, n, p, p.loop.msg, p.loop.seen, l.random);
      assert NodeInv(c, s.sent, s.known, l.i, n);
      AnswerIsGood(c, seeds, s, p.loop.msg);
      GoodAfter(c, seeds, s, l, s', p.loop.msg.body.key);
      assert Holds(l.i, s'.nodes[l.i], p.loop.msg.body.key);
    } else {
      OtherChanges(c, l.i, n, l);
      var k := n.proc.value.loop.key;
      assert k in WonKeys(s'.nodes[l.i]);
      assert WonKey(s', k);
      assert NodeInv(c, s'.sent, s'.known, l.i, s'.nodes[l.i]);
      assert Holds(l.i, s'.nodes[l.i], k);
    }
  }

  /** The file of the node that moves comes from the seeds before the step, if it must after it. */
  lemma GoodBefore(c: Config, seeds: set<Name>, s: State, l: Label)
    requires ValidConfig(c) && CommonSeeds(c, seeds) && Ideal(c.suite) && TrustInv(c, seeds, s) && Enabled(c, s, l)
    requires s.nodes[l.i].disk.Some?
    requires Trusted(c, seeds, s.ready, l.i) || IsReady(NextNode(c, l.i, s.nodes[l.i], l))
    ensures HoldsGood(c, seeds, s, l.i, s.nodes[l.i])
  {
    assert NodeTrust(c, seeds, s, l.i, s.nodes[l.i]);
    if !Trusted(c, seeds, s.ready, l.i) {
      BecomesReady(c, l.i, s.nodes[l.i], l);
      UntrustedValidates(c, seeds, s, l);
      ValidatedIsGood(c, seeds, s, l);
    }
  }

  /** The file of the node that moves, when it stays. */
  lemma KeptIsGood(c: Config, seeds: set<Name>, s: State, l: Label, s': State)
    requires ValidConfig(c) && Inv(c, s) && Enabled(c, s, l) && s' == Apply(c, s, l)
    requires HoldsGood(c, seeds, s, l.i, s.nodes[l.i])
    ensures l.i in s'.nodes && HoldsGood(c, seeds, s', l.i, s'.nodes[l.i])
  {
    NodesMoved(c, s, l, s');
    var k :| Good(c, seeds, s, k) && Holds(l.i, s.nodes[l.i], k);
    GoodAfter(c, seeds, s, l, s', k);
    assert Holds(l.i, s'.nodes[l.i], k);
  }

  /** A non-seed with the file it started with becomes READY by validating only. */
  lemma UntrustedValidates(c: Config, seeds: set<Name>, s: State, l: Label)
    requires TrustInv(c, seeds, s) && Enabled(c, s, l) && l.i !in seeds && s.nodes[l.i].disk.Some?
    requires CommonSeeds(c, seeds) && Becoming(c, l.i, s.nodes[l.i], l)
    ensures var p := s.nodes[l.i].proc.value;
            l.Handle? && p.loop.Got? && p.loop.seen == Validating && p.loop.msg.body.ChallengeResp?
  {
    var n := s.nodes[l.i];
    assert NodeTrust(c, seeds, s, l.i, n) && NodeInv(c, s.sent, s.known, l.i, n);
    CompletingHasNoFile(c, s.sent, s.known, l.i, n);
  }

  lemma CompletingHasNoFile(c: Config, sent: set<Msg>, known: set<Bytes>, i: Name, n: Node)
    requires i in c.seedLists && n.proc.Some? && NodeInv(c, sent, known, i, n)
    ensures n.proc.value.loop.Complete? ==> n.disk.None?
  {
    if n.proc.value.loop.Complete? { assert Active(c, sent, i, n, n.proc.value); }
  }

  lemma AnswersFromReady(c: Config, seeds: set<Name>, s: State, l: Label, s': State, m: Msg)
    requires ValidConfig(c) && TrustInv(c, seeds, s) && Enabled(c, s, l) && s' == Apply(c, s, l)
    requires m in s'.sent && IsAnswer(m.body)
    ensures m.src in s'.ready
  {
    NodesMoved(c, s, l, s');
    if m !in s.sent {
      assert m in StepPosts(c, s, l);
      AnswerPosted(c, s, l, m);
      assert NodeTrust(c, seeds, s, l.i, s.nodes[l.i]);
    }
  }

  lemma AnswerPosted(c: Config, s: State, l: Label, m: Msg)
    requires ValidConfig(c) && Inv(c, s) && Enabled(c, s, l) && m in StepPosts(c, s, l) && IsAnswer(m.body)
    ensures l.SendReply? && m.src == l.i && s.nodes[l.i].proc.Some? && s.nodes[l.i].proc.value.replies != multiset{}
  {
    var n := s.nodes[l.i];
    if !Sends(l) {
      OtherwiseSilent(c, l.i, n, l);
    } else if l.AskPeer? {
      AskQuestions(n, n.proc.value, l.i, l.ok);
    }
  }

  lemma AskQuestions(n: Node, p: Proc, i: Name, ok: bool)
    ensures var st := AskOne(n, p, i, ok); st.Step? && (st.out.Send? ==> !IsAnswer(st.out.body))
  {
  }

  lemma MoverTrust(c: Config, seeds: set<Name>, s: State, l: Label, s': State)
    requires ValidConfig(c) && CommonSeeds(c, seeds) && Ideal(c.suite) && TrustInv(c, seeds, s) && Enabled(c, s, l)
    requires s' == Apply(c, s, l) && Inv(c, s')
    ensures l.i in s'.nodes && NodeTrust(c, seeds, s', l.i, s'.nodes[l.i])
  {
    var n, n' := s.nodes[l.i], NextNode(c, l.i, s.nodes[l.i], l);
    NodesMoved(c, s, l, s');
    assert NodeTrust(c, seeds, s, l.i, n);
    if n'.disk.Some? && Trusted(c, seeds, s'.ready, l.i) {
      if n'.disk != n.disk {
        WrittenIsGood(c, seeds, s, l, s');
      } else {
        GoodBefore(c, seeds, s, l);
        KeptIsGood(c, seeds, s, l, s');
      }
    }
    MoverTasks(c, s.sent, s.known, l.i, n, l);
  }

  lemma MoverTasks(c: Config, sent: set<Msg>, known: set<Bytes>, i: Name, n: Node, l: Label)
    requires i in c.seedLists && NodeInv(c, sent, known, i, n) && LocalEnabled(c, i, n, l)
    ensures var n' := NextNode(c, i, n, l);
            && (n'.proc.Some? && n'.proc.value.replies != multiset{} ==>
                  n.proc.Some? && (n.proc.value.replies != multiset{} || IsReady(n)))
            && (n'.proc.Some? && n'.proc.value.pc.OwnKey? ==>
                  i in c.seedLists[i] || (n.proc.Some? && n.proc.value.pc.OwnKey?))
  {
    if l.Handle? && n.proc.Some? {
      var p := n.proc.value;
      HandleIsDispatch(c, i, n, l);
      DispatchWrites(c, i, n, p, p.loop.msg, p.loop.seen, l.random);
    } else {
      OtherChanges(c, i, n, l);
    }
  }

  lemma OtherTrust(c: Config, seeds: set<Name>, s: State, l: Label, s': State, j: Name)
    requires ValidConfig(c) && TrustInv(c, seeds, s) && Enabled(c, s, l) && s' == Apply(c, s, l)
    requires j in s.nodes && j != l.i
    ensures j in s'.nodes && NodeTrust(c, seeds, s', j, s'.nodes[j])
  {
    NodesMoved(c, s, l, s');
    var n := s.nodes[j];
    assert NodeTrust(c, seeds, s, j, n);
    if n.disk.Some? && Trusted(c, seeds, s'.ready, j) {
      var k :| Good(c, seeds, s, k) && Holds(j, n, k);
      GoodAfter(c, seeds, s, l, s', k);
    }
  }

  lemma TrustStep(c: Config, seeds: set<Name>, s: State, l: Label)
    requires ValidConfig(c) && CommonSeeds(c, seeds) && Ideal(c.suite) && TrustInv(c, seeds, s) && Enabled(c, s, l)
    ensures TrustInv(c, seeds, Apply(c, s, l))
  {
    var s' := Apply(c, s, l);
    StepInv(c, s, l);
    NodesMoved(c, s, l, s');
    forall j | j in s'.nodes ensures NodeTrust(c, seeds, s', j, s'.nodes[j]) {
      if j == l.i { MoverTrust(c, seeds, s, l, s'); } else { OtherTrust(c, seeds, s, l, s', j); }
    }
    forall m | m in s'.sent && IsAnswer(m.body) ensures m.src in s'.ready { AnswersFromReady(c, seeds, s, l, s', m); }
  }

  lemma TrustInit(c: Config, seeds: set<Name>)
    requires ValidConfig(c)
    ensures TrustInv(c, seeds, Init(c))
  {
    InitInv(c);
    var s := Init(c);
    forall i | i in s.nodes ensures NodeTrust(c, seeds, s, i, s.nodes[i]) {
      if i in c.preset && i in seeds {
        assert SeedKey(c, seeds, c.preset[i]);
        assert Holds(i, s.nodes[i], c.preset[i]);
      }
    }
  }

  lemma {:induction false} TrustRun(c: Config, seeds: set<Name>, ls: seq<Label>)
    requires ValidConfig(c) && CommonSeeds(c, seeds) && Ideal(c.suite) && Exec(c, ls).Some?
    ensures TrustInv(c, seeds, Exec(c, ls).value)
  {
    if ls == [] {
      TrustInit(c, seeds);
    } else {
      TrustRun(c, seeds, ls[..|ls| - 1]);
      TrustStep(c, seeds, Exec(c, ls[..|ls| - 1]).value, ls[|ls| - 1]);
    }
  }

  // ----------------------------------------------------------------- results

  lemma GoodAgree(c: Config, seeds: set<Name>, s: State, k: Bytes, k': Bytes)
    requires ValidConfig(c) && CommonSeeds(c, seeds) && SafeSeedFiles(c, seeds) && Inv(c, s)
    requires Good(c, seeds, s, k) && Good(c, seeds, s, k')
    ensures k == k'
  {
    if z :| z in seeds && z in c.preset {
      forall x | x in s.nodes ensures s.nodes[x].won.None? { PresetSeedBlocksSeeding(c, seeds, s, z, x); }
    } else {
      var x :| x in s.nodes && k in WonKeys(s.nodes[x]);
      var z :| z in s.nodes && k' in WonKeys(s.nodes[z]);
      CompletedAgree(c, seeds, s, x, z);
    }
  }

  /** After the run, two READY nodes hold the same key. */
  ghost predicate ReadyAgreeAt(c: Config, ls: seq<Label>, i: Name, j: Name) {
    Exec(c, ls).Some? && i in Exec(c, ls).value.nodes && j in Exec(c, ls).value.nodes ==>
      var a, b := Exec(c, ls).value.nodes[i], Exec(c, ls).value.nodes[j];
      IsReady(a) && IsReady(b) ==> a.disk.Some? && b.disk.Some? && SecretKey(a.disk.value) == SecretKey(b.disk.value)
  }

  lemma ReadyAgree(c: Config, seeds: set<Name>, ls: seq<Label>, i: Name, j: Name)
    requires ValidConfig(c) && CommonSeeds(c, seeds) && Ideal(c.suite) && SafeSeedFiles(c, seeds)
    ensures ReadyAgreeAt(c, ls, i, j)
  {
    if Exec(c, ls).Some? {
      TrustRun(c, seeds, ls);
      var s := Exec(c, ls).value;
      if i in s.nodes && j in s.nodes && IsReady(s.nodes[i]) && IsReady(s.nodes[j]) {
        assert NodeTrust(c, seeds, s, i, s.nodes[i]) && NodeTrust(c, seeds, s, j, s.nodes[j]);
        assert NodeInv(c, s.sent, s.known, i, s.nodes[i]) && NodeInv(c, s.sent, s.known, j, s.nodes[j]);
        var k :| Good(c, seeds, s, k) && Holds(i, s.nodes[i], k);
        var k' :| Good(c, seeds, s, k') && Holds(j, s.nodes[j], k');
        GoodAgree(c, seeds, s, k, k');
      }
    }
  }

  /** A seed with a file starts and is READY. */
  lemma OwnKeyStart(c: Config, ls: seq<Label>, s: State, i: Name) returns (ls': seq<Label>, s': State)
    requires Exec(c, ls) == Some(s) && i in s.nodes && i in c.seedLists && i in c.seedLists[i]
    requires s.nodes[i].proc.None? && s.nodes[i].disk.Some?
    ensures Exec(c, ls') == Some(s') && s'.nodes.Keys == s.nodes.Keys
    ensures forall j :: j in s.nodes && j != i ==> s'.nodes[j] == s.nodes[j]
    ensures s'.nodes[i].disk == s.nodes[i].disk && IsReady(s'.nodes[i])
  {
    var ls1, s1 := OneStep(c, ls, s, Boot(i));
    var ls2, s2 := OneStep(c, ls1, s1, StartRead(i));
    ls', s' := OneStep(c, ls2, s2, OwnKeyReady(i));
  }

  lemma OneStep(c: Config, ls: seq<Label>, s: State, l: Label) returns (ls': seq<Label>, s': State)
    requires Exec(c, ls) == Some(s) && Enabled(c, s, l)
    ensures Exec(c, ls') == Some(s') && s'.nodes == s.nodes[l.i := NextNode(c, l.i, s.nodes[l.i], l)]
  {
    ls', s' := ls + [l], Apply(c, s, l);
    assert ls'[..|ls'| - 1] == ls;
    ApplyShape(c, s, l, s', NextNode(c, l.i, s.nodes[l.i], l), StepPosts(c, s, l));
  }

  lemma DifferentSeedFiles(c: Config, seeds: set<Name>, x: Name, z: Name) returns (ls: seq<Label>)
    requires ValidConfig(c) && CommonSeeds(c, seeds) && x in seeds && z in seeds && x in c.preset && z in c.preset
    requires c.preset[x] != c.preset[z]
    ensures !ReadyAgreeAt(c, ls, x, z)
  {
    var ls1, s1 := OwnKeyStart(c, [], Init(c), x);
    var s2;
    ls, s2 := OwnKeyStart(c, ls1, s1, z);
    Hex.RoundTrip(c.preset[x]);
    Hex.RoundTrip(c.preset[z]);
  }

  /** READY nodes agree in all runs if and only if the seeds do not start from different files. */
  lemma ReadyAgreementIffSeedFiles(c: Config, seeds: set<Name>)
    requires ValidConfig(c) && CommonSeeds(c, seeds) && Ideal(c.suite)
    ensures (forall ls, i, j :: ReadyAgreeAt(c, ls, i, j)) <==> SafeSeedFiles(c, seeds)
  {
    if SafeSeedFiles(c, seeds) {
      forall ls, i, j ensures ReadyAgreeAt(c, ls, i, j) { ReadyAgree(c, seeds, ls, i, j); }
    } else {
      var x, z :| x in seeds && z in seeds && x in c.preset && z in c.preset && c.preset[x] != c.preset[z];
      var ls := DifferentSeedFiles(c, seeds, x, z);
    }
  }
}
