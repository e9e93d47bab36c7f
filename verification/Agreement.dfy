/**
 * Agreement over every run, with crashes and restarts at any point and whoever acts as master: two
 * seeds that list each other never complete different keys; with one common seed list, from empty
 * files, all keys on all disks are equal.
 */
module Agreement {
  import opened Basics
  import opened Vault
  import opened Protocol
  import opened Invariant
  import opened Preserve
  import Hex

  lemma InitNode(c: Config, i: Name)
    requires ValidConfig(c) && i in c.names
    ensures var s := Init(c); NodeInv(c, s.sent, s.known, i, s.nodes[i])
  {
    var s := Init(c);
    if i in c.preset {
      assert c.preset[i] in s.known && Holds(i, s.nodes[i], c.preset[i]);
    }
  }

  lemma InitInv(c: Config)
    requires ValidConfig(c)
    ensures Inv(c, Init(c))
  {
    var s := Init(c);
    forall i | i in s.nodes ensures i in c.seedLists && NodeInv(c, s.sent, s.known, i, s.nodes[i]) { InitNode(c, i); }
    forall k | k in s.known ensures KnownInv(c, s, k) {}
  }

  // -------------------------------------------------------------- one step

  /** What one step is to the rest of the cluster: node `i` moves on and `posted` is sent. */
  ghost predicate Moved(c: Config, s: State, s': State, i: Name, posted: set<Msg>) {
    && i in s.nodes && i in c.seedLists && s'.nodes.Keys == s.nodes.Keys
    && (forall j :: j in s.nodes && j != i ==> s'.nodes[j] == s.nodes[j])
    && Kept(c, s.sent, s.known, i, s.nodes[i], s'.nodes[i])
    && s'.sent == s.sent + posted && s'.known == s.known + WonKeys(s'.nodes[i])
    && s'.ready == (if IsReady(s'.nodes[i]) then s.ready + {i} else s.ready)
    && (forall m :: m in s'.net ==> m in s.net || m in posted)
    && (forall m :: m in posted ==> Outgoing(c, s, i, m))
  }

  ghost predicate Outgoing(c: Config, s: State, i: Name, m: Msg)
    requires i in s.nodes
  {
    && m.src == i && m.srcInc == s.nodes[i].inc && m.dst in s.nodes && m.dstInc == s.nodes[m.dst].inc && m.dstInc >= 1
    && MsgFacts(s.known, m)
    && SenderFacts(c, i, s.nodes[i], m.srcInc, m.dst, m.body)
  }

  ghost function StepPosts(c: Config, s: State, l: Label): set<Msg>
    requires Enabled(c, s, l)
  {
    Posted(s, l.i, LocalStep(c, l.i, s.nodes[l.i], l))
  }

  lemma StepOutgoing(c: Config, s: State, l: Label)
    requires ValidConfig(c) && Inv(c, s) && Enabled(c, s, l)
    ensures forall m :: m in StepPosts(c, s, l) ==> Outgoing(c, s, l.i, m)
  {
    if LocalStep(c, l.i, s.nodes[l.i], l).Step? { NodeStepSends(c, s.sent, s.known, l.i, s.nodes[l.i], l); }
  }

  lemma StepKept(c: Config, s: State, l: Label)
    requires ValidConfig(c) && Inv(c, s) && Enabled(c, s, l)
    ensures Kept(c, s.sent, s.known, l.i, s.nodes[l.i], NextNode(c, l.i, s.nodes[l.i], l))
  {
    if l.Handle? { assert SentInv(c, s, s.nodes[l.i].proc.value.loop.msg); }
    NodeStepKeeps(c, s.sent, s.known, l.i, s.nodes[l.i], l);
  }

  lemma ApplyShape(c: Config, s: State, l: Label, s': State, n': Node, posted: set<Msg>)
    requires Enabled(c, s, l) && s' == Apply(c, s, l)
    requires n' == NextNode(c, l.i, s.nodes[l.i], l) && posted == StepPosts(c, s, l)
    ensures s'.nodes == s.nodes[l.i := n'] && s'.sent == s.sent + posted && s'.known == s.known + WonKeys(n')
    ensures s'.ready == (if IsReady(n') then s.ready + {l.i} else s.ready)
    ensures forall m :: m in s'.net ==> m in s.net || m in posted
  {
  }

  lemma StepMoves(c: Config, s: State, l: Label)
    requires ValidConfig(c) && Inv(c, s) && Enabled(c, s, l)
    ensures Moved(c, s, Apply(c, s, l), l.i, StepPosts(c, s, l))
  {
    StepOutgoing(c, s, l);
    StepKept(c, s, l);
    var n' := NextNode(c, l.i, s.nodes[l.i], l);
    ApplyShape(c, s, l, Apply(c, s, l), n', StepPosts(c, s, l));
    ShapeMoves(c, s, l.i, Apply(c, s, l), n', StepPosts(c, s, l));
  }

  lemma ShapeMoves(c: Config, s: State, i: Name, s': State, n': Node, posted: set<Msg>)
    requires i in s.nodes && i in c.seedLists && Kept(c, s.sent, s.known, i, s.nodes[i], n')
    requires forall m :: m in posted ==> Outgoing(c, s, i, m)
    requires s'.nodes == s.nodes[i := n'] && s'.sent == s.sent + posted && s'.known == s.known + WonKeys(n')
    requires s'.ready == (if IsReady(n') then s.ready + {i} else s.ready)
    requires forall m :: m in s'.net ==> m in s.net || m in posted
    ensures Moved(c, s, s', i, posted)
  {
  }

  lemma SenderFactsGrow(c: Config, i: Name, n: Node, n': Node, inc: nat, dst: Name, body: Body)
    requires Grows(n, n') && SenderFacts(c, i, n, inc, dst, body)
    ensures SenderFacts(c, i, n', inc, dst, body)
  {
    if body.ChallengeResp? {
      var k :| Holds(i, n, k) && BoxOf(c, k, dst, body.box);
      assert Holds(i, n', k);
    }
  }

  lemma MovedNodes(c: Config, s: State, s': State, i: Name, posted: set<Msg>)
    requires Inv(c, s) && Moved(c, s, s', i, posted)
    ensures forall j :: j in s'.nodes ==> j in c.seedLists && NodeInv(c, s'.sent, s'.known, j, s'.nodes[j])
  {
    forall j | j in s'.nodes ensures j in c.seedLists && NodeInv(c, s'.sent, s'.known, j, s'.nodes[j]) {
      if j == i {
        NodeInvGrows(c, s.sent, s.known + WonKeys(s'.nodes[i]), s'.sent, s'.known, i, s'.nodes[i]);
      } else {
        NodeInvGrows(c, s.sent, s.known, s'.sent, s'.known, j, s.nodes[j]);
      }
    }
  }

  lemma MovedSent(c: Config, s: State, s': State, i: Name, posted: set<Msg>, m: Msg)
    requires Inv(c, s) && Moved(c, s, s', i, posted) && m in s'.sent
    ensures SentInv(c, s', m)
    ensures m !in s.sent ==> m.srcInc == s.nodes[m.src].inc && m.dstInc == s.nodes[m.dst].inc
  {
    if m in s.sent { assert SentInv(c, s, m); } else { assert Outgoing(c, s, i, m); }
    SenderFactsGrow(c, m.src, s.nodes[m.src], s'.nodes[m.src], m.srcInc, m.dst, m.body);
  }

  lemma MovedOrdered(c: Config, s: State, s': State, i: Name, posted: set<Msg>, m: Msg, m': Msg)
    requires Inv(c, s) && Moved(c, s, s', i, posted) && m in s'.sent && m' in s'.sent
    ensures Ordered(m, m')
  {
    if m in s.sent { assert SentInv(c, s, m); } else { assert Outgoing(c, s, i, m); }
    if m' in s.sent { assert SentInv(c, s, m'); } else { assert Outgoing(c, s, i, m'); }
  }

  lemma MovedKnown(c: Config, s: State, s': State, i: Name, posted: set<Msg>, k: Bytes)
    requires Inv(c, s) && Moved(c, s, s', i, posted) && k in s'.known
    ensures KnownInv(c, s', k)
  {
    if k in s.known {
      assert KnownInv(c, s, k);
      if k !in c.preset.Values {
        var j :| j in s.nodes && k in WonKeys(s.nodes[j]);
        assert j in s'.nodes && k in WonKeys(s'.nodes[j]);
      }
    } else {
      assert i in s'.nodes && k in WonKeys(s'.nodes[i]);
    }
  }

  lemma MovedReady(c: Config, s: State, s': State, i: Name, posted: set<Msg>)
    requires Inv(c, s) && Moved(c, s, s', i, posted)
    ensures forall j :: j in s'.ready ==> j in s'.nodes && s'.nodes[j].disk.Some?
  {
  }

  lemma MovedInv(c: Config, s: State, s': State, i: Name, posted: set<Msg>)
    requires Inv(c, s) && Moved(c, s, s', i, posted)
    ensures Inv(c, s')
  {
    MovedNodes(c, s, s', i, posted);
    MovedReady(c, s, s', i, posted);
    forall m | m in s'.sent ensures SentInv(c, s', m) { MovedSent(c, s, s', i, posted, m); }
    forall m, m' | m in s'.sent && m' in s'.sent ensures Ordered(m, m') { MovedOrdered(c, s, s', i, posted, m, m'); }
    forall k | k in s'.known ensures KnownInv(c, s', k) { MovedKnown(c, s, s', i, posted, k); }
  }

  lemma StepInv(c: Config, s: State, l: Label)
    requires ValidConfig(c) && Inv(c, s) && Enabled(c, s, l)
    ensures Inv(c, Apply(c, s, l))
  {
    StepMoves(c, s, l);
    MovedInv(c, s, Apply(c, s, l), l.i, StepPosts(c, s, l));
  }

  lemma {:induction false} RunInv(c: Config, ls: seq<Label>)
    requires ValidConfig(c) && Exec(c, ls).Some?
    ensures Inv(c, Exec(c, ls).value)
  {
    if ls == [] {
      InitInv(c);
    } else {
      RunInv(c, ls[..|ls| - 1]);
      StepInv(c, Exec(c, ls[..|ls| - 1]).value, ls[|ls| - 1]);
    }
  }

  // --------------------------------------------------------------- agreement

  /** The heart: each completed node heard the other, and both messages cannot cross incarnations. */
  lemma CrossedMessages(c: Config, s: State, m: Msg, m': Msg, wx: Won, wz: Won)
    requires m.src in s.nodes && m.dst in s.nodes && m'.src == m.dst && m'.dst == m.src
    requires SentInv(c, s, m) && SentInv(c, s, m') && Ordered(m, m')
    requires m.dstInc == wx.inc && m.body == KeyInit(wx.key) && m'.dstInc == wz.inc && m'.body == KeyInit(wz.key)
    requires var x := s.nodes[m.dst]; wx.inc in x.fixed && x.fixed[wx.inc] == wx.key && forall y :: y in x.fixed ==>
               y <= wx.inc
    requires var z := s.nodes[m.src]; wz.inc in z.fixed && z.fixed[wz.inc] == wz.key && forall y :: y in z.fixed ==>
               y <= wz.inc
    ensures wx.key == wz.key
  {
    assert m.srcInc <= wz.inc && m'.srcInc <= wx.inc;
  }

  lemma CompletedPairAgrees(c: Config, s: State, x: Name, z: Name)
    requires Inv(c, s) && x in s.nodes && z in s.nodes
    requires s.nodes[x].won.Some? && s.nodes[z].won.Some?
    requires x in Others(c, z) && z in Others(c, x)
    ensures s.nodes[x].won.value.key == s.nodes[z].won.value.key
  {
    var wx, wz := s.nodes[x].won.value, s.nodes[z].won.value;
    assert Heard(s.sent, z, x, wx.inc, wx.key);
    var m :| m in s.sent && m.src == z && m.dst == x && m.dstInc == wx.inc && m.body == KeyInit(wx.key);
    assert Heard(s.sent, x, z, wz.inc, wz.key);
    var m' :| m' in s.sent && m'.src == x && m'.dst == z && m'.dstInc == wz.inc && m'.body == KeyInit(wz.key);
    CrossedMessages(c, s, m, m', wx, wz);
  }

  /** Two seeds that list each other never both finish seeding with different keys, crashes and all. */
  lemma PairwiseSeedAgreement(c: Config, ls: seq<Label>, x: Name, z: Name)
    requires ValidConfig(c) && Exec(c, ls).Some?
    requires x in c.names && z in c.names && x in Others(c, z) && z in Others(c, x)
    ensures var s := Exec(c, ls).value;
            x in s.nodes && z in s.nodes &&
            (s.nodes[x].won.Some? && s.nodes[z].won.Some? ==> s.nodes[x].won.value.key == s.nodes[z].won.value.key)
  {
    RunInv(c, ls);
    var s := Exec(c, ls).value;
    if s.nodes[x].won.Some? && s.nodes[z].won.Some? { CompletedPairAgrees(c, s, x, z); }
  }

  /** One seed list for the whole cluster. */
  ghost predicate CommonSeeds(c: Config, seeds: set<Name>) {
    forall i :: i in c.names ==> i in c.seedLists && c.seedLists[i] == seeds
  }

  lemma CommonListsEachOther(c: Config, seeds: set<Name>, x: Name, z: Name)
    requires ValidConfig(c) && CommonSeeds(c, seeds) && x in c.names && z in c.names && x != z
    requires x in seeds && z in seeds
    ensures x in Others(c, z) && z in Others(c, x)
  {
    OthersNoDup(c, x);
    OthersNoDup(c, z);
    assert x in ToSet(Others(c, z)) && z in ToSet(Others(c, x));
  }

  lemma CompletedAgree(c: Config, seeds: set<Name>, s: State, x: Name, z: Name)
    requires ValidConfig(c) && CommonSeeds(c, seeds) && Inv(c, s)
    requires x in s.nodes && z in s.nodes && s.nodes[x].won.Some? && s.nodes[z].won.Some?
    ensures s.nodes[x].won.value.key == s.nodes[z].won.value.key
  {
    assert IsSeed(c, x) && IsSeed(c, z);
    if x != z {
      CommonListsEachOther(c, seeds, x, z);
      CompletedPairAgrees(c, s, x, z);
    }
  }

  /**
   * The files the cluster may start from: none, or copies of a single key of which at least one lies
   * with a seed.
   */
  ghost predicate SafePreset(c: Config, seeds: set<Name>) {
    || c.preset == map[]
    || (&& (forall i, j :: i in c.preset && j in c.preset ==> c.preset[i] == c.preset[j])
        && exists z :: z in seeds && z in c.preset)
  }

  /** Whoever was heard by a completed node has fixed a key at some time. */
  lemma HeardFixed(c: Config, s: State, z: Name, x: Name)
    requires Inv(c, s) && x in s.nodes && s.nodes[x].won.Some? && z in Others(c, x)
    ensures z in s.nodes && s.nodes[z].fixed != map[]
  {
    var w := s.nodes[x].won.value;
    assert Heard(s.sent, z, x, w.inc, w.key);
    var m :| m in s.sent && m.src == z && m.dst == x && m.dstInc == w.inc && m.body == KeyInit(w.key);
    assert SentInv(c, s, m);
  }

  /** A seed that starts with a key never seeds, so nobody ever completes a seeding. */
  lemma PresetSeedBlocksSeeding(c: Config, seeds: set<Name>, s: State, z: Name, x: Name)
    requires ValidConfig(c) && CommonSeeds(c, seeds) && Inv(c, s)
    requires z in seeds && z in c.preset && x in s.nodes
    ensures s.nodes[x].won.None?
  {
    if s.nodes[x].won.Some? && x != z {
      assert IsSeed(c, x);
      CommonListsEachOther(c, seeds, x, z);
      HeardFixed(c, s, z, x);
    }
  }

  lemma KnownAgree(c: Config, seeds: set<Name>, s: State, k: Bytes, k': Bytes)
    requires ValidConfig(c) && CommonSeeds(c, seeds) && SafePreset(c, seeds) && Inv(c, s)
    requires k in s.known && k' in s.known
    ensures k == k'
  {
    assert KnownInv(c, s, k) && KnownInv(c, s, k');
    if c.preset == map[] {
      var x :| x in s.nodes && k in WonKeys(s.nodes[x]);
      var z :| z in s.nodes && k' in WonKeys(s.nodes[z]);
      CompletedAgree(c, seeds, s, x, z);
    } else {
      var z :| z in seeds && z in c.preset;
      forall x | x in s.nodes ensures s.nodes[x].won.None? { PresetSeedBlocksSeeding(c, seeds, s, z, x); }
    }
  }

  lemma DisksAgree(c: Config, seeds: set<Name>, s: State, i: Name, j: Name)
    requires ValidConfig(c) && CommonSeeds(c, seeds) && SafePreset(c, seeds) && Inv(c, s)
    requires i in s.nodes && j in s.nodes && s.nodes[i].disk.Some? && s.nodes[j].disk.Some?
    ensures SecretKey(s.nodes[i].disk.value) == SecretKey(s.nodes[j].disk.value)
    ensures SecretKey(s.nodes[i].disk.value).Some? && |SecretKey(s.nodes[i].disk.value).value| == KEY_SIZE
  {
    var k :| k in s.known && Holds(i, s.nodes[i], k);
    var k' :| k' in s.known && Holds(j, s.nodes[j], k');
    KnownAgree(c, seeds, s, k, k');
    Hex.RoundTrip(k);
  }

  /** Over every run, all master keys on disk anywhere in the cluster are equal. */
  lemma ClusterAgreement(c: Config, seeds: set<Name>, ls: seq<Label>, i: Name, j: Name)
    requires ValidConfig(c) && CommonSeeds(c, seeds) && SafePreset(c, seeds) && Exec(c, ls).Some?
    requires i in c.names && j in c.names
    ensures var s := Exec(c, ls).value;
            && i in s.nodes && j in s.nodes
            && (s.nodes[i].disk.Some? && s.nodes[j].disk.Some? ==>
                  && SecretKey(s.nodes[i].disk.value).Some?
                  && SecretKey(s.nodes[i].disk.value) == SecretKey(s.nodes[j].disk.value))
            && (IsReady(s.nodes[i]) ==> s.nodes[i].disk.Some?)
  {
    RunInv(c, ls);
    var s := Exec(c, ls).value;
    if s.nodes[i].disk.Some? && s.nodes[j].disk.Some? { DisksAgree(c, seeds, s, i, j); }
  }
}
