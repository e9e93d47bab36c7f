/** Heartbeats in a cluster that agrees on its key: beats of READY peers never count as errors. */
module HonestBeats {
  import opened Basics
  import opened Vault
  import opened Protocol
  import opened Invariant
  import opened Agreement
  import opened Threads
  import opened Heartbeat
  import Hex
  import KeyStore

  /** What the key store gives a running node, as `encProvider` asks it. */
  ghost function VaultOf(n: Node): Option<Member>
    requires n.proc.Some?
  {
    KeyStore.ReadThrough(n.proc.value.cache, n.disk)
  }

  lemma {:induction false} KnownGrows(c: Config, ls: seq<Label>, ls': seq<Label>)
    requires ls <= ls' && Exec(c, ls').Some?
    ensures Exec(c, ls).Some? && Exec(c, ls).value.known <= Exec(c, ls').value.known
    decreases |ls'|
  {
    if ls != ls' {
      assert ls <= ls'[..|ls'| - 1];
      KnownGrows(c, ls, ls'[..|ls'| - 1]);
    } else {
      assert ls == ls';
    }
  }

  /** A READY node's vault holds a key the cluster knows. */
  lemma ReadyVault(c: Config, ls: seq<Label>, i: Name) returns (k: Bytes)
    requires ValidConfig(c) && Exec(c, ls).Some? && i in Exec(c, ls).value.nodes && IsReady(Exec(c, ls).value.nodes[i])
    ensures k in Exec(c, ls).value.known && |k| == KEY_SIZE
    ensures VaultOf(Exec(c, ls).value.nodes[i]) == Some(FileFor(i, k))
  {
    RunInv(c, ls);
    StoreCoherent(c, ls, i);
    var s := Exec(c, ls).value;
    k :| k in s.known && Holds(i, s.nodes[i], k);
    assert KnownInv(c, s, k);
  }

  /**
   * A READY node always has a key to report with and to check with, so that the tests of `LocalHeartBeat`
   * and `ValidateNonce` for a missing vault are never decided.
   */
  lemma ReadyNodeReports(c: Config, ls: seq<Label>, i: Name, nonce: Bytes, random: Bytes)
    requires ValidConfig(c) && Exec(c, ls).Some?
    requires i in Exec(c, ls).value.nodes && IsReady(Exec(c, ls).value.nodes[i])
    ensures VaultOf(Exec(c, ls).value.nodes[i]).Some?
    ensures var r := LocalHeartBeat(c.suite, VaultOf(Exec(c, ls).value.nodes[i]), nonce, random); r.Ok? && r.value.Some?
  {
    var k := ReadyVault(c, ls, i);
    Hex.RoundTrip(k);
  }

  /** `s` is a beat that node `s.id`, READY after `ls`, reported about itself. */
  ghost predicate HonestSample(c: Config, ls: seq<Label>, s: Sample, nonce: Bytes, random: Bytes) {
    && Exec(c, ls).Some? && s.id in Exec(c, ls).value.nodes && IsReady(Exec(c, ls).value.nodes[s.id])
    && LocalHeartBeat(c.suite, VaultOf(Exec(c, ls).value.nodes[s.id]), nonce, random) == Ok(Some(Beat(s.nonce, s.box)))
  }

  /** It was reported at some point of the run, however much earlier, perhaps by a process that is gone. */
  ghost predicate FromReadyPeer(c: Config, ls: seq<Label>, s: Sample) {
    exists ls0, nonce, random :: ls0 <= ls && HonestSample(c, ls0, s, nonce, random)
  }

  /** Over every run, a READY node finds every beat of a READY peer valid. */
  lemma HonestBeatsAreValid(c: Config, seeds: set<Name>, ls: seq<Label>, i: Name, s: Sample)
    requires ValidConfig(c) && CommonSeeds(c, seeds) && SafePreset(c, seeds) && Ideal(c.suite)
    requires Exec(c, ls).Some? && i in Exec(c, ls).value.nodes && IsReady(Exec(c, ls).value.nodes[i])
    requires FromReadyPeer(c, ls, s)
    ensures ValidateNonce(c.suite, VaultOf(Exec(c, ls).value.nodes[i]), s) == None
  {
    var ls0, nonce, random :| ls0 <= ls && HonestSample(c, ls0, s, nonce, random);
    var k := ReadyVault(c, ls, i);
    var k0 := ReadyVault(c, ls0, s.id);
    KnownGrows(c, ls0, ls);
    RunInv(c, ls);
    KnownAgree(c, seeds, Exec(c, ls).value, k, k0);
    HonestBeatValidIffSameKey(c.suite, i, k, s.id, k0, nonce, random, s.ts);
  }

  lemma {:induction false} NoInvalid(suite: Suite, vault: Option<Member>, data: seq<Sample>, id: Name)
    requires forall k :: 0 <= k < |data| ==> ValidateNonce(suite, vault, data[k]) == None
    ensures CountInvalid(suite, vault, data, id) == 0
  {
    if data != [] { NoInvalid(suite, vault, data[..|data| - 1], id); }
  }

  /** So a window of such beats has no errors, and each peer's total is the number of its beats. */
  lemma HonestWindowHasNoErrors(c: Config, seeds: set<Name>, ls: seq<Label>, i: Name, data: seq<Sample>,
                                stats: map<Name, Stat>)
    requires ValidConfig(c) && CommonSeeds(c, seeds) && SafePreset(c, seeds) && Ideal(c.suite)
    requires Exec(c, ls).Some? && i in Exec(c, ls).value.nodes && IsReady(Exec(c, ls).value.nodes[i])
    requires forall k :: 0 <= k < |data| ==> FromReadyPeer(c, ls, data[k])
    requires StatsOf(c.suite, VaultOf(Exec(c, ls).value.nodes[i]), data, stats)
    ensures forall id :: id in stats ==> stats[id] == Stat(Count(data, id), 0)
  {
    var vault := VaultOf(Exec(c, ls).value.nodes[i]);
    forall k | 0 <= k < |data| ensures ValidateNonce(c.suite, vault, data[k]) == None {
      HonestBeatsAreValid(c, seeds, ls, i, data[k]);
    }
    forall id | id in stats ensures stats[id] == Stat(Count(data, id), 0) { NoInvalid(c.suite, vault, data, id); }
  }
}
