# Betterkey: the master-key protocol and the components that use the key

A Betterkey cluster creates one 32-byte master key, spreads it to its nodes over attested channels, keeps it
in a sealed file on each node, and derives every other key from it. This project models that life cycle and
proves what it promises.

The heart is a transition system for the protocol of `internal/cluster` (`Protocol.dfy`). One label is one
atomic piece of one thread of one node: the thread of `Start`, the message loop, the notifier, the bootstrap
thread, or a background task. Threads of all nodes interleave freely, any process may crash between two steps,
sends may fail, and a run is any sequence of enabled labels (`Exec`). The main results are about all runs:
agreement on the key, exactly when seeding completes, how many messages it takes, that it ends, which panics
can be reached, and what each thread may rely on. Around it stand the heartbeat window manager, the lock over
the key-value store, and key derivation with sealing.

Code that works in place is modelled in place: `SeedNode`, `ClusterNode`, `NodeStateListener`,
`MasterKeyStore`, `StringSet`, `HeartBeatManager`, `ValKeyKeyService` and `CertStorage` are classes whose
methods are proved against functions on values. The steps of the transition system are those same functions.

| file | content |
|---|---|
| `Basics`, `Hex`, `Base64`, `Names`, `Vault` | bytes, codecs, name order and election, the member's secret |
| `KeyStore`, `Seed`, `NodeObject` | the key file with its cache, the seeding record, the node as an object |
| `Protocol`, `Invariant`, `Preserve` | the transition system, its invariant, and why every step keeps it |
| `Agreement`, `Exactness`, `ReadyAgreement` | agreement over all runs, and exactly when it holds |
| `CrashFree`, `Mismatch`, `Threads` | panics, the state graph, the key store behind its cache, restarts |
| `Completion`, `Timely`, `Scenarios` | completion of seeding, exactly when it happens, and a run in which it fails |
| `Joining` | exactly when a node that asks for the key, or for its key to be checked, becomes READY |
| `Traffic`, `TrafficExact`, `Termination` | number of key messages, and termination |
| `Heartbeat`, `HonestBeats` | the heartbeat windows, and heartbeats in a cluster that agrees |
| `Lock`, `LockStore` | the certificate lock and the store operations it is made of |
| `Aes`, `KeyService`, `Scalar` | sealing, key derivation, elliptic-curve scalars |

## Assumptions

- Member names are unique and not empty, and senders are who they say they are: channels are attested.
- `Ideal`: sealing is an ideal authenticated cipher. A box opens under the key it was sealed with, to the bytes
  that were sealed, and under no other key. `IdealGcm` says the same of AES-GCM with its nonce. `FullLength`
  says HKDF returns as many bytes as it is asked for. Only the results that name these predicates use them.
- A crash loses everything in memory; the file survives, and writing it is atomic. A message is handled only by
  the incarnation of its addressee that was running when it was sent.
- Gossip may be stale but not wrong: a member seen as READY has been READY.
- `CommonSeeds`: all nodes have the same SEED_NODES. `PairwiseSeedAgreement` and the thread results do without.
- Completion and the exact traffic need at least two seeds (`SeedCluster`). A lone seed never receives a key
  message, so it never completes.
- For heartbeats, a sample is stamped and inserted in one step and the clock does not run backwards.

Randomness, clocks, the outcome of sends and the gossip views are parameters of the labels and methods, so
every result holds for all of them.

## Model

| member | source | states |
|---|---|---|
| `Agreement.ClusterAgreement` | internal/cluster/seed.go:138-247 | over every run, with joins, restarts and crashes at any point and any choice of masters, all master keys on disk anywhere are equal, and a READY node has one |
| `Exactness.AgreementIffSafeFiles` | internal/cluster/node.go:97-127 | all runs agree if and only if the files the cluster starts from are safe: none, or all equal with a seed among their owners |
| `ReadyAgreement.ReadyAgreementIffSeedFiles` | internal/cluster/node.go:97-127 | READY nodes agree in all runs if and only if the files at the seeds hold no two different keys, whatever the other nodes start from |
| `Agreement.PairwiseSeedAgreement` | internal/cluster/seed.go:147-191 | without a common list, without the election and with crashes, two seeds that list each other never complete with different keys |
| `Agreement.RunInv` | internal/cluster/seed.go:102-247 | the invariant of the protocol holds in every reachable state |
| `Agreement.PresetSeedBlocksSeeding` | internal/cluster/node.go:105-127 | if a seed starts with a key on disk, no node ever completes a seeding |
| `Exactness.FreshClusterCompletes` | internal/cluster/seed.go:193-247 | for every key there is a run in which all seeds become READY with that key on disk |
| `Completion.CompletionAtQuiescence` | internal/cluster/seed.go:47-126 | with reliable sends and no early read, a run at rest has every seed READY, with the master's key on disk and its scratch data wiped |
| `Timely.ReadyIffTimely` | internal/cluster/seed.go:138-191 | in every crash-free run, whatever fails, a seed is READY if and only if it has read a key message of every other seed after it began to seed |
| `Timely.CompletedIffTimely` | internal/cluster/state.go:108-118 | with reliable sends, a run at rest has completed if and only if all those reads were in time |
| `Scenarios.EarlyKeyIsLost` | internal/cluster/state.go:110-118 | two seeds and a message read in NO_KEY: everything is at rest and nobody is READY |
| `Joining.ReadyIffAnswered` | internal/cluster/query.go:76-87 | in every run, crashes included, a process that has been in QUERY_KEY, or in VALIDATING, and is not just handling an answer is READY if and only if it has read an answer in that state |
| `Joining.AskersAreServed` | internal/cluster/query.go:15-74 | with no crash and no failing question or answer, once nothing is pending nobody is in QUERY_KEY, and in VALIDATING only who has found no READY member |
| `Joining.JoinersComplete` | internal/cluster/query.go:15-87 | so every process that asked for the key is READY |
| `Joining.LostQuestionStrandsJoiner` | internal/cluster/query.go:18-36 | one failing question: everything is at rest and the joiner stays in QUERY_KEY beside a READY node |
| `Traffic.TrafficBound` | internal/cluster/seed.go:65-125 | a crash-free run of n seeds sends at most n * n - 1 key messages to seeds |
| `TrafficExact.TrafficConserved` | internal/cluster/seed.go:65-125 | with reliable sends, messages sent and messages still owed always add up to n * n - 1 |
| `TrafficExact.CompletedTraffic` | internal/cluster/seed.go:65-125 | once all seeds are READY and at rest, exactly n * n - 1 were sent |
| `TrafficExact.CalmTraffic` | internal/cluster/seed.go:65-125 | so every calm run at rest meets the bound, and all its reads were in time |
| `Termination.SeedingTerminates` | internal/cluster/seed.go:65-94 | once all seeds have begun, a crash-free run takes at most `Work` further seeding steps |
| `Termination.WorkDecreases` | internal/cluster/seed.go:65-94 | every seeding step uses up work and no step adds any |
| `Termination.SeedingCompletes` | internal/cluster/seed.go:113-126 | a calm run in which all seeds have begun extends to one in which all are READY with the master's key |
| `CrashFree.NoHandlerPanics` | internal/cluster/seed.go:138-159 | in a crash-free run from empty disks no handler panics |
| `CrashFree.ReadyOnlyAfterAllSeeds` | internal/cluster/state.go:181-230 | in such a run a node is READY only after every seed has fixed the master's key, and no seed ever enters QUERY_KEY |
| `CrashFree.SeedKeyPanicsOnlyOnMismatch` | internal/cluster/seed.go:141-159 | with crashes too, a key from a seed of the same list is refused if and only if another key was fixed |
| `CrashFree.ServingNeverPanics` | internal/cluster/query.go:40-45 | a READY node answers every query and every challenge |
| `CrashFree.ElectsLeast` | internal/cluster/seed.go:206-214 | every seed of a fresh cluster elects the least name |
| `Mismatch.CrashCausesMismatch` | internal/cluster/seed.go:151-159 | with crashes allowed, every fresh cluster of two or more seeds has, for any two keys, a run that ends in the panic on different keys |
| `Threads.OnlyMismatchPanics` | internal/cluster/seed.go:151-159 | with a common list and safe files, that panic of a SEEDING node is the only one any run can reach |
| `Threads.StateGraphAndQueue` | internal/cluster/state.go:70-75 | every step moves the state along a fixed graph, each change strictly further from the start, READY never left, and the queue of notifications stays at 3 or fewer |
| `Threads.LoopActsOnCurrentState` | internal/cluster/state.go:100-136 | the state the loop read is still the current one when its handler acts |
| `Threads.StoreCoherent` | internal/sgx/enclave.go:251-298 | a read through the cache gives what the file holds, and a VALIDATING or READY node has a key |
| `Threads.WritesOnce` | internal/sgx/enclave.go:278-298 | the file is written only while it is missing and the cache is empty |
| `Threads.ServerKey` | internal/cluster/bootstrap.go:41-57 | the web server is built on a READY node with a key, the one on disk and every other node's |
| `Threads.CleanupNotPremature` | internal/cluster/seed.go:47-63 | when a cleanup runs every other seed has an entry; it wipes if and only if all were sent to and heard from, and then the key had completed; a second one changes nothing |
| `Threads.RestartCheckExact` | internal/cluster/validate.go:68-87 | a VALIDATING node that handles a reply becomes READY if and only if its key is the replying peer's, and panics otherwise |
| `Preserve.NodeStepSends` | internal/cluster/validate.go:89-128 | a node sends only its own fixed key, the key in its own file, or a box sealed with it |
| `Names.StringSet.Add` | internal/common/set.go:31-37 | adds a name unless it is empty |
| `Names.StringSet.AddAll` | internal/common/set.go:39-47 | adds all names that are not empty |
| `Names.StringSet.Remove` | internal/common/set.go:49-55 | removes a name |
| `Names.StringSet.Sorted` | internal/common/set.go:74-83 | the strictly increasing enumeration of the set |
| `Names.ElectMaster` | internal/cluster/seed.go:206-214 | the other seeds, and the name elected from them |
| `Names.SeedSetRebuilt` | internal/cluster/node.go:308-319 | taking the own name out and putting it back gives the same seed set on every seed |
| `Names.OneMaster` | internal/cluster/seed.go:206-214 | all seeds elect the same seed, and only that one elects itself |
| `Seed.AllReceivedIffEverySeed` | internal/cluster/seed.go:35-45 | counting entries is enough: the test holds if and only if every other seed was heard from |
| `Seed.CleanupIffDone` | internal/cluster/seed.go:47-63 | with all entries there, cleanup wipes if and only if all are sent to and heard from |
| `Seed.SeedNode.HasReceivedKeysFromAllSeedPeers` | internal/cluster/seed.go:35-45 | the scan decides that test |
| `Seed.SeedNode.CheckCleanup` | internal/cluster/seed.go:47-63 | keeps the record if an entry is unfinished and wipes it otherwise |
| `Seed.SeedNode.ForwardKeyToOtherSeedPeers` | internal/cluster/seed.go:65-94 | the record and the sends after the whole loop, whichever sends fail |
| `Seed.SeedNode.StartSeedAsMaster` | internal/cluster/seed.go:102-127 | fixes the key, clears the exchange and spawns one first round with that key, or panics on a key of the wrong size |
| `Seed.SeedNode.StartSeedAsSlave` | internal/cluster/seed.go:129-135 | clears the exchange and waits for a key |
| `Seed.SeedNode.KeyReceivedFrom` | internal/cluster/seed.go:138-191 | the three panics, the late key, the exchange, and the completed key |
| `NodeObject.RoundsAreLoop` | internal/cluster/seed.go:65-94 | the steps of the transition system do what the loop does |
| `NodeObject.ForwardPass` | internal/cluster/seed.go:65-94 | an undisturbed pass gives every other seed an entry, sends to exactly those listed, reachable and not marked, and to none twice |
| `NodeObject.NewNode` | internal/cluster/node.go:308-319 | the two seed lists of a new node |
| `NodeObject.ClusterNode.SetStatus` | internal/cluster/state.go:70-75 | sets the state and queues it for the listener |
| `NodeObject.ClusterNode.ReadAtStart` | internal/cluster/node.go:97-127 | which way a node starts: own key, validation, or no key |
| `NodeObject.ClusterNode.MembersCanProvideKey` | internal/cluster/state.go:243-251 | some member is READY |
| `NodeObject.ClusterNode.DecideOnNoKey` | internal/cluster/state.go:181-230 | asks if and only if a member is READY, seeds if and only if none is and all seeds of a seed's list have joined |
| `NodeObject.ClusterNode.StartQueryKey` | internal/cluster/query.go:15-38 | enters QUERY_KEY with the READY members to ask, in order |
| `NodeObject.ClusterNode.FirstReadyOther` | internal/cluster/query.go:18-36 | the peer that is asked |
| `NodeObject.ClusterNode.StartSeeding` | internal/cluster/seed.go:193-230 | enters SEEDING as master or slave, as the election says |
| `NodeObject.ClusterNode.HandleSeedKey` | internal/cluster/seed.go:232-247 | does the step of the transition system, including the write on completion, or panics with it |
| `NodeObject.ClusterNode.HandleQueryKey` | internal/cluster/query.go:40-74 | answers with the key in the file, or panics with the step |
| `NodeObject.ClusterNode.HandleKeyResponse` | internal/cluster/query.go:76-87 | stores the key and becomes READY |
| `NodeObject.ClusterNode.HandleKeyChallengeRequest` | internal/cluster/validate.go:89-128 | seals the challenge with the key in the file, or panics with the step |
| `NodeObject.ClusterNode.HandleKeyChallengeResponse` | internal/cluster/validate.go:68-87 | becomes READY when the reply opens to the own name, or panics with the step |
| `NodeObject.ClusterNode.LoopOnce` | internal/cluster/state.go:100-136 | dispatches as the transition system does and drops everything else |
| `NodeObject.NodeStateListener.OnStateChanged` | internal/cluster/bootstrap.go:32-39 | the countdown reaches zero with the first READY and never goes below |
| `NodeObject.NodeStateListener.NotifyAll` | internal/cluster/state.go:77-98 | handing over a queue opens the latch if and only if READY is in it |
| `KeyStore.MasterKeyStore.Read` | internal/sgx/enclave.go:251-276 | the cache if filled, else the file, which then fills the cache |
| `KeyStore.MasterKeyStore.Write` | internal/sgx/enclave.go:278-298 | replaces the file and leaves the cache alone |
| `Vault.UnsealIffSameKey` | internal/common/services.go:46-60 | a member opens another member's box if and only if both hold the same key, and finds what was sealed |
| `Hex.RoundTrip` | internal/cluster/seed.go:238-241 | a key written as hex reads back as itself |
| `Heartbeat.ExactlyOnce` | internal/cluster/heartbeat.go:79-99 | with tick gaps of at most window + 1 seconds, the batches followed by the buffer are the samples received, in order, and none is dropped |
| `Heartbeat.DeliveredIffDueTick` | internal/cluster/heartbeat.go:79-99 | a sample has been handed out if and only if a tick has come whose predecessor is at most a window before it, so the first such tick hands it out |
| `Heartbeat.NoLossIffGapsShort` | internal/cluster/heartbeat.go:85-97 | no pattern of arrivals loses a sample if and only if all gaps but the last are at most window + 1 |
| `Heartbeat.LongGapLoses` | internal/cluster/heartbeat.go:85-87 | a longer gap has a run that drops a sample |
| `Heartbeat.Conservation` | internal/cluster/heartbeat.go:83-97 | whatever the clock does, every sample is handed out, buffered or dropped, once |
| `Heartbeat.HeartBeatManager.OnRemoteHeartBeat` | internal/cluster/heartbeat.go:173-183 | stamps the sample and appends it |
| `Heartbeat.HeartBeatManager.OnTick` | internal/cluster/heartbeat.go:79-99 | splits the buffer into late, due and ahead |
| `Heartbeat.HeartBeatManager.ProcessWindow` | internal/cluster/heartbeat.go:110-148 | on a READY node, the window length and an entry for each peer heard of with its number of samples and of invalid samples; otherwise nothing |
| `Heartbeat.TotalsSum` | internal/cluster/heartbeat.go:123-144 | the totals of a window add up to its samples |
| `Heartbeat.HonestBeatValidIffSameKey` | internal/cluster/heartbeat.go:150-171 | a beat a node made is valid for another if and only if both hold the same key |
| `HonestBeats.HonestBeatsAreValid` | internal/cluster/heartbeat.go:55-71 | over every run, a READY node finds every beat of a READY peer valid, however old |
| `HonestBeats.HonestWindowHasNoErrors` | internal/cluster/heartbeat.go:123-171 | a window of such beats has no errors and exact totals |
| `HonestBeats.ReadyNodeReports` | internal/cluster/heartbeat.go:55-71 | a READY node always has a key to report and check with |
| `Lock.ExclusionIffNoEviction` | internal/web/cert/cert_storage.go:97-134 | a run evicts nobody if and only if a spare session that locks after any of its steps never shares the lock |
| `Lock.HeldIffNoEviction` | internal/db/valkey.go:109-152 | if all users have their entries, a step keeps it so if and only if it is neither a lapse of an entry in use nor a delete of it by another session |
| `Lock.MutualExclusion` | internal/web/cert/cert_storage.go:97-134 | over every interleaving of store commands in which no entry in use is evicted, at most one session uses a lock |
| `Lock.EvictionLetsAnotherIn` | internal/web/cert/cert_storage.go:97-117 | whatever run led there, after an evicting step any session that can lock becomes a second user |
| `Lock.UnlockRemovesOwnEntry` | internal/web/cert/cert_storage.go:119-134 | an `Unlock` that evicts nobody removes an entry no other session uses, and a holder that of its own `Lock` |
| `Lock.HolderUnlockDeletes` | internal/web/cert/cert_storage.go:121-126 | as long as nobody was evicted, a holder's `Unlock` that the store answers goes on to delete |
| `Lock.ForeignUnlockHarmless` | internal/web/cert/cert_storage.go:121-126 | as long as nobody was evicted, `Unlock` on a node that does not hold leaves another node's lock alone |
| `Lock.DisciplinePreventsEviction` | internal/web/cert/cert_storage.go:97-134 | if leases do not lapse in use and an `Unlock` without holding keeps apart from its node's other sessions, nobody is evicted |
| `Lock.DisciplinedUnlockOpens` | internal/web/cert/cert_storage.go:121-126 | in such a run what `Unlock` removes bears its own node's name |
| `Lock.LapseMakesTwoHolders` | internal/db/valkey.go:119-144 | a run from the start: a session locks, its lease lapses, another locks, and both hold |
| `Lock.LapseMakesForeignDelete` | internal/web/cert/cert_storage.go:121-126 | a run from the start: an `Unlock` whose entry lapses after it was read is about to delete the next session's |
| `Lock.NonHolderUnlocks` | internal/web/cert/cert_storage.go:121-126 | a run from the start: `Unlock` without holding, on the holder's node, is about to delete the entry in use |
| `Lock.TwoStraysRemoveUsed` | internal/web/cert/cert_storage.go:121-126 | a run from the start: two of them on an entry left behind, and one is about to delete the entry of the session that locks next |
| `LockStore.ValKeyKeyService.Read` | internal/db/valkey.go:56-77 | the sealed data opened, the nil reply, or an error |
| `LockStore.ValKeyKeyService.WriteNX` | internal/db/valkey.go:109-146 | for any time to live, undisturbed, the three steps in order, whichever command fails; with the time to live of the lock they are those of the transition system (`LockLease`) |
| `LockStore.ValKeyKeyService.Delete` | internal/db/valkey.go:148-152 | removes the entry unless the command does not reach the store |
| `LockStore.CertStorage.Unlock` | internal/web/cert/cert_storage.go:119-134 | undisturbed, the two steps of the unlocking; it changes the store only for an entry of its own node, and fails if and only if the entry could not be read or opened |
| `Base64.RoundTrip` | pkg/aes/encrypt.go:39-50 | what was encoded decodes to itself |
| `Aes.DecryptIffSameKey` | pkg/aes/encrypt.go:15-77 | a ciphertext decrypts if and only if the key is the same, and then to the plaintext |
| `KeyService.InfoInjective` | internal/web/key_service.go:52-56 | info strings are pairwise distinct over mode, declared context and id |
| `KeyService.SeparatedIffNoOverlap` | internal/web/key_service.go:52-56 | for contexts of any spelling, two can collide if and only if one with its dash starts the other |
| `KeyService.SeedsSameIff` | internal/web/key_service.go:183-190 | measurements share a seed if and only if their concatenations agree, and with MRTD of one length if and only if they agree |
| `KeyService.SealSucceedsIff` | internal/web/key_service.go:192-224 | sealing succeeds if and only if the three texts are base64 and the secret is hex |
| `KeyService.SealRoundTrip` | internal/web/key_handlers.go:36-61 | a payload sealed for an id and measurements opens under the SYMMETRIC key of the context VM_BOOT for the same id and measurements |
| `KeyService.SealOpensOnlyForItsKey` | internal/web/key_service.go:207-218 | any derived key opens it if and only if it has the same bytes |
| `KeyService.P384RequestFails` | internal/web/key_handlers.go:49-50 | a request for a P-384 key always fails |
| `Scalar.Ecdsa` | internal/crypto/keygen.go:77-98 | the scalar of the seed, in range, as bytes that decode back; refused if and only if it is below 256 to the power width - 1 |
| `Scalar.AcceptedIffWide` | internal/crypto/keygen.go:89-95 | minimal bytes have the curve's width, and are accepted, if and only if the scalar is that large |
| `Scalar.LongerIff` | internal/crypto/keygen.go:95-95 | a number needs more than w bytes if and only if it is at least 256 to the power w |
| `Scalar.MinimalRoundTrip` | internal/crypto/keygen.go:95-95 | minimal bytes decode to the number |
| `Scalar.AtMostOneByteMore` | internal/crypto/keygen.go:89-95 | the scalar is at most one byte longer than the seed, 33 bytes for 32 |
| `Scalar.DistinctSeedsDistinctScalars` | internal/crypto/keygen.go:89-93 | below the order, distinct seeds of one length give distinct scalars |
| `Scalar.WideCurvesRejectShortSeeds` | internal/crypto/keygen.go:89-98 | a 32-byte seed never gives a key on P-384 or P-521 |
| `Scalar.ZeroSeedRejected` | internal/crypto/keygen.go:89-98 | a seed of zeros becomes the scalar 1 and is refused |

## Findings

Properties one would expect and the code does not have, each with an input and the exact condition.

- Seeding does not complete in every reliable run. `Scenarios.EarlyKeyIsLost` gives the run: a key message that
  is read before its receiver is SEEDING is dropped, while its sender has it marked as sent. Exact condition:
  every seed reads a key message of every other seed after it began (`Timely.CompletedIffTimely`).
- A handler can panic when processes crash. `Mismatch.CrashCausesMismatch` gives the run: the master crashes
  after its key was received, starts over with another key, and is forwarded the first one. Exact condition: a
  SEEDING node handles a key other than the one it has fixed (`CrashFree.SeedKeyPanicsOnlyOnMismatch`), and no
  other panic is reachable (`Threads.OnlyMismatchPanics`).
- Agreement fails from some files. Exact condition: `Exactness.AgreementIffSafeFiles` for all files, and
  `ReadyAgreement.ReadyAgreementIffSeedFiles` for READY nodes alone.
- A heartbeat can be dropped as too old. `Heartbeat.LongGapLoses` gives the run. Exact condition on the ticks:
  `Heartbeat.NoLossIffGapsShort`.
- Two sessions can use the lock at once. Runs from the start: a lease that lapses (`Lock.LapseMakesTwoHolders`), a
  delete that comes after a lapse (`Lock.LapseMakesForeignDelete`), `Unlock` without holding on the holder's node
  (`Lock.NonHolderUnlocks`), and two such on an entry left behind (`Lock.TwoStraysRemoveUsed`). Exact condition: no
  step evicts, that is, lets an entry in use lapse or deletes it from another session (`Lock.HeldIffNoEviction` for a
  step, `Lock.ExclusionIffNoEviction` for a run). Both can be read off the store and the step before it is taken.
  `Lock.DisciplinePreventsEviction` gives callers a rule that is enough.
- A joiner does not always get the key. `Joining.LostQuestionStrandsJoiner` gives the run: the one question it sends
  fails. Exact condition, also for the check of a restarted node: it reads an answer (`Joining.ReadyIffAnswered`).
  When questions and answers are sent and nobody crashes, it does (`Joining.JoinersComplete`).
- Not every seed gives an elliptic-curve key. `Scalar.ZeroSeedRejected` gives one, `KeyService.P384RequestFails`
  shows that every P-384 request fails. Exact condition: `Scalar.AcceptedIffWide`, for the fixed-length form of
  section 2.3.6 of SEC 1 that the library asks for.
- Contexts that are not declared can share an info string. Exact condition: `KeyService.SeparatedIffNoOverlap`.
- The documentation (doc/01-Internals.md) says each READY node makes a heartbeat every 15 seconds. In the code one is
  made whenever the node's status is asked for (internal/cluster/node.go:60-66), windows are 15 minutes long and are
  split off every 2 minutes (internal/cluster/node.go:333). The model follows the code and takes the times as
  parameters.
- The tests for a missing vault (internal/cluster/heartbeat.go:57, internal/cluster/heartbeat.go:152 and
  internal/db/valkey.go:111) never succeed as the node wires them: internal/cluster/node.go:297-300 returns a nil
  pointer inside a non-nil interface. The model keeps the tests as written. `HonestBeats.ReadyNodeReports` and
  `Threads.ServerKey` show that the callers, which are READY, always have a key, so the case does not arise.

## Left out

- Unconditional liveness of seeding: false, see the first finding; a retry of a lost message does not exist in the code.
- Reclaiming a lock after a crash between HSETNX and EXPIRE: an entry without a time to live stays, so only safety is claimed.
- `CertStorage.Lock` as a method: its polling loop ends only when others act, so it is in the transition system (`TryNX`, `Retry`, `Cancel`) alone.
- The order of the message queue: the model delivers in any order, which includes the order of the code.
- `MergeRemoteState`, `NodeMeta` and `LocalState` as code: they are the gossip views and arrivals, given as parameters.
- NodeObject.ClusterNode.ReadAtStart: the check of the cluster id and the join loop are not modelled; one cluster is modelled, and joining only delays the next step.
- Heartbeat.HeartBeatManager.ProcessWindow: the field `From` of the result is not modelled; it is read after the tick has moved the time on, so no claim is made about it.
- KeyStore.MasterKeyStore.Read: unsealing the file, JSON and the panics on an unreadable file are not modelled; reading is one step that succeeds.
- KeyStore.MasterKeyStore.Write: sealing the file, JSON and the panics on a failed write are not modelled; writing is one step that succeeds.
- Scalar.Ecdsa: the public point of the key is not modelled; curve arithmetic is a library's.
- A cluster send that is delivered although it is reported as failed: a send either succeeds and is delivered or does neither.
- A store command that is carried out after its caller has given up on it: a command takes effect at once or never, with or without an answer.
- SGX and TDX quotes, event logs, X.509, RSA keys, signing and the curve arithmetic: calls into libraries, idealised or a parameter.
- HTTP routing, sessions, ACME, DNS, configuration and the TLS transport: input and output around what is modelled.
- The journal, `Exists`, `List`, `Stat` and `Store` of the certificate storage: they would only add easy members.
