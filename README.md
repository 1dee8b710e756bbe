# A model of gymxdb's key/value store contract and Raft candidate role

gymxdb is a small distributed SQL database in Rust. Its SQL layer sits on an
ordered key/value store and is replicated by Raft. This project models two parts
of it in Dafny and proves properties of the model.

- **Storage** (`src/storage/mod.rs`): the `Store` contract (`set_or_insert`,
  `get`, `delete`, `scan`, `flush`) and the `Range` wrapper with its
  `RangeBounds` view.
  - Keys and values are byte strings, ordered byte by byte (`bytes.dfy`). That
    order is proved to be a strict total order.
  - `storage.dfy` gives a specification of `scan` on the store's map. A scan
    returns, in ascending key order, exactly the pairs whose key the range
    contains. Scanning backwards gives the same pairs in reverse order. The
    contents fix the result uniquely.
  - A reference store class, `MemoryStore`, holds its map as a field. It
    implements the contract, and its methods update the map in place.
  - `storage_tests.dfy` restates the repository's `TestSuite` as methods and
    lemmas. Their postconditions are the comparisons the Rust tests make.
    `test_random` holds for every list of items with distinct keys, not only
    for one drawn from a seeded generator.
- **Raft candidate** (`src/raft/node/candidate.rs`): `Candidate::new`,
  `become_follower`, `become_leader` and `step`.
  - `raft.dfy` has the messages, the log as the role sees it, the node context,
    and the collaborators defined in files not part of this model (`send`,
    `forward_queued`, `abort_proxied`, `become_role`, `append`, `quorum`).
  - `candidate.dfy` defines each operation as a function from the old node to
    the new one. Its lemmas state what the candidate does on each kind of
    message:
    - it steps down on a higher term or on a leader's heartbeat;
    - it counts `GrantVote` messages and wins when the count reaches a strict
      majority of the cluster;
    - it announces itself and appends a no-op entry;
    - it replays queued requests in order.
    They also prove invariants: given `validate`'s rule against past terms, the
    term never decreases; the log only grows past its commit point; and the node
    becomes leader only when its count of `GrantVote` messages reaches the
    quorum.
  - `role_node.dfy` is the node as an object with fields that change in place.
    Each method is proved to produce the state that the matching function
    gives. `Step` replays the queue with a loop.

In one place the code departs from Raft. In Raft, `votedFor` is persistent state
that is reset only when the term changes (Figure 2 of Ongaro and Ousterhout). But
`become_follower` erases the candidate's vote for its current term (see
Findings). `Step` and the `RoleNode` methods model the code as written. The
corrected behaviour is kept beside them, in `CandidateRole.BecomeFollowerCorrected`
and `CandidateRole.StepCorrected`.

## Model

| member | source | states |
|---|---|---|
| Bytes.LessIrreflexive | src/storage/mod.rs:123 | no key is ordered before itself |
| Bytes.LessAsymmetric | src/storage/mod.rs:123 | two keys are never ordered before each other |
| Bytes.LessTransitive | src/storage/mod.rs:123 | the byte-string order is transitive |
| Bytes.LessTotal | src/storage/mod.rs:123 | any two distinct keys are ordered one way or the other, so sorting by key is well defined |
| Storage.Range.From | src/storage/mod.rs:36-49 | the wrapper's start and end bounds are those of the range it was built from, for every kind of Rust range expression |
| Storage.RangeRoundTrip | src/storage/mod.rs:52-67 | wrapping a `Range`'s own `start_bound`/`end_bound` rebuilds the same `Range`, and both views return the stored bounds |
| Storage.BoundSemantics | src/storage/mod.rs:52-67 | an excluded bound omits its key, an included end keeps it, and an unbounded side admits every key |
| Storage.Lookup | src/storage/mod.rs:15-16 | the answer is present exactly when the key is stored, and it is the stored value |
| Storage.SortedKeys | src/storage/mod.rs:21-22 | lists a set of keys strictly ascending, each exactly once and nothing else |
| Storage.DescendingKeys | src/storage/mod.rs:70-71 | lists a set of keys strictly descending, each exactly once and nothing else |
| Storage.ScanMap | src/storage/mod.rs:21-22 | a scan yields pairs in ascending key order: exactly the stored pairs whose key lies in the range |
| Storage.ScanMapBack | src/storage/mod.rs:70-71 | the same pairs consumed from the back, in descending key order |
| Storage.ScanMapIs | src/storage/mod.rs:21-22 | any ascending list of exactly the selected pairs is the scan's result, so the result is unique |
| Storage.ScanBackIsReverse | src/storage/mod.rs:70-71 | the backward scan is the reverse of the forward scan |
| Storage.MemoryStore.constructor | src/storage/mod.rs:75 | a new store is empty |
| Storage.MemoryStore.SetOrInsert | src/storage/mod.rs:12-13 | the key maps to the new value, replacing any old one, and every other key is unchanged |
| Storage.MemoryStore.Get | src/storage/mod.rs:15-16 | the value for a key if it exists, and `None` exactly when it does not |
| Storage.MemoryStore.Delete | src/storage/mod.rs:18-19 | the key is gone and every other key is unchanged; deleting an absent key changes nothing |
| Storage.MemoryStore.Scan | src/storage/mod.rs:21-22 | ascending pairs, exactly those stored whose key is in the range |
| Storage.MemoryStore.ScanBack | src/storage/mod.rs:70-71 | descending pairs, the same ones, the reverse of the forward scan |
| Storage.MemoryStore.Flush | src/storage/mod.rs:24-25 | the logical contents are unchanged |
| StorageTests.TestGet | src/storage/mod.rs:86-92 | a set key reads back its value; a key never set reads `None` |
| StorageTests.TestDelete | src/storage/mod.rs:94-102 | a deleted key reads `None`; deleting a missing key succeeds and leaves the store empty |
| StorageTests.TestSet | src/storage/mod.rs:202-209 | setting a key twice leaves the second value |
| StorageTests.TestScan | src/storage/mod.rs:138-200 | each of the seven scans of the five-key store returns exactly the list the test expects |
| StorageTests.ScanHalfOpen | src/storage/mod.rs:147-162 | `b..bz` yields b, ba, bb (and backwards bb, ba, b) |
| StorageTests.ScanExclusiveEnd | src/storage/mod.rs:165-168 | `b..bb` yields b, ba |
| StorageTests.ScanInclusiveEnd | src/storage/mod.rs:169-176 | `b..=bb` yields b, ba, bb |
| StorageTests.ScanOpenEnd | src/storage/mod.rs:179-182 | `bb..` yields bb, c |
| StorageTests.ScanOpenStart | src/storage/mod.rs:183-186 | `..=b` yields a, b |
| StorageTests.ScanFull | src/storage/mod.rs:189-198 | `..` yields all five pairs in key order |
| StorageTests.ToMapHolds | src/storage/mod.rs:114-116 | inserting items with distinct keys stores exactly those pairs |
| StorageTests.FullScanSortsItems | src/storage/mod.rs:122-126 | the full scan of the inserted items is the items sorted by key: ascending and a permutation of them |
| StorageTests.EmptyStoreScansEmpty | src/storage/mod.rs:133 | a scan of an empty store is empty |
| StorageTests.InsertAll | src/storage/mod.rs:114-116 | inserting every item adds exactly the items' pairs to the store |
| StorageTests.FetchAll | src/storage/mod.rs:119-121 | every inserted item reads back its own value |
| StorageTests.DeleteAll | src/storage/mod.rs:129-132 | deleting every item's key removes exactly those keys, and each reads `None` afterwards |
| StorageTests.TestRandom | src/storage/mod.rs:104-136 | for any items with distinct keys: each reads back its value, the full scan is the items sorted by key and the backward scan is its reverse, then after deleting every key each reads `None` and the store is empty |
| Raft.QuorumIsMajority | src/raft/node/candidate.rs:86 | the quorum is more than half the cluster and at most the whole cluster |
| Raft.QuorumsIntersect | src/raft/node/candidate.rs:86 | any two sets of cluster members that each reach the quorum share a member |
| Raft.FiveNodeQuorum | src/raft/node/candidate.rs:86 | a five-node cluster has a quorum of three |
| CandidateRole.NewCandidate | src/raft/node/candidate.rs:22-29 | a new candidate has one vote, no ticks, and a timeout within the configured inclusive range |
| CandidateRole.EveryTimeoutDrawable | src/raft/node/candidate.rs:26-27 | every timeout in the inclusive range can be drawn |
| CandidateRole.SelfVoteErasedAsWritten | src/raft/node/candidate.rs:34-43 | as written, following a leader of the candidate's own term erases the persisted self-vote |
| CandidateRole.SelfVoteErasedByHeartbeat | src/raft/node/candidate.rs:77-81 | as written, a heartbeat from a peer at the candidate's own term leaves it a follower at that term with the saved self-vote erased |
| CandidateRole.VoteKeptWithinTerm | src/raft/node/candidate.rs:34-43 | corrected step: the term never decreases; while it stays the same, the persisted term and vote survive, and a follower at that term recalls voting for itself |
| CandidateRole.CorrectionOnlyAtOwnTerm | src/raft/node/candidate.rs:77-81 | the corrected step differs from the code only on a valid same-term heartbeat from a peer, where it keeps the log and the self-vote |
| CandidateRole.LeaderEntry | src/raft/node/candidate.rs:46-61 | a new leader first sends all peers a heartbeat with the commit index and term, then appends exactly one no-op entry at its term; its role records the peers and the previous last index |
| CandidateRole.Replay | src/raft/node/candidate.rs:87-92 | replaying the queue keeps the role the node has |
| CandidateRole.ReplayInOrder | src/raft/node/candidate.rs:87-92 | the new role is handed every queued request, oldest first, as a local term-0 message, and nothing else changes |
| CandidateRole.InvalidIgnored | src/raft/node/candidate.rs:66-69 | a message that fails validation leaves the node unchanged |
| CandidateRole.HigherTermFollows | src/raft/node/candidate.rs:70-74 | a peer's message at a higher term makes the node a follower of that peer: the term is adopted and saved with no vote, the queue is forwarded to the peer, and the follower steps the same message |
| CandidateRole.HeartbeatFollows | src/raft/node/candidate.rs:77-81 | a heartbeat from a peer makes the node a follower of that peer with no vote, at the heartbeat's term, which is saved with no vote; it forwards its queue and re-steps the heartbeat |
| CandidateRole.GrantVoteBelowQuorum | src/raft/node/candidate.rs:83-86 | a vote that does not reach the quorum raises the vote count by exactly one and changes nothing else |
| CandidateRole.GrantVoteWins | src/raft/node/candidate.rs:83-94 | the vote that reaches the quorum makes the node leader at the same term: queue emptied and replayed in order, one heartbeat to all peers, one no-op entry |
| CandidateRole.IgnoredEvents | src/raft/node/candidate.rs:96-104 | vote requests, replication traffic and heartbeats not from a peer leave the candidate unchanged |
| CandidateRole.LeaderOnlyByQuorum | src/raft/node/candidate.rs:64-105 | the node becomes leader if and only if a valid `GrantVote` brings its count of such messages to the quorum |
| CandidateRole.StaysCandidate | src/raft/node/candidate.rs:64-105 | a node that is still a candidate after a step is unchanged or has exactly one more vote |
| CandidateRole.TermNeverDecreases | src/raft/node/candidate.rs:64-105 | if `validate` rejects peer messages from past terms, the term never decreases, and it changes only to the higher term of a valid peer message |
| CandidateRole.PastTermRuleNeeded | src/raft/node/candidate.rs:77-81 | without that rule, a heartbeat from a past term would take the term back |
| CandidateRole.LogOnlyGrows | src/raft/node/candidate.rs:64-105 | a step only appends to the log and keeps its commit index and term, so committed entries are never overwritten |
| CandidateRole.OneMoreVoteOfFive | src/raft/node/candidate.rs:83-94 | in a five-node cluster the third vote wins and the second does not |
| RoleNodes.RoleNode.BecomeFollower | src/raft/node/candidate.rs:34-43 | the object reaches the state of `become_follower`: the new term, saved with no vote, and a follower of the leader with no vote and its queue forwarded |
| RoleNodes.RoleNode.BecomeLeader | src/raft/node/candidate.rs:46-61 | the object reaches the state of `become_leader` |
| RoleNodes.RoleNode.ReplayQueued | src/raft/node/candidate.rs:87-92 | the loop steps the queue through the new role, in order |
| RoleNodes.RoleNode.Step | src/raft/node/candidate.rs:64-105 | the object reaches the state of the candidate's `step` as written |

## Left out

- Storage errors: every `Result` from the store and the log is taken to be `Ok`. The `?` error paths are not modelled.
- `scan` returns a lazy double-ended iterator whose items are each a `Result`. The model gives the whole sequence consumed forwards or backwards. Interleaved consumption from both ends is not modelled.
- `flush` durability: there is no storage medium, so only the logical contents are stated.
- A range whose start lies after its end selects nothing in the model. Rust's B-tree can panic on such a range, and that panic is not modelled.
- Terms, indexes and counters are `u64` in the source and unbounded here. Overflow is not modelled.
- `validate` is in raft/node/mod.rs, which is not part of this model. Its verdict is the `valid` parameter of `Step`.
- `quorum`, `send`, `forward_queued`, `abort_proxied`, `become_role` and `append` are in raft/node/mod.rs, which is not part of this model.
  - `quorum` is a strict majority of the peers plus this node.
  - `send` appends a message stamped with the node's term, from `Local`.
  - `forward_queued` moves each queued request into a term-0 message to the leader and empties the queue.
  - `abort_proxied` has no modelled effect.
  - `append` adds an entry at the node's term. The leader's replication messages that may follow it are not modelled.
- The Follower and Leader `step` bodies are not part of this model. A stepped message is recorded in `processed` and nothing else changes.
- `ELECTION_TIMEOUT_MIN` and `ELECTION_TIMEOUT_MAX` are defined in raft/node/mod.rs, so the model leaves their values open. The random draw is the parameter `draw` of `CandidateRole.NewCandidate`.
- Logging (`info!`, `warn!`, `debug!`), `Display`, and the `Send`/`Sync` markers have no modelled effect.
- Election ticks and the tick handler are not in candidate.rs, so they are not modelled.
- src/sql/types/mod.rs is context only and is not part of this model.
- StorageTests.TestRandom: requires the items to have distinct keys. With repeated keys the Rust test's comparison would itself fail, and 1000 random 32-byte keys are distinct in practice.
- CandidateRole.TermNeverDecreases: assumes the rule of `validate` (raft/node/mod.rs, not part of this model) that peer messages from past terms are rejected. `CandidateRole.PastTermRuleNeeded` shows that the property fails without it.

## Findings

| source | as written | input that shows it | evidently intended | confidence | as-written member | corrected member |
|---|---|---|---|---|---|---|
| src/raft/node/candidate.rs:36-39 | `become_follower` always saves the term with no vote and builds a follower with no vote, also when the new term equals the candidate's own | a candidate at term 5 that has saved its self-vote for term 5 gets a valid heartbeat at term 5 from peer `b`: it becomes a follower of `b` at term 5 with no vote, so it can vote a second time in term 5 | keep the term and the self-vote when following a leader of the same term, and clear the vote only on a higher term | medium, not executed | CandidateRole.SelfVoteErasedByHeartbeat | CandidateRole.VoteKeptWithinTerm |
