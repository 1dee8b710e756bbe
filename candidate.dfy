/**
  The Candidate role of the Raft node (src/raft/node/candidate.rs): its state on
  entry, its two exits (to Follower on discovering a leader or a higher term, to
  Leader once its count of granted votes reaches the quorum), and its message
  handler. Each is a function from the old node to the new one, as the source consumes `self` and returns the node
  in its new role; the lemmas state the candidate rules of Raft (section 5.2 of
  Ongaro and Ousterhout, "In Search of an Understandable Consensus Algorithm").
 */
module CandidateRole {
  import opened Wrappers
  import opened Raft

  /**
    `Candidate::new`: one vote (its own), no ticks yet, and an election timeout
    drawn from `[ElectionTimeoutMin, ElectionTimeoutMax]`; `draw` stands for the
    random number generator's output.
   */
  function NewCandidate(draw: nat): (r: Role)
    requires ElectionTimeoutMin <= ElectionTimeoutMax
    ensures r.Candidate?
    ensures r.voteCount == 1 && r.electionTicks == 0
    ensures ElectionTimeoutMin <= r.electionTimeout <= ElectionTimeoutMax
  {
    Candidate(0, ElectionTimeoutMin + draw % (ElectionTimeoutMax - ElectionTimeoutMin + 1), 1)
  }

  /** Every timeout in the range can be drawn. */
  lemma EveryTimeoutDrawable(t: nat)
    requires ElectionTimeoutMin <= t <= ElectionTimeoutMax
    ensures NewCandidate(t - ElectionTimeoutMin).electionTimeout == t
  {
    var width := ElectionTimeoutMax - ElectionTimeoutMin + 1;
    assert (t - ElectionTimeoutMin) % width == t - ElectionTimeoutMin;
  }

  /**
    `become_follower`: the term is overwritten and persisted with no vote, even
    when it is the candidate's own term; then the node follows `leader` and
    forwards its queued requests to it.
   */
  function BecomeFollower(n: Node, term: Term, leader: NodeId): Node
    requires n.role.Candidate?
  {
    var n1 := n.(term := term, log := n.log.SaveTerm(term, None));
    var n2 := BecomeRole(n1, Follower(Some(leader), None));
    ForwardQueued(AbortProxied(n2), Peer(leader))
  }

  /** A candidate that learns of a leader of its own term forgets the vote it cast for itself. */
  lemma SelfVoteErasedAsWritten(n: Node, leader: NodeId)
    requires n.role.Candidate? && n.log.savedTerm == n.term && n.log.savedVote == Some(n.id)
    ensures BecomeFollower(n, n.term, leader).term == n.term
    ensures BecomeFollower(n, n.term, leader).log.savedVote == None
    ensures BecomeFollower(n, n.term, leader).role == Follower(Some(leader), None)
  {
  }

  /**
    `become_follower` as Raft intends it: a higher term is adopted and persisted
    with no vote; at the candidate's own term the term and the persisted vote stay,
    and the follower remembers voting for itself.
   */
  function BecomeFollowerCorrected(n: Node, term: Term, leader: NodeId): Node
    requires n.role.Candidate?
  {
    var n1 := if term > n.term then n.(term := term, log := n.log.SaveTerm(term, None)) else n;
    var n2 := BecomeRole(n1, Follower(Some(leader), if term > n.term then None else Some(n.id)));
    ForwardQueued(AbortProxied(n2), Peer(leader))
  }

  /**
    `become_leader`: announce leadership to all peers with a heartbeat carrying
    the commit point, then append a no-op entry at the new term.
   */
  function BecomeLeader(n: Node): Node
    requires n.role.Candidate?
  {
    var peers := n.peers;
    var lastIndex := n.log.LastIndex();
    var l := BecomeRole(n, Leader(peers, lastIndex));
    var l1 := Send(l, Peers, Heartbeat(l.log.commitIndex, l.log.commitTerm));
    var l2 := AppendEntry(l1, None);
    AbortProxied(l2)
  }

  /** The new leader steps every queued request, oldest first, as a local message at term 0. */
  function Replay(n: Node, q: seq<(Address, Event)>): (r: Node)
    requires !n.role.Candidate?
    ensures r.role == n.role
    decreases |q|
  {
    if q == [] then n else RoleStep(Replay(n, q[..|q| - 1]), Requeued(q[|q| - 1]))
  }

  /**
    `RoleNode<Candidate>::step`. `valid` is the verdict of `validate`, whose body is
    not part of this model.
   */
  function Step(n: Node, msg: Message, valid: bool): Node
    requires n.role.Candidate?
  {
    if !valid then n
    else if msg.term > n.term && msg.src.Peer? then
      RoleStep(BecomeFollower(n, msg.term, msg.src.id), msg)
    else
      match msg.event
      case Heartbeat(_, _) =>
        if msg.src.Peer? then RoleStep(BecomeFollower(n, msg.term, msg.src.id), msg) else n
      case GrantVote =>
        var counted := n.(role := n.role.(voteCount := n.role.voteCount + 1));
        if counted.role.voteCount >= Quorum(counted) then
          Replay(BecomeLeader(counted.(queued := [])), n.queued)
        else counted
      case SolicitVote(_, _) => n
      case ReplicateEntries(_, _, _) => n
      case AcceptEntries(_) => n
      case RejectEntries => n
  }

  /**
    `step` with the corrected `become_follower`: it differs from `Step` only on a
    valid heartbeat from a peer at a term not above the candidate's.
   */
  function StepCorrected(n: Node, msg: Message, valid: bool): Node
    requires n.role.Candidate?
  {
    if valid && msg.event.Heartbeat? && msg.src.Peer? && msg.term <= n.term then
      RoleStep(BecomeFollowerCorrected(n, msg.term, msg.src.id), msg)
    else Step(n, msg, valid)
  }

  /** The message comes from a peer at a higher term, so the candidate steps down and re-steps it. */
  predicate Redispatched(n: Node, msg: Message) {
    msg.term > n.term && msg.src.Peer?
  }

  /** The rule of `validate` that the candidate relies on: it rejects peer messages from past terms. */
  predicate PastTermRejected(n: Node, msg: Message, valid: bool) {
    valid && msg.src.Peer? ==> msg.term >= n.term
  }

  // ----- properties -----

  /** The replayed requests reach the new role in their original order, and nothing else changes. */
  lemma {:induction false} ReplayInOrder(n: Node, q: seq<(Address, Event)>)
    requires !n.role.Candidate?
    ensures Replay(n, q) == n.(processed := n.processed + RequeuedAll(q))
    decreases |q|
  {
    if q == [] {
      assert RequeuedAll(q) == [];
    } else {
      ReplayInOrder(n, q[..|q| - 1]);
      assert RequeuedAll(q) == RequeuedAll(q[..|q| - 1]) + [Requeued(q[|q| - 1])];
    }
  }

  /** A message that fails validation is dropped: the node is unchanged. */
  lemma InvalidIgnored(n: Node, msg: Message)
    requires n.role.Candidate?
    ensures Step(n, msg, false) == n
  {
  }

  /**
    A message from a peer at a higher term turns the candidate into a follower of
    that peer at that term, persisted with no vote, forwarding its queue to the
    peer, and the same message is then stepped by the follower.
   */
  lemma HigherTermFollows(n: Node, msg: Message, leader: NodeId)
    requires n.role.Candidate? && msg.term > n.term && msg.src == Peer(leader)
    ensures Step(n, msg, true).role == Follower(Some(leader), None)
    ensures Step(n, msg, true).term == msg.term > n.term
    ensures Step(n, msg, true).log == n.log.SaveTerm(msg.term, None)
    ensures Step(n, msg, true).queued == []
    ensures Step(n, msg, true).outbox == n.outbox + Forwarded(n.queued, Peer(leader))
    ensures Step(n, msg, true).processed == n.processed + [msg]
  {
  }

  /**
    A heartbeat from a peer always makes the candidate a follower of that peer at
    the heartbeat's term, saved with no vote, re-stepping the heartbeat.
   */
  lemma HeartbeatFollows(n: Node, msg: Message, leader: NodeId)
    requires n.role.Candidate? && msg.event.Heartbeat? && msg.src == Peer(leader)
    ensures Step(n, msg, true).role == Follower(Some(leader), None)
    ensures Step(n, msg, true).term == msg.term
    ensures Step(n, msg, true).log == n.log.SaveTerm(msg.term, None)
    ensures Step(n, msg, true).queued == []
    ensures Step(n, msg, true).outbox == n.outbox + Forwarded(n.queued, Peer(leader))
    ensures Step(n, msg, true).processed == n.processed + [msg]
  {
  }

  /** A vote short of the quorum only raises the vote count, by exactly one. */
  lemma GrantVoteBelowQuorum(n: Node, msg: Message)
    requires n.role.Candidate? && msg.event == GrantVote && !Redispatched(n, msg)
    requires n.role.voteCount + 1 < Quorum(n)
    ensures Step(n, msg, true) == n.(role := n.role.(voteCount := n.role.voteCount + 1))
  {
  }

  /**
    The vote that reaches the quorum makes the node leader: its queue is emptied
    and every queued request stepped by the leader in order, after a heartbeat to
    all peers and one no-op entry at the current term.
   */
  lemma GrantVoteWins(n: Node, msg: Message)
    requires n.role.Candidate? && msg.event == GrantVote && !Redispatched(n, msg)
    requires n.role.voteCount + 1 >= Quorum(n)
    ensures Step(n, msg, true).role == Leader(n.peers, n.log.LastIndex())
    ensures Step(n, msg, true).term == n.term
    ensures Step(n, msg, true).queued == []
    ensures Step(n, msg, true).processed == n.processed + RequeuedAll(n.queued)
    ensures Step(n, msg, true).outbox
         == n.outbox + [Message(n.term, Local, Peers, Heartbeat(n.log.commitIndex, n.log.commitTerm))]
    ensures Step(n, msg, true).log == n.log.Append(n.term, None)
  {
    var counted := n.(role := n.role.(voteCount := n.role.voteCount + 1));
    ReplayInOrder(BecomeLeader(counted.(queued := [])), n.queued);
  }

  /**
    On becoming leader the first message sent is a heartbeat to all peers with the
    log's commit index and term; then exactly one no-op entry is appended.
   */
  lemma LeaderEntry(n: Node)
    requires n.role.Candidate?
    ensures BecomeLeader(n).outbox
         == n.outbox + [Message(n.term, Local, Peers, Heartbeat(n.log.commitIndex, n.log.commitTerm))]
    ensures BecomeLeader(n).log.entries == n.log.entries + [Entry(n.term, None)]
    ensures BecomeLeader(n).log.LastIndex() == n.log.LastIndex() + 1
    ensures BecomeLeader(n).log.commitIndex == n.log.commitIndex
    ensures BecomeLeader(n).role == Leader(n.peers, n.log.LastIndex())
  {
  }

  /** Vote requests and replication traffic, and heartbeats not from a peer, leave the candidate as it is. */
  lemma IgnoredEvents(n: Node, msg: Message)
    requires n.role.Candidate? && !Redispatched(n, msg)
    requires || msg.event.SolicitVote? || msg.event.ReplicateEntries?
             || msg.event.AcceptEntries? || msg.event.RejectEntries?
             || (msg.event.Heartbeat? && !msg.src.Peer?)
    ensures Step(n, msg, true) == n
  {
  }

  /** The node becomes leader exactly when a valid vote brings the count to the quorum. */
  lemma LeaderOnlyByQuorum(n: Node, msg: Message, valid: bool)
    requires n.role.Candidate?
    ensures Step(n, msg, valid).role.Leader?
        <==> valid && msg.event == GrantVote && !Redispatched(n, msg) && n.role.voteCount + 1 >= Quorum(n)
  {
  }

  /** While it stays a candidate, only its vote count can change, and only upwards by one. */
  lemma StaysCandidate(n: Node, msg: Message, valid: bool)
    requires n.role.Candidate?
    ensures Step(n, msg, valid).role.Candidate? ==>
      Step(n, msg, valid) == n ||
      Step(n, msg, valid) == n.(role := n.role.(voteCount := n.role.voteCount + 1))
  {
  }

  /**
    Given `validate`'s past-term rule, the term never decreases, and it changes
    only to the higher term of a peer's message.
   */
  lemma TermNeverDecreases(n: Node, msg: Message, valid: bool)
    requires n.role.Candidate? && PastTermRejected(n, msg, valid)
    ensures Step(n, msg, valid).term >= n.term
    ensures Step(n, msg, valid).term != n.term ==>
      valid && Redispatched(n, msg) && Step(n, msg, valid).term == msg.term
  {
    if valid && msg.event == GrantVote && !Redispatched(n, msg) && n.role.voteCount + 1 >= Quorum(n) {
      GrantVoteWins(n, msg);
    }
  }

  /** Without that rule a heartbeat from a past term would take the term back. */
  lemma PastTermRuleNeeded(n: Node, msg: Message, leader: NodeId)
    requires n.role.Candidate? && msg.event.Heartbeat? && msg.src == Peer(leader) && msg.term < n.term
    ensures Step(n, msg, true).term < n.term
  {
  }

  /**
    As written, a heartbeat from a leader of the candidate's own term erases the
    vote the candidate saved for itself in that term, so it may vote again.
   */
  lemma SelfVoteErasedByHeartbeat(n: Node, msg: Message, leader: NodeId)
    requires n.role.Candidate? && n.log.savedTerm == n.term && n.log.savedVote == Some(n.id)
    requires msg.event.Heartbeat? && msg.src == Peer(leader) && msg.term == n.term
    ensures Step(n, msg, true).term == n.term
    ensures Step(n, msg, true).log.savedVote == None
    ensures Step(n, msg, true).role == Follower(Some(leader), None)
  {
  }

  /**
    Corrected: within a term the persisted vote survives a step, a follower at that
    term recalls voting for itself, and the term never decreases, whatever
    `validate` accepts.
   */
  lemma VoteKeptWithinTerm(n: Node, msg: Message, valid: bool)
    requires n.role.Candidate?
    ensures StepCorrected(n, msg, valid).term >= n.term
    ensures StepCorrected(n, msg, valid).term == n.term ==>
      StepCorrected(n, msg, valid).log.savedTerm == n.log.savedTerm &&
      StepCorrected(n, msg, valid).log.savedVote == n.log.savedVote
    ensures StepCorrected(n, msg, valid).term == n.term && StepCorrected(n, msg, valid).role.Follower? ==>
      StepCorrected(n, msg, valid).role.votedFor == Some(n.id)
  {
    if valid && msg.event == GrantVote && !Redispatched(n, msg) && n.role.voteCount + 1 >= Quorum(n) {
      GrantVoteWins(n, msg);
    }
  }

  /**
    The correction changes nothing but the heartbeat at the candidate's own term
    (the only term not above its own that `validate` lets through from a peer),
    and there it keeps the persisted term and vote and the self-vote.
   */
  lemma CorrectionOnlyAtOwnTerm(n: Node, msg: Message, valid: bool)
    requires n.role.Candidate? && PastTermRejected(n, msg, valid)
    ensures StepCorrected(n, msg, valid) != Step(n, msg, valid) ==>
      valid && msg.event.Heartbeat? && msg.src.Peer? && msg.term == n.term
    ensures valid && msg.event.Heartbeat? && msg.src.Peer? && msg.term == n.term ==>
      StepCorrected(n, msg, valid)
        == Step(n, msg, valid).(log := n.log, role := Follower(Some(msg.src.id), Some(n.id)))
  {
  }

  /** The log only grows at its end; the commit point and everything before it stay. */
  lemma LogOnlyGrows(n: Node, msg: Message, valid: bool)
    requires n.role.Candidate? && n.log.Valid()
    ensures Step(n, msg, valid).log.Valid()
    ensures n.log.entries <= Step(n, msg, valid).log.entries
    ensures Step(n, msg, valid).log.commitIndex == n.log.commitIndex
    ensures Step(n, msg, valid).log.commitTerm == n.log.commitTerm
  {
    if valid && msg.event == GrantVote && !Redispatched(n, msg) && n.role.voteCount + 1 >= Quorum(n) {
      GrantVoteWins(n, msg);
    }
  }

  /** In a five-node cluster a candidate holding two votes needs exactly one more. */
  lemma OneMoreVoteOfFive(n: Node, msg: Message)
    requires n.role.Candidate? && n.id !in n.peers && |n.peers| == 4
    requires msg.event == GrantVote && !Redispatched(n, msg)
    ensures n.role.voteCount == 2 ==> Step(n, msg, true).role.Leader?
    ensures n.role.voteCount == 1 ==> Step(n, msg, true).role == n.role.(voteCount := 2)
  {
    FiveNodeQuorum(n);
  }

}
