/**
  A Raft node in the Candidate role as an object whose fields change in place:
  the source's `RoleNode<Candidate>` methods consume the node and hand back the
  updated one, which is the same as updating these fields. Every method is proved
  to take the node to the state that the function of the same name in
  `CandidateRole` gives, so the lemmas about those functions hold of the object.
 */
module RoleNodes {
  import opened Wrappers
  import opened Raft
  import CandidateRole

  class RoleNode {
    const id: NodeId
    const peers: set<NodeId>
    var term: Term
    var log: Log
    var queued: seq<(Address, Event)>
    var outbox: seq<Message>
    var processed: seq<Message>
    var role: Role

    /** The node's whole state as a value. */
    function State(): Node
      reads this
    {
      Node(id, peers, term, log, queued, outbox, processed, role)
    }

    constructor (n: Node)
      ensures State() == n
    {
      id := n.id;
      peers := n.peers;
      term := n.term;
      log := n.log;
      queued := n.queued;
      outbox := n.outbox;
      processed := n.processed;
      role := n.role;
    }

    method BecomeRole(r: Role)
      modifies this
      ensures State() == Raft.BecomeRole(old(State()), r)
    {
      role := r;
    }

    method Send(to: Address, event: Event)
      modifies this
      ensures State() == Raft.Send(old(State()), to, event)
    {
      outbox := outbox + [Message(term, Local, to, event)];
    }

    method ForwardQueued(to: Address)
      modifies this
      ensures State() == Raft.ForwardQueued(old(State()), to)
    {
      var q := queued;
      queued := [];
      outbox := outbox + Forwarded(q, to);
    }

    method AbortProxied()
      ensures State() == Raft.AbortProxied(old(State()))
    {
    }

    method Append(command: Option<seq<bv8>>)
      modifies this
      ensures State() == AppendEntry(old(State()), command)
    {
      log := log.Append(term, command);
    }

    /** The Follower or Leader role's `step`. */
    method StepRole(msg: Message)
      requires !role.Candidate?
      modifies this
      ensures State() == RoleStep(old(State()), msg)
    {
      processed := processed + [msg];
    }

    method BecomeFollower(newTerm: Term, leader: NodeId)
      requires role.Candidate?
      modifies this
      ensures State() == CandidateRole.BecomeFollower(old(State()), newTerm, leader)
    {
      term := newTerm;
      log := log.SaveTerm(newTerm, None);
      BecomeRole(Follower(Some(leader), None));
      AbortProxied();
      ForwardQueued(Peer(leader));
    }

    method BecomeLeader()
      requires role.Candidate?
      modifies this
      ensures State() == CandidateRole.BecomeLeader(old(State()))
    {
      var lastIndex := log.LastIndex();
      BecomeRole(Leader(peers, lastIndex));
      Send(Peers, Heartbeat(log.commitIndex, log.commitTerm));
      Append(None);
      AbortProxied();
    }

    /** Processes a message; `valid` is the verdict of `validate`. */
    method Step(msg: Message, valid: bool)
      requires role.Candidate?
      modifies this
      ensures State() == CandidateRole.Step(old(State()), msg, valid)
    {
      if !valid {
        return;
      }
      if msg.term > term && msg.src.Peer? {
        BecomeFollower(msg.term, msg.src.id);
        StepRole(msg);
        return;
      }
      match msg.event {
        case Heartbeat(_, _) =>
          if msg.src.Peer? {
            BecomeFollower(msg.term, msg.src.id);
            StepRole(msg);
          }
        case GrantVote =>
          role := role.(voteCount := role.voteCount + 1);
          if role.voteCount >= Quorum(State()) {
            var q := queued;
            queued := [];
            BecomeLeader();
            ReplayQueued(q);
          }
        case SolicitVote(_, _) =>
        case ReplicateEntries(_, _, _) =>
        case AcceptEntries(_) =>
        case RejectEntries =>
      }
    }

    /** Steps every request of `q`, oldest first, through the role the node now has. */
    method ReplayQueued(q: seq<(Address, Event)>)
      requires !role.Candidate?
      modifies this
      ensures State() == CandidateRole.Replay(old(State()), q)
    {
      ghost var start := State();
      for i := 0 to |q|
        invariant State() == CandidateRole.Replay(start, q[..i])
      {
        assert q[..i + 1][..i] == q[..i];
        StepRole(Requeued(q[i]));
      }
      assert q[..|q|] == q;
    }
  }

}
