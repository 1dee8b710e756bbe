/**
  The message protocol and the node context that the Raft roles share: addresses,
  events, messages, the log as the roles see it, the role-specific state, and the
  collaborators that the Candidate role calls but that live in files not part of
  this model (raft/node/mod.rs, raft/log.rs). Those collaborators are given here
  the simplest effect on the modelled state that their names and call sites imply.
 */
module Raft {
  import opened Wrappers

  type NodeId = string

  /** Terms are unsigned 64-bit counters in the source; overflow is not modelled. */
  type Term = nat

  /** Bounds of the randomised election timeout, in ticks (their values are set in raft/node/mod.rs). */
  const ElectionTimeoutMin: nat
  const ElectionTimeoutMax: nat

  datatype Address = Local | Client | Peer(id: NodeId) | Peers

  datatype Entry = Entry(term: Term, command: Option<seq<bv8>>)

  datatype Event =
    | SolicitVote(lastLogIndex: nat, lastLogTerm: Term)
    | GrantVote
    | Heartbeat(commitIndex: nat, commitTerm: Term)
    | ReplicateEntries(baseIndex: nat, baseTerm: Term, entries: seq<Entry>)
    | AcceptEntries(lastIndex: nat)
    | RejectEntries

  datatype Message = Message(term: Term, src: Address, dst: Address, event: Event)

  /**
    The log as the role code uses it: its entries (so `last_index` is their number),
    the commit point, and the persisted term and vote.
   */
  datatype Log = Log(entries: seq<Entry>, commitIndex: nat, commitTerm: Term, savedTerm: Term, savedVote: Option<NodeId>) {

    function LastIndex(): nat {
      |entries|
    }

    /** Entries up to the commit index exist. */
    predicate Valid() {
      commitIndex <= LastIndex()
    }

    /** `save_term`: persists the current term and the vote cast in it. */
    function SaveTerm(term: Term, vote: Option<NodeId>): Log {
      this.(savedTerm := term, savedVote := vote)
    }

    /** `append`: adds an entry at the end. */
    function Append(term: Term, command: Option<seq<bv8>>): Log {
      this.(entries := entries + [Entry(term, command)])
    }
  }

  datatype Role =
    | Follower(leader: Option<NodeId>, votedFor: Option<NodeId>)
    | Candidate(electionTicks: nat, electionTimeout: nat, voteCount: nat)
    | Leader(peers: set<NodeId>, lastIndex: nat)

  /**
    A node: the context shared by every role (`RoleNode<R>`'s fields: id, peers,
    term, log, queued requests, and the messages it has sent), the messages the
    Follower and Leader bodies have been handed, and the role-specific state.
   */
  datatype Node = Node(
    id: NodeId,
    peers: set<NodeId>,
    term: Term,
    log: Log,
    queued: seq<(Address, Event)>,
    outbox: seq<Message>,
    processed: seq<Message>,
    role: Role)

  /** The number of nodes in the cluster, this one included. */
  function ClusterSize(n: Node): nat {
    |n.peers + {n.id}|
  }

  /** `quorum()`: a strict majority of the cluster. */
  function Quorum(n: Node): nat {
    ClusterSize(n) / 2 + 1
  }

  /** `send`: queues an outbound message stamped with the node's term. */
  function Send(n: Node, to: Address, event: Event): Node {
    n.(outbox := n.outbox + [Message(n.term, Local, to, event)])
  }

  /** The messages that forward queued requests to `to`, in queue order. */
  function Forwarded(q: seq<(Address, Event)>, to: Address): (r: seq<Message>)
    ensures |r| == |q|
    ensures forall i :: 0 <= i < |q| ==> r[i] == Message(0, q[i].0, to, q[i].1)
  {
    seq(|q|, i requires 0 <= i < |q| => Message(0, q[i].0, to, q[i].1))
  }

  /** `forward_queued`: takes the queue and forwards every request to `to`. */
  function ForwardQueued(n: Node, to: Address): Node {
    n.(queued := [], outbox := n.outbox + Forwarded(n.queued, to))
  }

  /** `abort_proxied`: has no effect on the modelled state. */
  function AbortProxied(n: Node): Node {
    n
  }

  /** `become_role`: moves the shared context into a node of the new role. */
  function BecomeRole(n: Node, role: Role): Node {
    n.(role := role)
  }

  /** The leader's `append`: adds an entry at the node's term. */
  function AppendEntry(n: Node, command: Option<seq<bv8>>): Node {
    n.(log := n.log.Append(n.term, command))
  }

  /**
    `step` of the Follower and Leader roles, whose bodies are not part of this
    model: it records the message it was handed and changes nothing else.
   */
  function RoleStep(n: Node, msg: Message): Node
    requires !n.role.Candidate?
  {
    n.(processed := n.processed + [msg])
  }

  /** A queued request re-submitted as a local message at term 0. */
  function Requeued(req: (Address, Event)): Message {
    Message(0, req.0, Local, req.1)
  }

  /** The re-submitted messages for a whole queue, in queue order. */
  function RequeuedAll(q: seq<(Address, Event)>): (r: seq<Message>)
    ensures |r| == |q|
    ensures forall i :: 0 <= i < |q| ==> r[i] == Requeued(q[i])
  {
    seq(|q|, i requires 0 <= i < |q| => Requeued(q[i]))
  }

  /** The majority is more than half the cluster and no more than all of it. */
  lemma QuorumIsMajority(n: Node)
    ensures 2 * Quorum(n) > ClusterSize(n)
    ensures 1 <= Quorum(n) <= ClusterSize(n)
  {
    assert n.id in n.peers + {n.id};
  }

  /** Two sets of cluster members, each at least a quorum, share a member. */
  lemma QuorumsIntersect(n: Node, a: set<NodeId>, b: set<NodeId>)
    requires a <= n.peers + {n.id} && b <= n.peers + {n.id}
    requires |a| >= Quorum(n) && |b| >= Quorum(n)
    ensures a * b != {}
  {
    SubsetCard(a + b, n.peers + {n.id});
    assert |a + b| + |a * b| == |a| + |b|;
    assert |a * b| > 0;
  }

  lemma SubsetCard(a: set<NodeId>, b: set<NodeId>)
    requires a <= b
    ensures |a| <= |b|
  {
    assert b == a + (b - a);
  }

  /** A five-node cluster needs three votes. */
  lemma FiveNodeQuorum(n: Node)
    requires n.id !in n.peers && |n.peers| == 4
    ensures ClusterSize(n) == 5 && Quorum(n) == 3
  {
    assert |n.peers + {n.id}| == |n.peers| + |{n.id}|;
  }

}
