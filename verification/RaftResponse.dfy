/** What a node must do, field by field: the effect of a message or a tick on each part of its state, the
    answers it owes, and how an answer deposes a leader or a candidate of an older term. */
module RaftResponse {
  import opened RaftNode
  import opened RaftProtocol

  // ------------------------------------------------------------------
  // One message

  /** The message is not older than the node, once the node has adopted its term. */
  predicate Timely(s: NodeState, m: Message) {
    m.term >= s.term
  }

  predicate Newer(s: NodeState, m: Message) {
    m.term > s.term
  }

  /** The vote a plea meets: a newer term brings a free one. */
  predicate GrantsPlea(s: NodeState, m: Message) {
    m.kind.RequestVote? && Timely(s, m) && (Newer(s, m) || s.votedFor == NOBODY || s.votedFor == m.from)
  }

  predicate CountsVote(s: NodeState, m: Message) {
    m.kind.Vote? && m.granted && m.term == s.term && s.role.Candidate?
  }

  predicate Wins(s: NodeState, m: Message) {
    CountsVote(s, m) && 2 * |s.votes + {m.from}| > |s.peers| + 1
  }

  /** A heartbeat the node bows to: of a newer term, or of its own unless it leads itself. */
  predicate Bows(s: NodeState, m: Message) {
    m.kind.Heartbeat? && (Newer(s, m) || (m.term == s.term && !s.role.Leader?))
  }

  /** Term, vote, role, believed leader and counted votes after a message. */
  lemma {:induction false} StepByField(s: NodeState, m: Message, timeout: int)
    requires m.to == s.id
    ensures var s' := StepNode(s, m, timeout).state;
            && s'.id == s.id && s'.peers == s.peers && s'.cfg == s.cfg && s'.electionsBegun == s.electionsBegun
            && s'.term == (if Newer(s, m) then m.term else s.term)
            && s'.votedFor == (if GrantsPlea(s, m) then m.from else if Newer(s, m) then NOBODY else s.votedFor)
            && s'.role == (if Wins(s, m) then Leader else if Newer(s, m) || Bows(s, m) then Follower else s.role)
            && s'.leader == (if Wins(s, m) then s.id else if Bows(s, m) then m.from else if Newer(s, m) then NOBODY else s.leader)
            && s'.votes == (if CountsVote(s, m) then s.votes + {m.from} else if Newer(s, m) || Bows(s, m) then {} else s.votes)
            && s'.electionsWon == s.electionsWon + if Wins(s, m) then 1 else 0
  {
  }

  /** The election timer restarts with the drawn timeout exactly for a newer term, a granted vote and a
      heartbeat the node bows to. */
  lemma {:induction false} StepTimer(s: NodeState, m: Message, timeout: int)
    requires m.to == s.id
    ensures var s' := StepNode(s, m, timeout).state;
            var restarts := Newer(s, m) || GrantsPlea(s, m) || Bows(s, m);
            && s'.electionTimeout == (if restarts then timeout else s.electionTimeout)
            && s'.elapsed == if restarts || Wins(s, m) then 0 else s.elapsed
  {
  }

  /** Every plea and every heartbeat is answered with one message of the later of the two terms; a vote
      that wins is followed by heartbeats to all peers; nothing else is answered. */
  lemma {:induction false} StepAnswers(s: NodeState, m: Message, timeout: int)
    requires m.to == s.id
    ensures var out, term := StepNode(s, m, timeout).out, if Newer(s, m) then m.term else s.term;
            match m.kind
            case RequestVote => out == [Message(Vote, s.id, m.from, term, GrantsPlea(s, m))]
            case Heartbeat => out == [Message(HeartbeatAck, s.id, m.from, term, false)]
            case Vote =>
              && |out| == (if Wins(s, m) then |s.peers| else 0)
              && forall i :: 0 <= i < |out| ==> out[i] == Message(Heartbeat, s.id, s.peers[i], s.term, false)
            case HeartbeatAck => out == []
  {
  }

  lemma {:induction false} StepForOthers(s: NodeState, m: Message, timeout: int)
    requires m.to != s.id
    ensures StepNode(s, m, timeout) == Reaction(s, [])
  {
  }

  // ------------------------------------------------------------------
  // One tick

  predicate Campaigns(s: NodeState) {
    !s.role.Leader? && s.elapsed + 1 >= s.electionTimeout
  }

  predicate Beats(s: NodeState) {
    s.role.Leader? && s.elapsed + 1 >= s.cfg.heartbeatTicks
  }

  /** A tick counts on, or restarts the count with heartbeats or with a campaign for the next term, which
      a node without peers has won at once. */
  lemma {:induction false} TickByField(s: NodeState, timeout: int)
    ensures var s' := TickNode(s, timeout).state;
            && s'.id == s.id && s'.peers == s.peers && s'.cfg == s.cfg
            && s'.elapsed == (if Campaigns(s) || Beats(s) then 0 else s.elapsed + 1)
            && s'.electionTimeout == (if Campaigns(s) then timeout else s.electionTimeout)
            && s'.term == s.term + (if Campaigns(s) then 1 else 0)
            && s'.electionsBegun == s.electionsBegun + (if Campaigns(s) then 1 else 0)
            && s'.electionsWon == s.electionsWon + (if Campaigns(s) && s.peers == [] then 1 else 0)
            && s'.votedFor == (if Campaigns(s) then s.id else s.votedFor)
            && s'.votes == (if Campaigns(s) then {s.id} else s.votes)
            && s'.leader == (if !Campaigns(s) then s.leader else if s.peers == [] then s.id else NOBODY)
            && s'.role == if !Campaigns(s) then s.role else if s.peers == [] then Leader else Candidate
  {
  }

  /** What a tick sends: a heartbeat or a plea to every peer, in order, or nothing. */
  lemma {:induction false} TickSends(s: NodeState, timeout: int)
    ensures var out := TickNode(s, timeout).out;
            && |out| == (if Campaigns(s) || Beats(s) then |s.peers| else 0)
            && forall i :: 0 <= i < |out| ==>
                 out[i] == if Campaigns(s) then Message(RequestVote, s.id, s.peers[i], s.term + 1, false)
                           else Message(Heartbeat, s.id, s.peers[i], s.term, false)
  {
  }

  // ------------------------------------------------------------------
  // What the answers are for

  /** A heartbeat or a plea that meets a node of a later term: the one answer, delivered, makes the sender
      a follower of that term. */
  lemma {:induction false} StaleSenderStepsDown(l: NodeState, n: NodeState, m: Message, t1: int, t2: int)
    requires m.from == l.id && m.to == n.id && (m.kind.Heartbeat? || m.kind.RequestVote?)
    requires m.term <= l.term < n.term
    ensures var out := StepNode(n, m, t1).out;
            && |out| == 1 && out[0].from == n.id && out[0].to == l.id && out[0].term == n.term && !out[0].granted
            && var s := StepNode(l, out[0], t2).state; s.role.Follower? && s.term == n.term && s.votes == {} && s.leader == NOBODY
    ensures StepNode(n, m, t1).state == n
  {
  }

  /** A heartbeat of a later term makes any node follow its sender, and the answer tells the sender so. */
  lemma {:induction false} LaterHeartbeatWins(n: NodeState, m: Message, timeout: int)
    requires m.to == n.id && m.kind.Heartbeat? && m.term > n.term
    ensures var r := StepNode(n, m, timeout);
            && r.state.role.Follower? && r.state.term == m.term && r.state.leader == m.from && r.state.votedFor == NOBODY
            && r.out == [Message(HeartbeatAck, n.id, m.from, m.term, false)]
  {
  }

  /** The node after these messages, one after the other. */
  function StepAll(s: NodeState, ms: seq<Message>, timeout: int): NodeState {
    if ms == [] then s else StepNode(StepAll(s, ms[..|ms| - 1], timeout), ms[|ms| - 1], timeout).state
  }

  function Senders(ms: seq<Message>): set<Id> {
    set m | m in ms :: m.from
  }

  /** A candidate counts every grant once, whoever sends how many, and leads its term as soon as the
      different voters are a strict majority, not before. */
  lemma {:induction false} GrantsElect(s: NodeState, ms: seq<Message>, timeout: int)
    requires s.role.Candidate? && 2 * |s.votes| <= |s.peers| + 1
    requires forall m <- ms :: m.kind.Vote? && m.granted && m.to == s.id && m.term == s.term
    ensures var e := StepAll(s, ms, timeout);
            && e.id == s.id && e.term == s.term && e.peers == s.peers
            && (e.role.Leader? <==> 2 * |s.votes + Senders(ms)| > |s.peers| + 1)
            && (!e.role.Leader? ==> e.role.Candidate? && e.votes == s.votes + Senders(ms))
            && (e.role.Leader? ==> e.leader == s.id && e.electionsWon == s.electionsWon + 1)
            && (!e.role.Leader? ==> e.electionsWon == s.electionsWon)
  {
    hide StepNode;
    if ms == [] {
      assert s.votes + Senders(ms) == s.votes;
    } else {
      var n := |ms| - 1;
      var front, m := ms[..n], ms[n];
      assert ms == front + [m];
      GrantsElect(s, front, timeout);
      var e := StepAll(s, front, timeout);
      StepByField(e, m, timeout);
      assert Senders(ms) == Senders(front) + {m.from};
      assert s.votes + Senders(ms) == s.votes + Senders(front) + {m.from};
      SubsetSize(s.votes + Senders(front), s.votes + Senders(ms));
    }
  }
}
