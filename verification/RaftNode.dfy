/** One Raft participant: the election half of section 5.2 of the Raft paper.

    The pure functions give the effect of every transition on a node's state; the class `Node`
    performs the transitions in place and is proved to have exactly those effects.  The random
    generator is a nondeterministic choice: every function that may restart the election timer
    takes the timeout that was drawn as its parameter `timeout`.
 */
module RaftNode {
  import opened NameOrder

  type Id = string

  /** The empty name: "no vote yet" in `votedFor`, "nobody known" in `leader`. */
  const NOBODY: Id := ""

  datatype Role = Follower | Candidate | Leader

  datatype MessageType = RequestVote | Vote | Heartbeat | HeartbeatAck

  datatype Message = Message(kind: MessageType, from: Id, to: Id, term: nat, granted: bool)

  datatype Config = Config(electionTimeoutMin: int, electionTimeoutMax: int, heartbeatTicks: int) {
    /** What `New` demands; it panics otherwise. */
    predicate Valid() {
      0 < electionTimeoutMin <= electionTimeoutMax && 0 < heartbeatTicks
    }

    /** The timeouts the random generator can produce. */
    predicate Draws(timeout: int) {
      electionTimeoutMin <= timeout <= electionTimeoutMax
    }
  }

  datatype NodeState = NodeState(
    id: Id,
    peers: seq<Id>,
    cfg: Config,
    role: Role,
    term: nat,
    votedFor: Id,
    leader: Id,
    votes: set<Id>,
    elapsed: nat,
    electionTimeout: int,
    electionsBegun: nat,
    electionsWon: nat)

  /** A node's new state together with the messages it wants sent. */
  datatype Reaction = Reaction(state: NodeState, out: seq<Message>)

  // ------------------------------------------------------------------
  // Transitions on values

  /** The members other than `id`, in order. */
  function Others(members: seq<Id>, id: Id): seq<Id> {
    if members == [] then []
    else
      var last := members[|members| - 1];
      Others(members[..|members| - 1], id) + if last != id then [last] else []
  }

  function Fresh(id: Id, peers: seq<Id>, cfg: Config, timeout: int): NodeState {
    NodeState(id, peers, cfg, Follower, 0, NOBODY, NOBODY, {}, 0, timeout, 0, 0)
  }

  function Quorum(s: NodeState): nat {
    (|s.peers| + 1) / 2 + 1
  }

  function ResetTimer(s: NodeState, timeout: int): NodeState {
    s.(elapsed := 0, electionTimeout := timeout)
  }

  function Broadcast(s: NodeState, kind: MessageType): seq<Message> {
    seq(|s.peers|, i requires 0 <= i < |s.peers| => Message(kind, s.id, s.peers[i], s.term, false))
  }

  function BecomeLeader(s: NodeState): Reaction {
    var led := s.(role := Leader, leader := s.id, elapsed := 0, electionsWon := s.electionsWon + 1);
    Reaction(led, Broadcast(led, Heartbeat))
  }

  function BecomeFollower(s: NodeState, term: nat, leader: Id, timeout: int): NodeState {
    ResetTimer(
      s.(term := if term > s.term then term else s.term,
         votedFor := if term > s.term then NOBODY else s.votedFor,
         role := Follower, leader := leader, votes := {}),
      timeout)
  }

  function StartElection(s: NodeState, timeout: int): Reaction {
    var running := ResetTimer(
      s.(term := s.term + 1, role := Candidate, votedFor := s.id, leader := NOBODY, votes := {s.id},
         electionsBegun := s.electionsBegun + 1),
      timeout);
    if |running.votes| >= Quorum(running) then BecomeLeader(running)
    else Reaction(running, Broadcast(running, RequestVote))
  }

  function TickNode(s: NodeState, timeout: int): Reaction {
    var aged := s.(elapsed := s.elapsed + 1);
    if s.role.Leader? then
      if aged.elapsed >= s.cfg.heartbeatTicks
      then Reaction(aged.(elapsed := 0), Broadcast(aged, Heartbeat))
      else Reaction(aged, [])
    else
      if aged.elapsed >= s.electionTimeout then StartElection(aged, timeout) else Reaction(aged, [])
  }

  /** The rule for all servers: a message of a higher term demotes the receiver. */
  function AdoptTerm(s: NodeState, m: Message, timeout: int): NodeState {
    if m.term > s.term
    then BecomeFollower(s, m.term, if m.kind.Heartbeat? then m.from else NOBODY, timeout)
    else s
  }

  function Reply(s: NodeState, kind: MessageType, to: Id, granted: bool): seq<Message> {
    [Message(kind, s.id, to, s.term, granted)]
  }

  /** The reaction to a message of the receiver's own term. */
  function StepCurrent(s: NodeState, m: Message, timeout: int): Reaction {
    match m.kind
    case RequestVote =>
      if s.votedFor == NOBODY || s.votedFor == m.from then
        Reaction(ResetTimer(s.(votedFor := m.from), timeout), Reply(s, Vote, m.from, true))
      else
        Reaction(s, Reply(s, Vote, m.from, false))
    case Vote =>
      if !s.role.Candidate? || !m.granted then Reaction(s, [])
      else
        var counted := s.(votes := s.votes + {m.from});
        if |counted.votes| >= Quorum(counted) then BecomeLeader(counted) else Reaction(counted, [])
    case Heartbeat =>
      var heard :=
        if s.role.Leader? then s
        else ResetTimer(s.(role := Follower, leader := m.from, votes := {}), timeout);
      Reaction(heard, Reply(s, HeartbeatAck, m.from, false))
    case HeartbeatAck => Reaction(s, [])
  }

  function StepNode(s: NodeState, m: Message, timeout: int): Reaction {
    if m.to != s.id then Reaction(s, [])
    else
      var s := AdoptTerm(s, m, timeout);
      if m.term < s.term then
        match m.kind
        case RequestVote => Reaction(s, Reply(s, Vote, m.from, false))
        case Heartbeat => Reaction(s, Reply(s, HeartbeatAck, m.from, false))
        case _ => Reaction(s, [])
      else StepCurrent(s, m, timeout)
  }

  // ------------------------------------------------------------------
  // What every single transition keeps

  /** The timers and the self vote of a node that started as `Fresh`. */
  predicate Sane(s: NodeState) {
    && s.cfg.Valid()
    && s.id != NOBODY
    && s.cfg.Draws(s.electionTimeout)
    && (s.role.Leader? ==> s.elapsed < s.cfg.heartbeatTicks)
    && (!s.role.Leader? ==> s.elapsed < s.electionTimeout)
    && (!s.role.Follower? ==> s.term >= 1 && s.votedFor == s.id && s.id in s.votes)
    && (s.role.Leader? ==> s.leader == s.id)
    && (s.role.Candidate? ==> |s.votes| < Quorum(s))
  }

  lemma TickKeepsSane(s: NodeState, timeout: int)
    requires Sane(s) && s.cfg.Draws(timeout)
    ensures Sane(TickNode(s, timeout).state)
  {
  }

  lemma StepKeepsSane(s: NodeState, m: Message, timeout: int)
    requires Sane(s) && s.cfg.Draws(timeout)
    ensures Sane(StepNode(s, m, timeout).state)
  {
  }

  /** A second candidate of the same term gets the vote as well exactly when the first one's name is
      the empty string, which `votedFor` cannot tell from "no vote".  Hence the non-empty names
      everywhere else. */
  lemma OneVoteUnlessNameless(s: NodeState, first: Message, second: Message, t1: int, t2: int)
    requires first.kind.RequestVote? && second.kind.RequestVote?
    requires first.to == second.to == s.id && first.term == second.term && first.from != second.from
    requires var out := StepNode(s, first, t1).out; out == [Message(Vote, s.id, first.from, first.term, true)]
    ensures var out := StepNode(StepNode(s, first, t1).state, second, t2).out;
            |out| == 1 && (out[0].granted <==> first.from == NOBODY)
  {
  }

  // ------------------------------------------------------------------
  // A node that hears nothing

  /** The node after one Tick per timeout and no message in between. */
  function TickAlone(s: NodeState, timeouts: seq<int>): NodeState {
    if timeouts == [] then s
    else TickNode(TickAlone(s, timeouts[..|timeouts| - 1]), timeouts[|timeouts| - 1]).state
  }

  /** Between two elections lie at least the minimal and at most the maximal timeout. */
  lemma {:induction false} TermCredit(s: NodeState, timeouts: seq<int>)
    requires Sane(s) && !s.role.Leader? && |s.peers| >= 1
    requires forall t <- timeouts :: s.cfg.Draws(t)
    ensures var e := TickAlone(s, timeouts);
            && Sane(e) && e.cfg == s.cfg && e.peers == s.peers && !e.role.Leader? && e.term >= s.term
            && e.electionsWon == s.electionsWon
            && e.term - s.term == e.electionsBegun - s.electionsBegun
            && s.cfg.electionTimeoutMin * (e.term - s.term) + e.elapsed <= |timeouts| + s.elapsed
            && |timeouts| <= s.cfg.electionTimeoutMax * (e.term - s.term) + e.elapsed
  {
    if timeouts != [] {
      var n := |timeouts| - 1;
      TermCredit(s, timeouts[..n]);
      var before, after := TickAlone(s, timeouts[..n]), TickAlone(s, timeouts);
      var lo, hi, gain := s.cfg.electionTimeoutMin, s.cfg.electionTimeoutMax, before.term - s.term;
      if after.term != before.term {
        assert lo * (gain + 1) == lo * gain + lo;
        assert hi * (gain + 1) == hi * gain + hi;
      }
    }
  }

  lemma MultiplyMonotone(d: nat, a: nat, b: nat)
    requires a <= b
    ensures d * a <= d * b
  {
  }

  lemma QuotientAtMost(n: nat, d: nat, q: nat)
    requires 0 < d && n < d * (q + 1)
    ensures n / d <= q
  {
    var r := n / d;
    assert d * r <= n;
    if q < r {
      MultiplyMonotone(d, q + 1, r);
      assert false;
    }
  }

  lemma QuotientAtLeast(n: nat, d: nat, q: nat)
    requires 0 < d && d * q <= n
    ensures q <= n / d
  {
    var r := n / d;
    assert n < d * r + d == d * (r + 1);
    if r < q {
      MultiplyMonotone(d, r + 1, q);
      assert false;
    }
  }

  /** From credit to quotients: `n` ticks, the first with `e0` already elapsed, gained `gain` terms. */
  lemma GainBounds(lo: nat, hi: nat, n: nat, e0: nat, e: nat, gain: nat)
    requires 0 < lo && e < hi
    requires lo * gain + e <= n + e0 && n <= hi * gain + e
    ensures n / hi <= gain
    ensures gain <= (n + e0) / lo
  {
    assert hi * gain + hi == hi * (gain + 1);
    QuotientAtMost(n, hi, gain);
    QuotientAtLeast(n + e0, lo, gain);
  }

  /** An isolated non-leader never wins, and its term grows by at least n / max and by at most
      (n + elapsed) / min in n ticks. */
  lemma {:induction false} TermInflation(s: NodeState, timeouts: seq<int>)
    requires Sane(s) && !s.role.Leader? && |s.peers| >= 1
    requires forall t <- timeouts :: s.cfg.Draws(t)
    ensures var e := TickAlone(s, timeouts);
            && !e.role.Leader?
            && e.electionsWon == s.electionsWon
            && |timeouts| / s.cfg.electionTimeoutMax <= e.term - s.term
            && e.term - s.term <= (|timeouts| + s.elapsed) / s.cfg.electionTimeoutMin
  {
    TermCredit(s, timeouts);
    var e := TickAlone(s, timeouts);
    GainBounds(s.cfg.electionTimeoutMin, s.cfg.electionTimeoutMax, |timeouts|, s.elapsed, e.elapsed, e.term - s.term);
  }

  // ------------------------------------------------------------------
  // The node that changes in place

  class Node {
    const id: Id
    const peers: seq<Id>
    const cfg: Config

    var role: Role
    var term: nat
    var votedFor: Id
    var leader: Id
    var votes: set<Id>
    var elapsed: nat
    var electionTimeout: int
    var electionsBegun: nat
    var electionsWon: nat

    ghost function View(): NodeState
      reads this
    {
      NodeState(id, peers, cfg, role, term, votedFor, leader, votes, elapsed, electionTimeout,
                electionsBegun, electionsWon)
    }

    constructor (id: Id, members: seq<Id>, cfg: Config)
      requires cfg.Valid()
      ensures cfg.Draws(electionTimeout)
      ensures View() == Fresh(id, Sorted(Others(members, id)), cfg, electionTimeout)
      ensures this.id == id && peers == Sorted(Others(members, id)) && this.cfg == cfg
      ensures role.Follower? && term == 0 && votedFor == NOBODY && leader == NOBODY && votes == {}
      ensures elapsed == 0 && electionsBegun == 0 && electionsWon == 0
    {
      var peers := [];
      for i := 0 to |members|
        invariant peers == Others(members[..i], id)
      {
        assert members[..i + 1][..i] == members[..i];
        if members[i] != id {
          peers := peers + [members[i]];
        }
      }
      assert members[..|members|] == members;
      this.id := id;
      this.peers := Sorted(peers);
      this.cfg := cfg;
      role, term, votedFor, leader, votes := Follower, 0, NOBODY, NOBODY, {};
      electionsBegun, electionsWon := 0, 0;
      elapsed, electionTimeout := 0, cfg.electionTimeoutMin;
      new;
      ResetElectionTimer();
    }

    /** The least strict majority of the cluster: two sets of `q` members always meet. */
    method QuorumSize() returns (q: nat)
      ensures q == Quorum(View())
      ensures 2 * q > |peers| + 1 && 2 * (q - 1) <= |peers| + 1
    {
      q := (|peers| + 1) / 2 + 1;
    }

    method ResetElectionTimer()
      requires cfg.Valid()
      modifies `elapsed, `electionTimeout
      ensures cfg.Draws(electionTimeout)
      ensures View() == ResetTimer(old(View()), electionTimeout)
    {
      elapsed := 0;
      var span := cfg.electionTimeoutMax - cfg.electionTimeoutMin + 1;
      assert 0 <= 0 < span;
      var draw :| 0 <= draw < span;
      electionTimeout := cfg.electionTimeoutMin + draw;
    }

    method Announce(kind: MessageType) returns (out: seq<Message>)
      ensures out == Broadcast(View(), kind)
    {
      out := [];
      for i := 0 to |peers|
        invariant out == Broadcast(View(), kind)[..i]
      {
        out := out + [Message(kind, id, peers[i], term, false)];
      }
    }

    method Tick() returns (out: seq<Message>)
      requires cfg.Valid() && cfg.Draws(electionTimeout)
      modifies this
      ensures cfg.Draws(electionTimeout)
      ensures Reaction(View(), out) == TickNode(old(View()), electionTimeout)
    {
      elapsed := elapsed + 1;
      out := [];
      if role.Leader? {
        if elapsed >= cfg.heartbeatTicks {
          elapsed := 0;
          out := Announce(Heartbeat);
        }
      } else if elapsed >= electionTimeout {
        out := Campaign();
      }
    }

    method Campaign() returns (out: seq<Message>)
      requires cfg.Valid()
      modifies this
      ensures cfg.Draws(electionTimeout)
      ensures Reaction(View(), out) == StartElection(old(View()), electionTimeout)
    {
      hide Broadcast, Quorum;
      term := term + 1;
      role := Candidate;
      votedFor := id;
      leader := NOBODY;
      votes := {id};
      electionsBegun := electionsBegun + 1;
      ResetElectionTimer();
      var quorum := QuorumSize();
      if |votes| >= quorum {
        out := Lead();
      } else {
        out := Announce(RequestVote);
      }
    }

    method Lead() returns (out: seq<Message>)
      modifies this
      ensures Reaction(View(), out) == BecomeLeader(old(View()))
    {
      role := Leader;
      leader := id;
      elapsed := 0;
      electionsWon := electionsWon + 1;
      out := Announce(Heartbeat);
    }

    method Follow(newTerm: nat, newLeader: Id)
      requires cfg.Valid()
      modifies this
      ensures cfg.Draws(electionTimeout)
      ensures View() == BecomeFollower(old(View()), newTerm, newLeader, electionTimeout)
    {
      if newTerm > term {
        term := newTerm;
        votedFor := NOBODY;
      }
      role := Follower;
      leader := newLeader;
      votes := {};
      ResetElectionTimer();
    }

    method Step(m: Message) returns (out: seq<Message>)
      requires cfg.Valid() && cfg.Draws(electionTimeout)
      modifies this
      ensures cfg.Draws(electionTimeout)
      ensures Reaction(View(), out) == StepNode(old(View()), m, electionTimeout)
    {
      hide Broadcast, Quorum;
      if m.to != id {
        return [];
      }
      if m.term > term {
        var newLeader := NOBODY;
        if m.kind.Heartbeat? {
          newLeader := m.from;
        }
        Follow(m.term, newLeader);
      }
      if m.term < term {
        match m.kind {
          case RequestVote => return [Message(Vote, id, m.from, term, false)];
          case Heartbeat => return [Message(HeartbeatAck, id, m.from, term, false)];
          case _ => return [];
        }
      }
      match m.kind {
        case RequestVote =>
          var granted := votedFor == NOBODY || votedFor == m.from;
          if granted {
            votedFor := m.from;
            ResetElectionTimer();
          }
          return [Message(Vote, id, m.from, term, granted)];
        case Vote =>
          if role != Candidate || !m.granted {
            return [];
          }
          votes := votes + {m.from};
          var quorum := QuorumSize();
          if |votes| >= quorum {
            out := Lead();
            return;
          }
        case Heartbeat =>
          if role != Leader {
            role := Follower;
            leader := m.from;
            votes := {};
            ResetElectionTimer();
          }
          return [Message(HeartbeatAck, id, m.from, term, false)];
        case HeartbeatAck =>
      }
      out := [];
    }
  }
}
