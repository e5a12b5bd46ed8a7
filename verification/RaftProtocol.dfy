/** Raft elections over an arbitrary network.

    A `World` holds the nodes and every message ever sent.  A message that was sent may be
    delivered at any later moment, any number of times, in any order, or never: the network may
    drop, delay, duplicate and reorder.  The theorems at the end hold of every sequence of actions.
 */
module RaftProtocol {
  import opened RaftNode

  datatype World = World(nodes: map<Id, NodeState>, sent: set<Message>)

  /** One node's clock ticks, or one node receives a message; either may draw a new timeout. */
  datatype Action = Ticks(id: Id, timeout: int) | Receives(m: Message, timeout: int) {
    function Actor(): Id {
      if Ticks? then id else m.to
    }

    /** The message that is consumed, if any. */
    function Got(): set<Message> {
      if Ticks? then {} else {m}
    }
  }

  predicate Enabled(w: World, a: Action) {
    && a.Actor() in w.nodes
    && w.nodes[a.Actor()].cfg.Draws(a.timeout)
    && a.Got() <= w.sent
  }

  function React(s: NodeState, a: Action): Reaction {
    if a.Ticks? then TickNode(s, a.timeout) else StepNode(s, a.m, a.timeout)
  }

  function Update(w: World, id: Id, r: Reaction): World {
    World(w.nodes[id := r.state], w.sent + set m | m in r.out)
  }

  /** An action that is not enabled changes nothing. */
  function Apply(w: World, a: Action): World {
    if Enabled(w, a) then Update(w, a.Actor(), React(w.nodes[a.Actor()], a)) else w
  }

  function After(w: World, acts: seq<Action>): World {
    if acts == [] then w else Apply(After(w, acts[..|acts| - 1]), acts[|acts| - 1])
  }

  ghost predicate PeersAre(s: NodeState, members: set<Id>) {
    && |s.peers| + 1 == |members|
    && forall p {:trigger p in s.peers} :: p in s.peers <==> p in members && p != s.id
  }

  ghost predicate Started(s: NodeState, id: Id, members: set<Id>) {
    && id != NOBODY
    && s.cfg.Valid()
    && s.cfg.Draws(s.electionTimeout)
    && s == Fresh(id, s.peers, s.cfg, s.electionTimeout)
    && PeersAre(s, members)
  }

  ghost predicate Initial(w: World) {
    w.sent == {} && forall i <- w.nodes :: Started(w.nodes[i], i, w.nodes.Keys)
  }

  // ------------------------------------------------------------------
  // What a run has shown so far

  datatype Ballot = Ballot(voter: Id, term: nat, candidate: Id)
  datatype Win = Win(term: nat, winner: Id)
  datatype History = History(ballots: set<Ballot>, wins: set<Win>)

  function BallotsIn(w: World): set<Ballot> {
    set i | i in w.nodes && w.nodes[i].votedFor != NOBODY :: Ballot(i, w.nodes[i].term, w.nodes[i].votedFor)
  }

  function WinsIn(w: World): set<Win> {
    set i | i in w.nodes && w.nodes[i].role.Leader? :: Win(w.nodes[i].term, i)
  }

  function Observe(h: History, w: World): History {
    History(h.ballots + BallotsIn(w), h.wins + WinsIn(w))
  }

  /** Every vote held and every leadership held at some moment of the run. */
  function Seen(w: World, acts: seq<Action>): History {
    if acts == [] then Observe(History({}, {}), w)
    else Observe(Seen(w, acts[..|acts| - 1]), After(w, acts))
  }

  // ------------------------------------------------------------------
  // What one reaction can do, as far as safety is concerned

  ghost predicate Backed(s: NodeState, s': NodeState, v: Id, got: set<Message>) {
    || v == s.id
    || (!s.role.Follower? && s.term == s'.term && v in s.votes)
    || exists m <- got :: m.kind.Vote? && m.granted && m.from == v && m.to == s.id && m.term == s'.term
  }

  predicate NewlyLeads(s: NodeState, s': NodeState) {
    s'.role.Leader? && !(s.role.Leader? && s.term == s'.term)
  }

  ghost predicate VotesLocally(s: NodeState, s': NodeState, got: set<Message>) {
    && s'.id == s.id && s'.peers == s.peers && s'.cfg == s.cfg
    && s.term <= s'.term
    && (s.term == s'.term && s.votedFor != NOBODY ==> s'.votedFor == s.votedFor)
    && (!s'.role.Follower? ==> forall v <- s'.votes :: Backed(s, s', v, got))
  }

  ghost predicate LeadsLocally(s: NodeState, s': NodeState, got: set<Message>) {
    && (NewlyLeads(s, s') ==> |s'.votes| >= Quorum(s))
    && (!s'.role.Follower? ==>
          || s.term < s'.term
          || (!s.role.Follower? && (s'.role.Candidate? ==> s.role.Candidate?)))
    && (s'.leader != NOBODY ==>
          || s'.role.Leader?
          || (s.leader == s'.leader && s.term == s'.term)
          || exists m <- got :: m.kind.Heartbeat? && m.from == s'.leader && m.term == s'.term)
  }

  ghost predicate CountsLocally(s: NodeState, s': NodeState, got: set<Message>) {
    && s'.electionsWon == s.electionsWon + (if NewlyLeads(s, s') then 1 else 0)
    && (|| (s'.electionsBegun == s.electionsBegun + 1 && s'.term == s.term + 1)
        || (&& s'.electionsBegun == s.electionsBegun
            && (s'.term == s.term || exists m <- got :: m.term == s'.term)))
  }

  ghost predicate SendsLocally(s: NodeState, r: Reaction) {
    forall m <- r.out ::
      && m.from == s.id && m.to in s.peers && m.term == r.state.term
      && (m.kind.Vote? && m.granted ==> r.state.votedFor == m.to)
      && (m.kind.Heartbeat? ==> r.state.role.Leader?)
  }

  ghost predicate Local(s: NodeState, r: Reaction, got: set<Message>) {
    && Sane(r.state)
    && VotesLocally(s, r.state, got)
    && LeadsLocally(s, r.state, got)
    && CountsLocally(s, r.state, got)
    && SendsLocally(s, r)
  }

  lemma {:induction false} TickIsLocal(s: NodeState, timeout: int)
    requires Sane(s) && s.cfg.Draws(timeout)
    ensures Local(s, TickNode(s, timeout), {})
  {
  }

  lemma {:induction false} StepVotes(s: NodeState, m: Message, timeout: int)
    requires Sane(s) && m.to == s.id && m.from != NOBODY
    ensures VotesLocally(s, StepNode(s, m, timeout).state, {m})
  {
    var s' := StepNode(s, m, timeout).state;
    if !s'.role.Follower? {
      forall v | v in s'.votes
        ensures Backed(s, s', v, {m})
      {
      }
    }
  }

  lemma {:induction false} StepLeads(s: NodeState, m: Message, timeout: int)
    requires Sane(s) && m.to == s.id
    ensures LeadsLocally(s, StepNode(s, m, timeout).state, {m})
  {
  }

  lemma {:induction false} StepCounts(s: NodeState, m: Message, timeout: int)
    requires Sane(s) && m.to == s.id
    ensures CountsLocally(s, StepNode(s, m, timeout).state, {m})
  {
  }

  lemma {:induction false} StepSends(s: NodeState, m: Message, timeout: int)
    requires Sane(s) && m.to == s.id && m.from in s.peers
    ensures SendsLocally(s, StepNode(s, m, timeout))
  {
  }

  lemma {:induction false} StepIsLocal(s: NodeState, m: Message, timeout: int)
    requires Sane(s) && s.cfg.Draws(timeout)
    requires m.to == s.id && m.from in s.peers && m.from != NOBODY
    ensures Local(s, StepNode(s, m, timeout), {m})
  {
    StepKeepsSane(s, m, timeout);
    StepVotes(s, m, timeout);
    StepLeads(s, m, timeout);
    StepCounts(s, m, timeout);
    StepSends(s, m, timeout);
  }

  // ------------------------------------------------------------------
  // The invariant

  function Supporters(ballots: set<Ballot>, members: set<Id>, x: Win): set<Id> {
    set v | v in members && Ballot(v, x.term, x.winner) in ballots
  }

  ghost predicate Wired(w: World) {
    && (forall i <- w.nodes :: w.nodes[i].id == i && Sane(w.nodes[i]) && PeersAre(w.nodes[i], w.nodes.Keys))
    && (forall m <- w.sent ::
          m.from in w.nodes && m.to in w.nodes && m.from != m.to && m.term <= w.nodes[m.from].term)
  }

  /** A ballot names the vote its voter still holds, unless the voter's term has moved on. */
  predicate Current(b: Ballot, w: World) {
    && b.voter in w.nodes
    && b.candidate != NOBODY
    && b.term <= w.nodes[b.voter].term
    && (b.term == w.nodes[b.voter].term ==> w.nodes[b.voter].votedFor == b.candidate)
  }

  ghost predicate OneBallotPerTerm(ballots: set<Ballot>) {
    forall b <- ballots, c <- ballots :: b.voter == c.voter && b.term == c.term ==> b == c
  }

  ghost predicate GrantsRecorded(sent: set<Message>, ballots: set<Ballot>) {
    forall m <- sent :: m.kind.Vote? && m.granted ==> Ballot(m.from, m.term, m.to) in ballots
  }

  ghost predicate HeldRecorded(s: NodeState, ballots: set<Ballot>) {
    && (s.votedFor != NOBODY ==> Ballot(s.id, s.term, s.votedFor) in ballots)
    && (!s.role.Follower? ==> forall v <- s.votes :: Ballot(v, s.term, s.id) in ballots)
  }

  ghost predicate BallotsOk(w: World, ballots: set<Ballot>) {
    && (forall b <- ballots :: Current(b, w))
    && OneBallotPerTerm(ballots)
    && GrantsRecorded(w.sent, ballots)
    && (forall i {:trigger HeldRecorded(w.nodes[i], ballots)} | i in w.nodes :: HeldRecorded(w.nodes[i], ballots))
  }

  ghost predicate Won(w: World, h: History, x: Win) {
    && x.winner in w.nodes
    && 1 <= x.term <= w.nodes[x.winner].term
    && 2 * |Supporters(h.ballots, w.nodes.Keys, x)| > |w.nodes|
  }

  ghost predicate RoleRecorded(s: NodeState, wins: set<Win>) {
    && (s.role.Leader? ==> Win(s.term, s.id) in wins)
    && (s.role.Candidate? ==> Win(s.term, s.id) !in wins)
    && (s.leader != NOBODY ==> Win(s.term, s.leader) in wins)
  }

  ghost predicate WinsOk(w: World, h: History) {
    && (forall x {:trigger Won(w, h, x)} | x in h.wins :: Won(w, h, x))
    && (forall i {:trigger RoleRecorded(w.nodes[i], h.wins)} | i in w.nodes :: RoleRecorded(w.nodes[i], h.wins))
    && (forall m <- w.sent :: m.kind.Heartbeat? ==> Win(m.term, m.from) in h.wins)
  }

  ghost predicate Inv(w: World, h: History) {
    Wired(w) && BallotsOk(w, h.ballots) && WinsOk(w, h)
  }

  lemma {:induction false} InitialInv(w: World)
    requires Initial(w)
    ensures Inv(w, Observe(History({}, {}), w))
  {
  }

  // ------------------------------------------------------------------
  // One reaction keeps the invariant

  lemma {:induction false} UpdateWired(w: World, i: Id, r: Reaction, got: set<Message>)
    requires Wired(w) && i in w.nodes && Local(w.nodes[i], r, got)
    ensures Wired(Update(w, i, r))
  {
    hide Sane;
    var w' := Update(w, i, r);
    assert w'.nodes.Keys == w.nodes.Keys;
    forall j | j in w'.nodes
      ensures w'.nodes[j].id == j && Sane(w'.nodes[j]) && PeersAre(w'.nodes[j], w'.nodes.Keys)
    {
      assert PeersAre(w.nodes[j], w.nodes.Keys);
    }
    assert forall m <- r.out :: m.to in w.nodes[i].peers;
  }

  lemma {:induction false} NothingNewToObserve(w: World, h: History)
    requires Inv(w, h)
    ensures BallotsIn(w) <= h.ballots && WinsIn(w) <= h.wins
  {
    forall i | i in w.nodes
      ensures w.nodes[i].votedFor != NOBODY ==> Ballot(i, w.nodes[i].term, w.nodes[i].votedFor) in h.ballots
      ensures w.nodes[i].role.Leader? ==> Win(w.nodes[i].term, i) in h.wins
    {
      assert HeldRecorded(w.nodes[i], h.ballots);
      assert RoleRecorded(w.nodes[i], h.wins);
    }
  }

  lemma {:induction false} ObserveAgain(w: World, h: History)
    requires Inv(w, h)
    ensures Observe(h, w) == h
  {
    NothingNewToObserve(w, h);
    assert h.ballots + BallotsIn(w) == h.ballots;
    assert h.wins + WinsIn(w) == h.wins;
  }

  /** Looking at the new world adds only the vote and the leadership of the node that acted. */
  lemma {:induction false} ObserveUpdate(w: World, h: History, i: Id, r: Reaction)
    requires BallotsIn(w) <= h.ballots && WinsIn(w) <= h.wins && i in w.nodes
    ensures Observe(h, Update(w, i, r)).ballots == h.ballots + NewBallot(i, r.state)
    ensures Observe(h, Update(w, i, r)).wins == h.wins + NewWin(i, r.state)
  {
    var w', s' := Update(w, i, r), r.state;
    assert w'.nodes[i] == s';
    forall j | j in w'.nodes && j != i
      ensures w'.nodes[j].votedFor != NOBODY ==> Ballot(j, w'.nodes[j].term, w'.nodes[j].votedFor) in BallotsIn(w)
      ensures w'.nodes[j].role.Leader? ==> Win(w'.nodes[j].term, j) in WinsIn(w)
    {
      assert w'.nodes[j] == w.nodes[j];
    }
    assert NewBallot(i, s') <= BallotsIn(w') <= h.ballots + NewBallot(i, s');
    assert NewWin(i, s') <= WinsIn(w') <= h.wins + NewWin(i, s');
  }

  function NewBallot(i: Id, s: NodeState): set<Ballot> {
    if s.votedFor != NOBODY then {Ballot(i, s.term, s.votedFor)} else {}
  }

  function NewWin(i: Id, s: NodeState): set<Win> {
    if s.role.Leader? then {Win(s.term, i)} else {}
  }

  lemma {:induction false} UpdateHeld(s: NodeState, sent: set<Message>, ballots: set<Ballot>, r: Reaction, got: set<Message>)
    requires HeldRecorded(s, ballots) && GrantsRecorded(sent, ballots) && got <= sent && Local(s, r, got)
    requires NewBallot(s.id, r.state) <= ballots
    ensures HeldRecorded(r.state, ballots)
  {
    var s' := r.state;
    if !s'.role.Follower? {
      forall v | v in s'.votes
        ensures Ballot(v, s'.term, s'.id) in ballots
      {
        assert Backed(s, s', v, got);
      }
    }
  }

  lemma {:induction false} UpdateCurrent(w: World, ballots: set<Ballot>, i: Id, r: Reaction, got: set<Message>)
    requires Wired(w) && BallotsOk(w, ballots) && i in w.nodes && Local(w.nodes[i], r, got)
    ensures forall b <- ballots :: Current(b, Update(w, i, r))
    ensures r.state.votedFor != NOBODY ==>
              var b := Ballot(i, r.state.term, r.state.votedFor);
              Current(b, Update(w, i, r)) && OneBallotPerTerm(ballots + {b})
  {
    var w' := Update(w, i, r);
    forall b | b in ballots
      ensures Current(b, w')
    {
      assert Current(b, w);
    }
  }

  lemma {:induction false} UpdateBallots(w: World, ballots: set<Ballot>, i: Id, r: Reaction, got: set<Message>)
    requires Wired(w) && BallotsOk(w, ballots) && i in w.nodes && got <= w.sent && Local(w.nodes[i], r, got)
    ensures BallotsOk(Update(w, i, r), ballots + NewBallot(i, r.state))
  {
    UpdateCurrent(w, ballots, i, r, got);
    var w', ballots' := Update(w, i, r), ballots + NewBallot(i, r.state);
    assert GrantsRecorded(w.sent, ballots');
    forall j | j in w.nodes
      ensures HeldRecorded(w.nodes[j], ballots')
    {
      assert HeldRecorded(w.nodes[j], ballots);
    }
    assert SendsLocally(w.nodes[i], r);
    assert GrantsRecorded(w'.sent, ballots');
    UpdateHeld(w.nodes[i], w.sent, ballots', r, got);
  }

  lemma {:induction false} SupportersGrow(small: set<Ballot>, large: set<Ballot>, members: set<Id>, x: Win)
    requires small <= large
    ensures |Supporters(small, members, x)| <= |Supporters(large, members, x)|
  {
    var a, b := Supporters(small, members, x), Supporters(large, members, x);
    assert a <= b;
    SubsetSize(a, b);
  }

  lemma {:induction false} SubsetSize<T>(a: set<T>, b: set<T>)
    requires a <= b
    ensures |a| <= |b|
  {
    assert b == a + (b - a);
  }

  /** A node that has just won is supported by a majority. */
  lemma {:induction false} NewWinIsWon(w: World, h: History, i: Id, r: Reaction, got: set<Message>)
    requires Wired(w) && i in w.nodes && Local(w.nodes[i], r, got) && NewlyLeads(w.nodes[i], r.state)
    requires BallotsOk(Update(w, i, r), h.ballots)
    ensures Won(Update(w, i, r), h, Win(r.state.term, i))
  {
    var w', x := Update(w, i, r), Win(r.state.term, i);
    assert w'.nodes.Keys == w.nodes.Keys;
    assert w'.nodes[i] == r.state;
    var q := Supporters(h.ballots, w'.nodes.Keys, x);
    forall v | v in r.state.votes
      ensures v in q
    {
      assert HeldRecorded(w'.nodes[i], h.ballots);
      assert Current(Ballot(v, x.term, i), w');
    }
    SubsetSize(r.state.votes, q);
    assert PeersAre(w.nodes[i], w.nodes.Keys);
  }

  lemma {:induction false} UpdateRole(w: World, h: History, i: Id, r: Reaction, got: set<Message>)
    requires Inv(w, h) && i in w.nodes && got <= w.sent && Local(w.nodes[i], r, got)
    ensures RoleRecorded(r.state, h.wins + NewWin(i, r.state))
    ensures NewlyLeads(w.nodes[i], r.state) <==> !(NewWin(i, r.state) <= h.wins)
  {
    var s, s' := w.nodes[i], r.state;
    assert RoleRecorded(s, h.wins);
    forall x | x in h.wins && x.winner == i
      ensures x.term <= s.term
    {
      assert Won(w, h, x);
    }
  }

  lemma {:induction false} OldWinStaysWon(w: World, h: History, h': History, i: Id, r: Reaction, got: set<Message>, x: Win)
    requires Won(w, h, x) && h.ballots <= h'.ballots && i in w.nodes && Local(w.nodes[i], r, got)
    ensures Won(Update(w, i, r), h', x)
  {
    assert Update(w, i, r).nodes.Keys == w.nodes.Keys;
    SupportersGrow(h.ballots, h'.ballots, w.nodes.Keys, x);
  }

  lemma {:induction false} UpdateWins(w: World, h: History, i: Id, r: Reaction, got: set<Message>)
    requires Inv(w, h) && i in w.nodes && got <= w.sent && Local(w.nodes[i], r, got)
    requires BallotsOk(Update(w, i, r), h.ballots + NewBallot(i, r.state))
    ensures WinsOk(Update(w, i, r), History(h.ballots + NewBallot(i, r.state), h.wins + NewWin(i, r.state)))
  {
    var w', h' := Update(w, i, r), History(h.ballots + NewBallot(i, r.state), h.wins + NewWin(i, r.state));
    assert w'.nodes.Keys == w.nodes.Keys;
    UpdateRole(w, h, i, r, got);
    forall x | x in h'.wins
      ensures Won(w', h', x)
    {
      if x in h.wins {
        OldWinStaysWon(w, h, h', i, r, got, x);
      } else {
        NewWinIsWon(w, h', i, r, got);
      }
    }
    forall j | j in w'.nodes
      ensures RoleRecorded(w'.nodes[j], h'.wins)
    {
      OthersRole(w, h.wins, i, r.state, j);
    }
    HeartbeatsRecorded(w, h.wins, i, r);
  }

  lemma {:induction false} OthersRole(w: World, wins: set<Win>, i: Id, s': NodeState, j: Id)
    requires Wired(w) && i in w.nodes && j in w.nodes && RoleRecorded(w.nodes[j], wins)
    ensures j != i ==> RoleRecorded(w.nodes[j], wins + NewWin(i, s'))
  {
  }

  lemma {:induction false} HeartbeatsRecorded(w: World, wins: set<Win>, i: Id, r: Reaction)
    requires Wired(w) && i in w.nodes && SendsLocally(w.nodes[i], r)
    requires forall m <- w.sent :: m.kind.Heartbeat? ==> Win(m.term, m.from) in wins
    ensures forall m <- Update(w, i, r).sent :: m.kind.Heartbeat? ==> Win(m.term, m.from) in wins + NewWin(i, r.state)
  {
  }

  lemma {:induction false} ApplyKeepsInv(w: World, h: History, a: Action)
    requires Inv(w, h)
    ensures Inv(Apply(w, a), Observe(h, Apply(w, a)))
    ensures Apply(w, a).nodes.Keys == w.nodes.Keys
  {
    if Enabled(w, a) {
      NothingNewToObserve(w, h);
      var i := a.Actor();
      var r := ReactionTo(w, a);
      UpdateWired(w, i, r, a.Got());
      UpdateBallots(w, h.ballots, i, r, a.Got());
      UpdateWins(w, h, i, r, a.Got());
      ObserveUpdate(w, h, i, r);
    } else {
      ObserveAgain(w, h);
    }
  }

  lemma {:induction false} ActionIsLocal(w: World, a: Action)
    requires Wired(w) && Enabled(w, a)
    ensures Local(w.nodes[a.Actor()], React(w.nodes[a.Actor()], a), a.Got())
  {
    if a.Ticks? {
      TickIsLocal(w.nodes[a.id], a.timeout);
    } else {
      assert w.nodes[a.m.from].id != NOBODY;
      StepIsLocal(w.nodes[a.m.to], a.m, a.timeout);
    }
  }

  lemma {:induction false} ReactionTo(w: World, a: Action) returns (r: Reaction)
    requires Wired(w) && Enabled(w, a)
    ensures Local(w.nodes[a.Actor()], r, a.Got()) && Apply(w, a) == Update(w, a.Actor(), r)
  {
    ActionIsLocal(w, a);
    r := React(w.nodes[a.Actor()], a);
  }

  lemma {:induction false} RunInv(w: World, acts: seq<Action>)
    requires Initial(w)
    ensures Inv(After(w, acts), Seen(w, acts))
    ensures After(w, acts).nodes.Keys == w.nodes.Keys
  {
    if acts == [] {
      InitialInv(w);
    } else {
      RunInv(w, acts[..|acts| - 1]);
      ApplyKeepsInv(After(w, acts[..|acts| - 1]), Seen(w, acts[..|acts| - 1]), acts[|acts| - 1]);
    }
  }

  // ------------------------------------------------------------------
  // Election safety

  /** Two majorities share a voter, and a voter has one ballot per term. */
  lemma {:induction false} OneWinnerPerTerm(w: World, h: History, x: Win, y: Win)
    requires Inv(w, h) && x in h.wins && y in h.wins && x.term == y.term
    ensures x == y
  {
    var members := w.nodes.Keys;
    var p, q := Supporters(h.ballots, members, x), Supporters(h.ballots, members, y);
    assert Won(w, h, x) && Won(w, h, y);
    if p * q == {} {
      SubsetSize(p + q, members);
      assert false;
    }
    var v :| v in p * q;
    assert Ballot(v, x.term, x.winner) in h.ballots && Ballot(v, y.term, y.winner) in h.ballots;
  }

  lemma {:induction false} SeenGrows(w: World, acts: seq<Action>, k: nat)
    requires k <= |acts|
    ensures Seen(w, acts[..k]).ballots <= Seen(w, acts).ballots
    ensures Seen(w, acts[..k]).wins <= Seen(w, acts).wins
  {
    if k == |acts| {
      assert acts[..k] == acts;
    } else {
      SeenGrows(w, acts[..|acts| - 1], k);
      assert acts[..|acts| - 1][..k] == acts[..k];
    }
  }

  /** Nodes that lead the same term at any two moments of any run are the same node. */
  lemma {:induction false} ElectionSafety(w: World, acts: seq<Action>, j: nat, k: nat, a: Id, b: Id)
    requires Initial(w) && j <= |acts| && k <= |acts|
    requires a in After(w, acts[..j]).nodes && After(w, acts[..j]).nodes[a].role.Leader?
    requires b in After(w, acts[..k]).nodes && After(w, acts[..k]).nodes[b].role.Leader?
    requires After(w, acts[..j]).nodes[a].term == After(w, acts[..k]).nodes[b].term
    ensures a == b
  {
    RunInv(w, acts);
    RunInv(w, acts[..j]);
    RunInv(w, acts[..k]);
    SeenGrows(w, acts, j);
    SeenGrows(w, acts, k);
    var t := After(w, acts[..j]).nodes[a].term;
    OneWinnerPerTerm(After(w, acts), Seen(w, acts), Win(t, a), Win(t, b));
  }

  /** Among all the messages ever sent, a voter's grants of one term all name one candidate. */
  lemma {:induction false} OneGrantPerTerm(w: World, acts: seq<Action>, m: Message, n: Message)
    requires Initial(w) && m in After(w, acts).sent && n in After(w, acts).sent
    requires m.kind.Vote? && n.kind.Vote? && m.granted && n.granted && m.from == n.from && m.term == n.term
    ensures m.to == n.to
  {
    RunInv(w, acts);
    assert Ballot(m.from, m.term, m.to) in Seen(w, acts).ballots;
    assert Ballot(n.from, n.term, n.to) in Seen(w, acts).ballots;
  }

  /** The votes a node holds in one term, at any two moments of the run, are for one candidate. */
  lemma {:induction false} OneVotePerTerm(w: World, acts: seq<Action>, j: nat, k: nat, v: Id)
    requires Initial(w) && j <= |acts| && k <= |acts|
    requires v in After(w, acts[..j]).nodes && After(w, acts[..j]).nodes[v].votedFor != NOBODY
    requires v in After(w, acts[..k]).nodes && After(w, acts[..k]).nodes[v].votedFor != NOBODY
    requires After(w, acts[..j]).nodes[v].term == After(w, acts[..k]).nodes[v].term
    ensures After(w, acts[..j]).nodes[v].votedFor == After(w, acts[..k]).nodes[v].votedFor
  {
    RunInv(w, acts);
    SeenHolds(w, acts, j, v);
    SeenHolds(w, acts, k, v);
  }

  lemma {:induction false} SeenHolds(w: World, acts: seq<Action>, k: nat, v: Id)
    requires Initial(w) && k <= |acts|
    requires v in After(w, acts[..k]).nodes && After(w, acts[..k]).nodes[v].votedFor != NOBODY
    ensures var s := After(w, acts[..k]).nodes[v]; Ballot(v, s.term, s.votedFor) in Seen(w, acts).ballots
  {
    RunInv(w, acts[..k]);
    SeenGrows(w, acts, k);
    assert HeldRecorded(After(w, acts[..k]).nodes[v], Seen(w, acts[..k]).ballots);
  }

  // ------------------------------------------------------------------
  // Leader beliefs

  ghost predicate LedAt(w: World, acts: seq<Action>, k: nat, id: Id, term: nat) {
    && k <= |acts|
    && id in After(w, acts[..k]).nodes
    && After(w, acts[..k]).nodes[id].role.Leader?
    && After(w, acts[..k]).nodes[id].term == term
  }

  /** A recorded win was a leadership at some moment. */
  lemma {:induction false} WinWasSeen(w: World, acts: seq<Action>, x: Win) returns (k: nat)
    requires x in Seen(w, acts).wins
    ensures LedAt(w, acts, k, x.winner, x.term)
  {
    if x in WinsIn(After(w, acts)) {
      k := |acts|;
      assert acts[..k] == acts;
    } else {
      k := WinWasSeen(w, acts[..|acts| - 1], x);
      assert acts[..|acts| - 1][..k] == acts[..k];
    }
  }

  /** Whoever a node takes for the leader has led the node's current term. */
  lemma {:induction false} BeliefsAreTrue(w: World, acts: seq<Action>, i: Id)
    requires Initial(w) && i in After(w, acts).nodes && After(w, acts).nodes[i].leader != NOBODY
    ensures exists k :: LedAt(w, acts, k, After(w, acts).nodes[i].leader, After(w, acts).nodes[i].term)
  {
    RunInv(w, acts);
    assert RoleRecorded(After(w, acts).nodes[i], Seen(w, acts).wins);
    var k := WinWasSeen(w, acts, Win(After(w, acts).nodes[i].term, After(w, acts).nodes[i].leader));
  }

  /** Two nodes of one term that know a leader know the same one. */
  lemma {:induction false} BelieversAgree(w: World, acts: seq<Action>, i: Id, j: Id)
    requires Initial(w) && i in After(w, acts).nodes && j in After(w, acts).nodes
    requires var n := After(w, acts).nodes;
             n[i].leader != NOBODY && n[j].leader != NOBODY && n[i].term == n[j].term
    ensures After(w, acts).nodes[i].leader == After(w, acts).nodes[j].leader
  {
    RunInv(w, acts);
    var n := After(w, acts).nodes;
    assert RoleRecorded(n[i], Seen(w, acts).wins) && RoleRecorded(n[j], Seen(w, acts).wins);
    OneWinnerPerTerm(After(w, acts), Seen(w, acts), Win(n[i].term, n[i].leader), Win(n[j].term, n[j].leader));
  }

  /** The case the heartbeat branch calls impossible: no leader ever has a heartbeat of its own
      term to receive. */
  lemma {:induction false} NoRivalHeartbeat(w: World, acts: seq<Action>, m: Message)
    requires Initial(w) && m in After(w, acts).sent && m.kind.Heartbeat? && m.to in After(w, acts).nodes
    requires m.term == After(w, acts).nodes[m.to].term
    ensures !After(w, acts).nodes[m.to].role.Leader?
  {
    RunInv(w, acts);
    if After(w, acts).nodes[m.to].role.Leader? {
      OneWinnerPerTerm(After(w, acts), Seen(w, acts), Win(m.term, m.from), Win(m.term, m.to));
      assert false;
    }
  }
}
