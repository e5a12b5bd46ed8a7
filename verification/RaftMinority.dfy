/** A set of nodes smaller than the quorum that hears nobody outside elects nobody.

    In the simulator all answers to a candidacy arrive in one tick, two ticks after it began, so a
    cut between ticks stops older candidacies as well: `MinorityCannotElect` covers every election.
    Over an arbitrary network only candidacies begun after the cut are stopped
    (`IsolatedMinority`): a vote collected earlier can still complete an older one.
 */
module RaftMinority {
  import opened RaftNode
  import opened RaftProtocol
  import opened RaftAccounting
  import opened RaftCluster

  predicate IsGrant(m: Message, id: Id, term: nat) {
    m.kind.Vote? && m.granted && m.to == id && m.term == term
  }

  predicate IsPlea(m: Message, id: Id, term: nat) {
    m.kind.RequestVote? && m.from == id && m.term == term
  }

  ghost predicate Granted(msgs: seq<Message>, id: Id, term: nat) {
    exists m <- msgs :: IsGrant(m, id, term)
  }

  ghost predicate Asked(msgs: seq<Message>, id: Id, term: nat) {
    exists m <- msgs :: IsPlea(m, id, term)
  }

  // ------------------------------------------------------------------
  // What one step does to a candidacy

  ghost predicate StepsOn(s: NodeState, m: Message, r: Reaction) {
    var s', grant := r.state, IsGrant(m, s.id, s.term);
    var tally := if grant then s.votes + {m.from} else s.votes;
    && s'.id == s.id && s'.peers == s.peers && s.term <= s'.term
    && (s'.role.Candidate? ==> s.role.Candidate? && s'.term == s.term && s'.votes == tally)
    && (s'.electionsWon == s.electionsWon || (s.role.Candidate? && grant && |tally| >= Quorum(s)))
    && (s'.role.Leader? && s'.electionsWon == s.electionsWon ==> s.role.Leader? && s'.term == s.term)
    && (forall x <- r.out :: !x.kind.RequestVote?)
    && (forall x <- r.out :: x.kind.Vote? && x.granted ==> IsPlea(m, x.to, x.term))
  }

  lemma {:induction false} StepStepsOn(s: NodeState, m: Message, timeout: int)
    requires Sane(s) && m.to == s.id
    ensures StepsOn(s, m, StepNode(s, m, timeout))
  {
  }

  ghost predicate TicksOn(s: NodeState, r: Reaction) {
    var s' := r.state;
    && s'.id == s.id && s'.peers == s.peers
    && (|| (s'.term == s.term && s'.role == s.role && s'.votes == s.votes && s'.electionsWon == s.electionsWon
            && forall x <- r.out :: x.kind.Heartbeat?)
        || (&& s'.term == s.term + 1 && s'.votes == {s.id}
            && (Quorum(s) > 1 ==> s'.role.Candidate? && s'.electionsWon == s.electionsWon)
            && forall x <- r.out :: !x.kind.Vote? && (x.kind.RequestVote? ==> IsPlea(x, s.id, s'.term))))
  }

  lemma {:induction false} TickTicksOn(s: NodeState, timeout: int)
    ensures TicksOn(s, TickNode(s, timeout))
  {
  }

  // ------------------------------------------------------------------
  // All answers to a candidacy arrive together

  /** While pleas or grants of a candidacy are in flight, no answer has been counted yet. */
  ghost predicate OneShot(s: NodeState, msgs: seq<Message>) {
    s.role.Candidate? ==>
      && !(Asked(msgs, s.id, s.term) && Granted(msgs, s.id, s.term))
      && (Asked(msgs, s.id, s.term) || Granted(msgs, s.id, s.term) ==> s.votes == {s.id})
  }

  /** Nothing in flight belongs to a candidacy that is still to come. */
  ghost predicate NoneEarly(nodes: map<Id, NodeState>, msgs: seq<Message>) {
    && (forall m <- msgs :: m.kind.RequestVote? ==> m.from in nodes && m.term <= nodes[m.from].term)
    && (forall m <- msgs :: m.kind.Vote? && m.granted ==> m.to in nodes && m.term <= nodes[m.to].term)
  }

  ghost predicate Synced(nodes: map<Id, NodeState>, msgs: seq<Message>) {
    && NoneEarly(nodes, msgs)
    && forall i {:trigger OneShot(nodes[i], msgs)} | i in nodes :: OneShot(nodes[i], msgs)
  }

  /** A node in the middle of the first phase; `all` is the whole pending inbox. */
  ghost predicate Midway(before: NodeState, s: NodeState, all: seq<Message>) {
    && s.id == before.id && s.peers == before.peers && before.term <= s.term && Sane(s)
    && (s.role.Candidate? ==>
          && before.role.Candidate? && s.term == before.term
          && (Asked(all, s.id, s.term) ==> s.votes == {s.id}))
  }

  ghost predicate AnswersTo(x: Message, all: seq<Message>) {
    !x.kind.RequestVote? && (x.kind.Vote? && x.granted ==> Asked(all, x.to, x.term))
  }

  lemma {:induction false} StepMidway(before: NodeState, s: NodeState, all: seq<Message>, m: Message, r: Reaction)
    requires Midway(before, s, all) && OneShot(before, all) && m in all && m.to == s.id
    requires StepsOn(s, m, r) && Sane(r.state)
    ensures Midway(before, r.state, all)
    ensures forall x <- r.out :: AnswersTo(x, all)
  {
    if r.state.role.Candidate? && IsGrant(m, s.id, s.term) {
      assert Granted(all, s.id, s.term);
    }
  }

  ghost predicate FirstPhase(before: map<Id, NodeState>, p: Phase, all: seq<Message>) {
    && p.nodes.Keys == before.Keys
    && (forall i <- before :: Midway(before[i], p.nodes[i], all))
    && (forall x <- p.out :: AnswersTo(x, all))
  }

  lemma {:induction false} ReactionFirstPhase(before: map<Id, NodeState>, p: Phase, all: seq<Message>, m: Message, r: Reaction)
    requires FirstPhase(before, p, all) && m in all && m.to in before && OneShot(before[m.to], all) && before[m.to].id == m.to
    requires StepsOn(p.nodes[m.to], m, r) && Sane(r.state)
    ensures FirstPhase(before, Phase(p.nodes[m.to := r.state], p.out + r.out), all)
  {
    StepMidway(before[m.to], p.nodes[m.to], all, m, r);
  }

  lemma {:induction false} DeliverFirstPhase(nodes: map<Id, NodeState>, all: seq<Message>, pending: seq<Message>, blocked: set<Link>, timeouts: seq<int>, cfg: Config)
    requires |timeouts| == |pending| && forall t <- timeouts :: cfg.Draws(t)
    requires forall m <- pending :: m in all && m.to in nodes
    requires NodesOk(nodes, cfg) && Synced(nodes, all)
    ensures var p := Deliver(nodes, pending, blocked, timeouts); FirstPhase(nodes, p, all) && NodesOk(p.nodes, cfg)
  {
    hide StepNode, StepsOn;
    if pending == [] {
      forall i | i in nodes
        ensures Midway(nodes[i], nodes[i], all)
      {
        assert OneShot(nodes[i], all);
      }
    } else {
      var n := |pending| - 1;
      DeliverFirstPhase(nodes, all, pending[..n], blocked, timeouts[..n], cfg);
      if (pending[n].from, pending[n].to) !in blocked {
        var p, m, t := Deliver(nodes, pending[..n], blocked, timeouts[..n]), pending[n], timeouts[n];
        var r := SoundStep(p.nodes[m.to], m, t);
        ReactionFirstPhase(nodes, p, all, m, r);
      }
    }
  }

  lemma {:induction false} SoundStep(s: NodeState, m: Message, timeout: int) returns (r: Reaction)
    requires Sane(s) && m.to == s.id && s.cfg.Draws(timeout)
    ensures r == StepNode(s, m, timeout) && StepsOn(s, m, r) && Sane(r.state) && r.state.cfg == s.cfg
  {
    r := StepNode(s, m, timeout);
    StepKeepsSane(s, m, timeout);
    StepStepsOn(s, m, timeout);
  }

  /** A member after the second phase is synced with everything sent in the tick. */
  lemma {:induction false} TickSyncs(before: NodeState, s: NodeState, all: seq<Message>, r: Reaction, sent: seq<Message>, inbox: seq<Message>)
    requires Midway(before, s, all) && TicksOn(s, r)
    requires forall x <- sent :: AnswersTo(x, all)
    requires forall x <- sent :: x.kind.Vote? && x.granted && x.to == s.id ==> x.term <= before.term
    requires forall x <- inbox :: x in sent || x in r.out || (x.from != s.id && !x.kind.Vote?)
    ensures OneShot(r.state, inbox)
  {
    var s' := r.state;
    if s'.role.Candidate? {
      if s'.term == s.term {
        assert !Asked(inbox, s.id, s.term);
        if Granted(inbox, s.id, s.term) {
          var x :| x in inbox && IsGrant(x, s.id, s.term);
          assert x in sent;
        }
      } else {
        assert !Granted(inbox, s.id, s'.term);
      }
    }
  }

  lemma {:induction false} TickKeepsSynced(c: ClusterState, r: Round)
    requires Legal(c, r) && Enumerates(c.order, c.nodes.Keys) && NodesOk(c.nodes, c.cfg) && Synced(c.nodes, c.inbox)
    ensures Synced(ClusterTick(c, r).nodes, ClusterTick(c, r).inbox)
  {
    var d, c', second := Delivery(c, r), ClusterTick(c, r), r.timeouts[|c.inbox|..];
    DeliverFirstPhase(c.nodes, c.inbox, c.inbox, r.blocked, r.timeouts[..|c.inbox|], c.cfg);
    forall i | i in c.nodes
      ensures OneShot(c'.nodes[i], c'.inbox) && d.nodes[i].term <= c'.nodes[i].term
    {
      MemberSynced(c, r, d, i);
    }
    forall x | x in TickEach(d.nodes, c.order, second).out
      ensures !x.kind.Vote? && (x.kind.RequestVote? ==> x.from in c'.nodes && x.term <= c'.nodes[x.from].term)
    {
      SentInSecondPhase(d.nodes, c.order, second, x);
    }
    GrantsNotEarly(c, d);
  }

  lemma {:induction false} GrantsNotEarly(c: ClusterState, d: Phase)
    requires NoneEarly(c.nodes, c.inbox) && FirstPhase(c.nodes, d, c.inbox)
    ensures forall x <- d.out :: x.kind.Vote? && x.granted ==> x.to in c.nodes && x.term <= c.nodes[x.to].term
  {
    forall x | x in d.out && x.kind.Vote? && x.granted
      ensures x.to in c.nodes && x.term <= c.nodes[x.to].term
    {
      assert AnswersTo(x, c.inbox);
      var m :| m in c.inbox && IsPlea(m, x.to, x.term);
    }
  }

  lemma {:induction false} SentInSecondPhase(nodes: map<Id, NodeState>, order: seq<Id>, timeouts: seq<int>, x: Message)
    requires |timeouts| == |order| && Enumerates(order, nodes.Keys) && forall i <- nodes :: nodes[i].id == i
    requires x in TickEach(nodes, order, timeouts).out
    ensures !x.kind.Vote? && x.from in nodes
    ensures x.kind.RequestVote? ==> x.term <= TickEach(nodes, order, timeouts).nodes[x.from].term
  {
    var k := TickEachMessage(nodes, order, timeouts, x);
    TickEachMember(nodes, order, timeouts, k);
    TickTicksOn(nodes[order[k]], timeouts[k]);
    assert x.from == order[k];
  }

  lemma {:induction false} SentBySelfOrOther(nodes: map<Id, NodeState>, order: seq<Id>, timeouts: seq<int>, k: nat, x: Message)
    requires |timeouts| == |order| && Enumerates(order, nodes.Keys) && (forall i <- nodes :: nodes[i].id == i) && k < |order|
    requires x in TickEach(nodes, order, timeouts).out
    ensures x in TickNode(nodes[order[k]], timeouts[k]).out || (x.from != order[k] && !x.kind.Vote?)
  {
    var j := TickEachMessage(nodes, order, timeouts, x);
    TickTicksOn(nodes[order[j]], timeouts[j]);
    assert x.from == order[j];
  }

  lemma {:induction false} MemberSynced(c: ClusterState, r: Round, d: Phase, i: Id)
    requires Legal(c, r) && Enumerates(c.order, c.nodes.Keys) && NoneEarly(c.nodes, c.inbox) && i in c.nodes
    requires d == Delivery(c, r) && FirstPhase(c.nodes, d, c.inbox) && NodesOk(d.nodes, c.cfg) && NodesOk(c.nodes, c.cfg)
    ensures OneShot(ClusterTick(c, r).nodes[i], ClusterTick(c, r).inbox)
    ensures d.nodes[i].term <= ClusterTick(c, r).nodes[i].term
  {
    var second, inbox := r.timeouts[|c.inbox|..], ClusterTick(c, r).inbox;
    var k :| 0 <= k < |c.order| && c.order[k] == i;
    TickEachMember(d.nodes, c.order, second, k);
    TickTicksOn(d.nodes[i], second[k]);
    GrantsNotEarly(c, d);
    var x := TickNode(d.nodes[i], second[k]);
    forall m | m in inbox
      ensures m in d.out || m in x.out || (m.from != i && !m.kind.Vote?)
    {
      if m !in d.out {
        SentBySelfOrOther(d.nodes, c.order, second, k, m);
      }
    }
    TickSyncs(c.nodes[i], d.nodes[i], c.inbox, x, d.out, inbox);
  }

  lemma {:induction false} RunNodesOk(cs: seq<ClusterState>, rs: seq<Round>, k: nat)
    requires IsRun(cs, rs) && StartedCluster(cs[0]) && k <= |rs|
    ensures Enumerates(cs[k].order, cs[k].nodes.Keys) && NodesOk(cs[k].nodes, cs[k].cfg)
    ensures cs[k].nodes.Keys == cs[0].nodes.Keys && cs[k].cfg == cs[0].cfg
    ensures forall m <- cs[k].inbox :: m.from in cs[k].nodes
    ensures forall i <- cs[k].nodes :: Quorum(cs[k].nodes[i]) == |cs[0].nodes| / 2 + 1
  {
    RunIsWired(cs, rs, k);
    assert forall m <- cs[k].inbox :: m in SetOf(cs[k].inbox);
    forall i | i in cs[k].nodes
      ensures Quorum(cs[k].nodes[i]) == |cs[0].nodes| / 2 + 1
    {
      assert PeersAre(cs[k].nodes[i], cs[k].nodes.Keys);
    }
  }

  lemma {:induction false} StartIsSynced(c: ClusterState)
    requires StartedCluster(c)
    ensures Synced(c.nodes, c.inbox)
  {
  }

  lemma {:induction false} RunIsSynced(cs: seq<ClusterState>, rs: seq<Round>, k: nat)
    requires IsRun(cs, rs) && StartedCluster(cs[0]) && k <= |rs|
    ensures Synced(cs[k].nodes, cs[k].inbox)
  {
    if k == 0 {
      StartIsSynced(cs[0]);
    } else {
      RunIsSynced(cs, rs, k - 1);
      RunNodesOk(cs, rs, k - 1);
      TickKeepsSynced(cs[k - 1], rs[k - 1]);
    }
  }

  // ------------------------------------------------------------------
  // The cut

  /** Every link from a member outside `group` into `group` is cut. */
  predicate CutOff(group: set<Id>, members: set<Id>, blocked: set<Link>) {
    forall a <- members, b <- group :: a !in group ==> (a, b) in blocked
  }

  /** A candidacy with no way to win: it counts only votes of the group, or no answer is left. */
  ghost predicate Losing(s: NodeState, group: set<Id>, msgs: seq<Message>) {
    s.role.Candidate? ==>
      s.votes <= group || (!Asked(msgs, s.id, s.term) && !Granted(msgs, s.id, s.term))
  }

  ghost predicate HasNotWon(before: NodeState, s: NodeState) {
    s.electionsWon == before.electionsWon && (s.role.Leader? ==> before.role.Leader? && s.term == before.term)
  }

  lemma {:induction false} StepStaysLosing(before: NodeState, s: NodeState, group: set<Id>, all: seq<Message>, m: Message, r: Reaction)
    requires HasNotWon(before, s) && Losing(s, group, all) && StepsOn(s, m, r) && m in all
    requires IsGrant(m, s.id, s.term) ==> m.from in group
    requires |group| < Quorum(s)
    ensures HasNotWon(before, r.state) && Losing(r.state, group, all)
  {
    if s.role.Candidate? && IsGrant(m, s.id, s.term) {
      assert Granted(all, s.id, s.term);
      SubsetSize(s.votes + {m.from}, group);
    }
  }

  ghost predicate GroupLoses(before: map<Id, NodeState>, nodes: map<Id, NodeState>, group: set<Id>, msgs: seq<Message>)
    requires before.Keys == nodes.Keys
  {
    forall i <- nodes :: i in group ==> HasNotWon(before[i], nodes[i]) && Losing(nodes[i], group, msgs)
  }

  ghost predicate SmallGroup(nodes: map<Id, NodeState>, group: set<Id>) {
    forall i <- nodes :: |group| < Quorum(nodes[i])
  }

  lemma {:induction false} DeliverGroupLoses(nodes: map<Id, NodeState>, all: seq<Message>, pending: seq<Message>, blocked: set<Link>, timeouts: seq<int>, cfg: Config, group: set<Id>)
    requires |timeouts| == |pending| && forall t <- timeouts :: cfg.Draws(t)
    requires forall m <- pending :: m in all && m.from in nodes && m.to in nodes
    requires NodesOk(nodes, cfg) && Synced(nodes, all) && SmallGroup(nodes, group)
    requires CutOff(group, nodes.Keys, blocked) && GroupLoses(nodes, nodes, group, all)
    ensures GroupLoses(nodes, Deliver(nodes, pending, blocked, timeouts).nodes, group, all)
  {
    if pending != [] {
      var n := |pending| - 1;
      DeliverGroupLoses(nodes, all, pending[..n], blocked, timeouts[..n], cfg, group);
      DeliverFirstPhase(nodes, all, pending[..n], blocked, timeouts[..n], cfg);
      if (pending[n].from, pending[n].to) !in blocked && pending[n].to in group {
        var p, m := Deliver(nodes, pending[..n], blocked, timeouts[..n]), pending[n];
        var r := SoundStep(p.nodes[m.to], m, timeouts[n]);
        assert Midway(nodes[m.to], p.nodes[m.to], all);
        StepStaysLosing(nodes[m.to], p.nodes[m.to], group, all, m, r);
      }
    }
  }

  lemma {:induction false} TickStaysLosing(s: NodeState, group: set<Id>, all: seq<Message>, r: Reaction, sent: seq<Message>, inbox: seq<Message>)
    requires Losing(s, group, all) && TicksOn(s, r) && Quorum(s) > 1 && s.id in group
    requires forall x <- sent :: AnswersTo(x, all)
    requires forall x <- inbox :: x in sent || x in r.out || (x.from != s.id && !x.kind.Vote?)
    ensures HasNotWon(s, r.state) && Losing(r.state, group, inbox)
  {
    if r.state.role.Candidate? && r.state.term == s.term && !(s.votes <= group) {
      assert !Asked(inbox, s.id, s.term);
      assert !Granted(inbox, s.id, s.term);
    }
  }

  lemma {:induction false} MemberLoses(c: ClusterState, r: Round, d: Phase, group: set<Id>, i: Id)
    requires Legal(c, r) && Enumerates(c.order, c.nodes.Keys) && i in c.nodes && i in group
    requires d == Delivery(c, r) && FirstPhase(c.nodes, d, c.inbox) && NodesOk(d.nodes, c.cfg)
    requires HasNotWon(c.nodes[i], d.nodes[i]) && Losing(d.nodes[i], group, c.inbox) && |group| < Quorum(c.nodes[i])
    ensures HasNotWon(c.nodes[i], ClusterTick(c, r).nodes[i])
    ensures Losing(ClusterTick(c, r).nodes[i], group, ClusterTick(c, r).inbox)
  {
    var second, inbox := r.timeouts[|c.inbox|..], ClusterTick(c, r).inbox;
    var k :| 0 <= k < |c.order| && c.order[k] == i;
    TickEachMember(d.nodes, c.order, second, k);
    TickTicksOn(d.nodes[i], second[k]);
    var x := TickNode(d.nodes[i], second[k]);
    forall m | m in inbox
      ensures m in d.out || m in x.out || (m.from != i && !m.kind.Vote?)
    {
      if m !in d.out {
        SentBySelfOrOther(d.nodes, c.order, second, k, m);
      }
    }
    SubsetSize({i}, group);
    assert Midway(c.nodes[i], d.nodes[i], c.inbox);
    TickStaysLosing(d.nodes[i], group, c.inbox, x, d.out, inbox);
  }

  lemma {:induction false} TickGroupLoses(c: ClusterState, r: Round, group: set<Id>)
    requires Legal(c, r) && Enumerates(c.order, c.nodes.Keys) && NodesOk(c.nodes, c.cfg) && Synced(c.nodes, c.inbox)
    requires forall m <- c.inbox :: m.from in c.nodes
    requires SmallGroup(c.nodes, group) && CutOff(group, c.nodes.Keys, r.blocked)
    requires GroupLoses(c.nodes, c.nodes, group, c.inbox)
    ensures GroupLoses(c.nodes, ClusterTick(c, r).nodes, group, ClusterTick(c, r).inbox)
  {
    var d := Delivery(c, r);
    DeliverFirstPhase(c.nodes, c.inbox, c.inbox, r.blocked, r.timeouts[..|c.inbox|], c.cfg);
    DeliverGroupLoses(c.nodes, c.inbox, c.inbox, r.blocked, r.timeouts[..|c.inbox|], c.cfg, group);
    forall i | i in c.nodes && i in group
      ensures HasNotWon(c.nodes[i], ClusterTick(c, r).nodes[i])
      ensures Losing(ClusterTick(c, r).nodes[i], group, ClusterTick(c, r).inbox)
    {
      MemberLoses(c, r, d, group, i);
    }
  }

  lemma {:induction false} OneMoreTickLost(cs: seq<ClusterState>, rs: seq<Round>, k: nat, group: set<Id>)
    requires IsRun(cs, rs) && StartedCluster(cs[0]) && k < |rs| && 2 * |group| <= |cs[0].nodes|
    requires CutOff(group, cs[0].nodes.Keys, rs[k].blocked)
    requires forall i <- cs[k].nodes :: i in group ==> Losing(cs[k].nodes[i], group, cs[k].inbox)
    ensures cs[k + 1].nodes.Keys == cs[k].nodes.Keys && GroupLoses(cs[k].nodes, cs[k + 1].nodes, group, cs[k + 1].inbox)
  {
    RunNodesOk(cs, rs, k);
    RunIsSynced(cs, rs, k);
    TickGroupLoses(cs[k], rs[k], group);
  }

  lemma {:induction false} GroupKeepsLosing(cs: seq<ClusterState>, rs: seq<Round>, cut: nat, k: nat, group: set<Id>)
    requires IsRun(cs, rs) && StartedCluster(cs[0]) && cut <= k <= |rs| && 2 * |group| <= |cs[0].nodes|
    requires forall j :: cut <= j < k ==> CutOff(group, cs[0].nodes.Keys, rs[j].blocked)
    ensures cs[k].nodes.Keys == cs[cut].nodes.Keys && GroupLoses(cs[cut].nodes, cs[k].nodes, group, cs[k].inbox)
  {
    hide ClusterTick, NodesOk;
    if cut == k {
      RunIsSynced(cs, rs, k);
      RunNodesOk(cs, rs, k);
      forall s | s in cs[k].nodes && s in group
        ensures Losing(cs[k].nodes[s], group, cs[k].inbox)
      {
        assert OneShot(cs[k].nodes[s], cs[k].inbox);
      }
    } else {
      GroupKeepsLosing(cs, rs, cut, k - 1, group);
      OneMoreTickLost(cs, rs, k - 1, group);
      LosesOn(cs[cut].nodes, cs[k - 1].nodes, cs[k].nodes, group, cs[k - 1].inbox, cs[k].inbox);
    }
  }

  lemma {:induction false} LosesOn(a: map<Id, NodeState>, b: map<Id, NodeState>, c: map<Id, NodeState>, group: set<Id>, mb: seq<Message>, mc: seq<Message>)
    requires a.Keys == b.Keys == c.Keys && GroupLoses(a, b, group, mb) && GroupLoses(b, c, group, mc)
    ensures GroupLoses(a, c, group, mc)
  {
  }

  /** From any reachable state: while every link into a group below the quorum stays cut, no member
      of the group wins an election, and a member that leads led the same term before the cut. */
  lemma {:induction false} MinorityCannotElect(cs: seq<ClusterState>, rs: seq<Round>, cut: nat, k: nat, group: set<Id>, s: Id)
    requires IsRun(cs, rs) && StartedCluster(cs[0]) && cut <= k <= |rs|
    requires 2 * |group| <= |cs[0].nodes| && s in group && s in cs[k].nodes
    requires forall j :: cut <= j < k ==> CutOff(group, cs[0].nodes.Keys, rs[j].blocked)
    ensures s in cs[cut].nodes && cs[k].nodes[s].electionsWon == cs[cut].nodes[s].electionsWon
    ensures cs[k].nodes[s].role.Leader? ==>
              cs[cut].nodes[s].role.Leader? && cs[cut].nodes[s].term == cs[k].nodes[s].term
  {
    GroupKeepsLosing(cs, rs, cut, k, group);
  }

  // ------------------------------------------------------------------
  // The same over an arbitrary network

  /** From action `cut` on, members of `group` receive only from each other. */
  ghost predicate HearsItself(acts: seq<Action>, cut: nat, group: set<Id>) {
    forall k :: cut <= k < |acts| && acts[k].Receives? && acts[k].m.to in group ==> acts[k].m.from in group
  }

  /** A node that has moved past `term` is at most a candidate counting votes of the group. */
  predicate NoLateWin(s: NodeState, term: nat, group: set<Id>) {
    && term <= s.term
    && (s.term > term && !s.role.Follower? ==> s.role.Candidate? && s.votes <= group)
  }

  lemma {:induction false} ApplyNoLateWin(w: World, a: Action, i: Id, term: nat, group: set<Id>)
    requires Wired(w) && i in w.nodes && i in group && 2 * |group| <= |w.nodes| && NoLateWin(w.nodes[i], term, group)
    requires a.Receives? && a.m.to in group ==> a.m.from in group
    ensures Apply(w, a).nodes.Keys == w.nodes.Keys && NoLateWin(Apply(w, a).nodes[i], term, group)
  {
    if Enabled(w, a) && a.Actor() == i {
      var s := w.nodes[i];
      assert PeersAre(s, w.nodes.Keys);
      if a.Ticks? {
        TickTicksOn(s, a.timeout);
        SubsetSize({i}, group);
      } else {
        LateStep(s, a.m, a.timeout, term, group);
      }
    }
  }

  lemma {:induction false} LateStep(s: NodeState, m: Message, timeout: int, term: nat, group: set<Id>)
    requires Sane(s) && m.to == s.id && NoLateWin(s, term, group) && m.from in group && |group| < Quorum(s)
    ensures NoLateWin(StepNode(s, m, timeout).state, term, group)
  {
    StepStepsOn(s, m, timeout);
    if s.votes <= group {
      SubsetSize(s.votes + {m.from}, group);
    }
  }

  /** Whatever the network does: once a group below the quorum hears only itself, a member leads
      no term above the one it had at that moment. */
  lemma {:induction false} IsolatedMinority(w: World, acts: seq<Action>, cut: nat, group: set<Id>, s: Id)
    requires Initial(w) && cut <= |acts| && HearsItself(acts, cut, group) && 2 * |group| <= |w.nodes|
    requires s in group && s in w.nodes
    ensures s in After(w, acts).nodes && s in After(w, acts[..cut]).nodes
    ensures NoLateWin(After(w, acts).nodes[s], After(w, acts[..cut]).nodes[s].term, group)
  {
    if cut == |acts| {
      ProtocolRunWired(w, acts[..cut]);
      assert acts[..cut] == acts;
    } else {
      var n := |acts| - 1;
      var before := After(w, acts[..n]);
      assert acts[..n][..cut] == acts[..cut];
      assert HearsItself(acts[..n], cut, group);
      IsolatedMinority(w, acts[..n], cut, group, s);
      ProtocolRunWired(w, acts[..n]);
      ApplyNoLateWin(before, acts[n], s, After(w, acts[..cut]).nodes[s].term, group);
    }
  }

  lemma {:induction false} ProtocolRunWired(w: World, acts: seq<Action>)
    requires Initial(w)
    ensures var n := After(w, acts); Wired(n) && n.nodes.Keys == w.nodes.Keys && |n.nodes| == |w.nodes|
  {
    RunInv(w, acts);
    assert |After(w, acts).nodes.Keys| == |w.nodes.Keys|;
  }

  // ------------------------------------------------------------------
  // An older candidacy can outlive the cut

  /** A node that leads or campaigns in the term it had at the cut, without leading then, was a candidate
      then; it has counted no votes but those it had and the group's, and leads only if these are enough. */
  predicate OldCandidacy(was: NodeState, s: NodeState, group: set<Id>) {
    && s.peers == was.peers && was.term <= s.term
    && (s.term == was.term && !was.role.Leader? && !s.role.Follower? ==>
          && was.role.Candidate?
          && (s.role.Candidate? ==> s.votes <= was.votes + group)
          && (s.role.Leader? ==> |was.votes + group| >= Quorum(was)))
  }

  lemma {:induction false} OldStep(was: NodeState, s: NodeState, m: Message, timeout: int, group: set<Id>)
    requires Sane(s) && m.to == s.id && m.from in group && OldCandidacy(was, s, group)
    ensures OldCandidacy(was, StepNode(s, m, timeout).state, group)
  {
    StepStepsOn(s, m, timeout);
    if s.role.Candidate? && s.term == was.term && s.votes <= was.votes + group {
      SubsetSize(s.votes + {m.from}, was.votes + group);
      SubsetSize(s.votes, was.votes + group);
    }
  }

  lemma {:induction false} OldTick(was: NodeState, s: NodeState, timeout: int, group: set<Id>)
    requires Sane(s) && s.cfg.Draws(timeout) && OldCandidacy(was, s, group)
    ensures OldCandidacy(was, TickNode(s, timeout).state, group)
  {
  }

  lemma {:induction false} ApplyOldCandidacy(w: World, a: Action, was: NodeState, i: Id, group: set<Id>)
    requires Wired(w) && i in w.nodes && i in group && OldCandidacy(was, w.nodes[i], group)
    requires a.Receives? && a.m.to in group ==> a.m.from in group
    ensures Apply(w, a).nodes.Keys == w.nodes.Keys && OldCandidacy(was, Apply(w, a).nodes[i], group)
  {
    hide OldCandidacy, StepNode, TickNode;
    if Enabled(w, a) && a.Actor() == i {
      if a.Ticks? {
        OldTick(was, w.nodes[i], a.timeout, group);
      } else {
        OldStep(was, w.nodes[i], a.m, a.timeout, group);
      }
    }
  }

  /** Whatever the network does, once a group hears only itself, however large: a member that did not
      lead at that moment leads its term of that moment only if it was a candidate then, and the votes it
      had then, together with the group, are a quorum. */
  lemma {:induction false} OlderCandidacyNeeds(w: World, acts: seq<Action>, cut: nat, group: set<Id>, s: Id)
    requires Initial(w) && cut <= |acts| && HearsItself(acts, cut, group) && s in group && s in w.nodes
    ensures s in After(w, acts).nodes && s in After(w, acts[..cut]).nodes
    ensures OldCandidacy(After(w, acts[..cut]).nodes[s], After(w, acts).nodes[s], group)
  {
    hide Apply;
    if cut == |acts| {
      ProtocolRunWired(w, acts[..cut]);
      assert acts[..cut] == acts;
    } else {
      var n := |acts| - 1;
      assert acts[..n][..cut] == acts[..cut];
      assert HearsItself(acts[..n], cut, group);
      OlderCandidacyNeeds(w, acts[..n], cut, group, s);
      ProtocolRunWired(w, acts[..n]);
      ApplyOldCandidacy(After(w, acts[..n]), acts[n], After(w, acts[..cut]).nodes[s], s, group);
    }
  }

  function Newcomer(id: Id, peers: seq<Id>): NodeState {
    Fresh(id, peers, Config(1, 1, 1), 1)
  }

  function Plea(voter: Id): Message {
    Message(RequestVote, "a", voter, 1, false)
  }

  function Grant(voter: Id): Message {
    Message(Vote, voter, "a", 1, true)
  }

  const FIVE := World(
    map["a" := Newcomer("a", ["b", "c", "d", "e"]), "b" := Newcomer("b", ["a", "c", "d", "e"]),
        "c" := Newcomer("c", ["a", "b", "d", "e"]), "d" := Newcomer("d", ["a", "b", "c", "e"]),
        "e" := Newcomer("e", ["a", "b", "c", "d"])],
    {})

  /** "a" campaigns, "b" and "c" vote for it, the vote of "c" arrives, then, late, that of "b". */
  const LATE: seq<Action> := [
    Ticks("a", 1), Receives(Plea("b"), 1), Receives(Plea("c"), 1), Receives(Grant("c"), 1), Receives(Grant("b"), 1)]

  ghost predicate Campaigning(w: World, votes: set<Id>) {
    && "a" in w.nodes && w.nodes["a"].role.Candidate? && w.nodes["a"].term == 1 && w.nodes["a"].id == "a"
    && |w.nodes["a"].peers| == 4 && w.nodes["a"].votes == votes && w.nodes["a"].cfg == Config(1, 1, 1)
  }

  lemma {:induction false} PeersOfFive(s: NodeState, a: Id, b: Id, c: Id, d: Id)
    requires |{s.id, a, b, c, d}| == 5 && s.peers == [a, b, c, d]
    ensures PeersAre(s, {s.id, a, b, c, d})
  {
    assert {s.id, a, b, c, d} == {s.id} + {a, b, c, d};
  }

  lemma {:induction false} FiveStart()
    ensures Initial(FIVE) && |FIVE.nodes| == 5
  {
    hide PeersAre;
    var members := {"a", "b", "c", "d", "e"};
    assert FIVE.nodes.Keys == members;
    assert "a"[0] != "b"[0] && "a"[0] != "c"[0] && "a"[0] != "d"[0] && "a"[0] != "e"[0];
    assert "b"[0] != "c"[0] && "b"[0] != "d"[0] && "b"[0] != "e"[0];
    assert "c"[0] != "d"[0] && "c"[0] != "e"[0] && "d"[0] != "e"[0];
    assert |members| == 5;
    PeersOfFive(FIVE.nodes["a"], "b", "c", "d", "e");
    PeersOfFive(FIVE.nodes["b"], "a", "c", "d", "e");
    PeersOfFive(FIVE.nodes["c"], "a", "b", "d", "e");
    PeersOfFive(FIVE.nodes["d"], "a", "b", "c", "e");
    PeersOfFive(FIVE.nodes["e"], "a", "b", "c", "d");
    assert members == {"b", "a", "c", "d", "e"} == {"c", "a", "b", "d", "e"} == {"d", "a", "b", "c", "e"} == {"e", "a", "b", "c", "d"};
  }

  lemma {:induction false} Campaigns()
    ensures var w := Apply(FIVE, LATE[0]);
            && Campaigning(w, {"a"}) && Plea("b") in w.sent && Plea("c") in w.sent
            && "b" in w.nodes && w.nodes["b"] == FIVE.nodes["b"] && "c" in w.nodes && w.nodes["c"] == FIVE.nodes["c"]
  {
    var r := TickNode(FIVE.nodes["a"], 1);
    assert r.out[0] == Plea("b") && r.out[1] == Plea("c");
  }

  lemma {:induction false} Votes(w: World, voter: Id, peers: seq<Id>)
    requires voter != "a" && voter in w.nodes && w.nodes[voter] == Newcomer(voter, peers) && Plea(voter) in w.sent
    ensures var w' := Apply(w, Receives(Plea(voter), 1));
            && Grant(voter) in w'.sent && w.sent <= w'.sent
            && forall i <- w.nodes :: i in w'.nodes && (i != voter ==> w'.nodes[i] == w.nodes[i])
  {
  }

  lemma {:induction false} Counts(w: World, voter: Id, votes: set<Id>)
    requires Campaigning(w, votes) && Grant(voter) in w.sent && |votes| <= 2 && voter !in votes
    ensures var w' := Apply(w, Receives(Grant(voter), 1));
            && w.sent <= w'.sent
            && (|votes| < 2 ==> Campaigning(w', votes + {voter}))
            && (|votes| == 2 ==> "a" in w'.nodes && w'.nodes["a"].role.Leader?)
  {
    assert |votes + {voter}| == |votes| + 1;
  }

  function LateWorld(k: nat): World
    requires k <= 5
  {
    if k == 0 then FIVE else Apply(LateWorld(k - 1), LATE[k - 1])
  }

  lemma {:induction false} LateUnrolls(k: nat)
    requires k <= 5
    ensures After(FIVE, LATE[..k]) == LateWorld(k)
  {
    hide Apply;
    if k > 0 {
      LateUnrolls(k - 1);
      assert LATE[..k][..k - 1] == LATE[..k - 1];
    }
  }

  lemma {:induction false} LateRun()
    ensures Campaigning(LateWorld(4), {"a"} + {"c"})
    ensures "a" in LateWorld(5).nodes && LateWorld(5).nodes["a"].role.Leader?
  {
    hide Apply;
    Campaigns();
    var w1 := LateWorld(1);
    assert w1 == Apply(LateWorld(0), LATE[0]);
    Votes(w1, "b", ["a", "c", "d", "e"]);
    var w2 := LateWorld(2);
    assert w2 == Apply(w1, LATE[1]);
    Votes(w2, "c", ["a", "b", "d", "e"]);
    var w3 := LateWorld(3);
    assert w3 == Apply(w2, LATE[2]);
    Counts(w3, "c", {"a"});
    assert LateWorld(4) == Apply(w3, LATE[3]);
    Counts(LateWorld(4), "b", {"a"} + {"c"});
    assert LateWorld(5) == Apply(LateWorld(4), LATE[4]);
  }

  /** Over an arbitrary network the restriction to later candidacies is needed: here a group of two
      out of five hears only itself from action 4 on, and one of them wins afterwards. */
  lemma {:induction false} OlderCandidacyCanFinish()
    ensures Initial(FIVE) && HearsItself(LATE, 4, {"a", "b"}) && 2 * |{"a", "b"}| <= |FIVE.nodes|
    ensures var before, after := After(FIVE, LATE[..4]), After(FIVE, LATE);
            && "a" in before.nodes && !before.nodes["a"].role.Leader?
            && "a" in after.nodes && after.nodes["a"].role.Leader?
  {
    hide Apply, After, LateWorld, Initial;
    FiveStart();
    LateRun();
    LateUnrolls(4);
    LateUnrolls(5);
    assert LATE[..5] == LATE;
  }
}
