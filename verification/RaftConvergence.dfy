/** How a reign comes about: a leader of the highest term whose heartbeats get through is followed by
    everybody one heartbeat interval and a tick later. */
module RaftConvergence {
  import opened RaftNode
  import opened RaftProtocol
  import opened RaftAccounting
  import opened RaftCluster
  import opened RaftStability
  import opened RaftMinority

  /** `l` leads `term`, the highest there is.  Others may follow anyone, campaign, or lead older terms. */
  ghost predicate Ahead(nodes: map<Id, NodeState>, l: Id, term: nat) {
    && l in nodes && nodes[l].role.Leader? && nodes[l].term == term
    && forall f <- nodes :: nodes[f].term <= term
  }

  /** Nobody's election timer is ahead of the leader's heartbeat timer. */
  ghost predicate Patient(nodes: map<Id, NodeState>, l: Id)
    requires l in nodes
  {
    forall f <- nodes :: !nodes[f].role.Leader? ==> nodes[f].elapsed <= nodes[l].elapsed
  }

  /** The leader has just sent its heartbeats. */
  ghost predicate Called(c: ClusterState, l: Id, term: nat)
    requires l in c.nodes
  {
    && c.nodes[l].elapsed == 0
    && (forall f <- c.nodes :: f != l ==> Beat(l, f, term) in c.inbox)
    && (forall f <- c.nodes :: !c.nodes[f].role.Leader? ==> c.nodes[f].elapsed <= c.cfg.heartbeatTicks)
  }

  /** `f` has heard the leader, or leads the same term itself, which election safety rules out. */
  predicate Heard(f: NodeState, term: nat) {
    f.term == term && (f.role.Leader? || (f.role.Follower? && f.elapsed == 0))
  }

  // ------------------------------------------------------------------
  // First phase

  lemma {:induction false} MildStep(s: NodeState, m: Message, timeout: int, term: nat)
    requires Sane(s) && m.to == s.id && m.from != s.id && s.term <= term && m.term <= term && s.cfg.Draws(timeout)
    ensures var s' := StepNode(s, m, timeout).state;
            && s'.term <= term && s'.id == s.id && s'.cfg == s.cfg
            && (!s'.role.Leader? ==> s'.elapsed == 0 || (!s.role.Leader? && s'.elapsed == s.elapsed))
            && (Heard(s, term) || (m.kind.Heartbeat? && m.term == term) ==> Heard(s', term))
            && (s.role.Leader? && s.term == term ==> s' == s)
  {
  }

  ghost predicate Mild(before: map<Id, NodeState>, p: Phase, seen: seq<Message>, blocked: set<Link>, l: Id, term: nat, cfg: Config) {
    && p.nodes.Keys == before.Keys && NodesOk(p.nodes, cfg) && Ahead(p.nodes, l, term)
    && l in before && p.nodes[l] == before[l]
    && (forall f <- before :: !p.nodes[f].role.Leader? ==>
          p.nodes[f].elapsed == 0 || (!before[f].role.Leader? && p.nodes[f].elapsed == before[f].elapsed))
    && (forall f <- before :: f != l && (l, f) !in blocked && Beat(l, f, term) in seen ==> Heard(p.nodes[f], term))
  }

  lemma {:induction false} ReactionKeepsMild(before: map<Id, NodeState>, p: Phase, seen: seq<Message>, blocked: set<Link>, m: Message, r: Reaction, l: Id, term: nat, cfg: Config)
    requires Mild(before, p, seen, blocked, l, term, cfg) && m.to in p.nodes
    requires var s, s' := p.nodes[m.to], r.state;
             && Sane(s') && s'.term <= term && s'.id == s.id && s'.cfg == s.cfg
             && (!s'.role.Leader? ==> s'.elapsed == 0 || (!s.role.Leader? && s'.elapsed == s.elapsed))
             && (Heard(s, term) || (m.kind.Heartbeat? && m.term == term) ==> Heard(s', term))
             && (s.role.Leader? && s.term == term ==> s' == s)
    ensures Mild(before, Phase(p.nodes[m.to := r.state], p.out + r.out), seen + [m], blocked, l, term, cfg)
  {
    hide Sane, Heard;
    var q := p.nodes[m.to := r.state];
    forall f | f in before && f != l && (l, f) !in blocked && Beat(l, f, term) in seen + [m]
      ensures Heard(q[f], term)
    {
      assert Beat(l, f, term) in seen || Beat(l, f, term) == m;
    }
  }

  lemma {:induction false} StepKeepsMild(before: map<Id, NodeState>, p: Phase, seen: seq<Message>, blocked: set<Link>, m: Message, timeout: int, l: Id, term: nat, cfg: Config)
    requires Mild(before, p, seen, blocked, l, term, cfg) && cfg.Draws(timeout)
    requires m.to in p.nodes && m.from != m.to && m.term <= term
    ensures Mild(before, StepOne(p, m, timeout), seen + [m], blocked, l, term, cfg)
  {
    hide Heard, StepNode;
    var s := p.nodes[m.to];
    var r := StepNode(s, m, timeout);
    MildStep(s, m, timeout, term);
    StepKeepsSane(s, m, timeout);
    ReactionKeepsMild(before, p, seen, blocked, m, r, l, term, cfg);
  }

  lemma {:induction false} BlockedKeepsMild(before: map<Id, NodeState>, p: Phase, seen: seq<Message>, blocked: set<Link>, m: Message, l: Id, term: nat, cfg: Config)
    requires Mild(before, p, seen, blocked, l, term, cfg) && (m.from, m.to) in blocked
    ensures Mild(before, p, seen + [m], blocked, l, term, cfg)
  {
    hide Heard, Sane;
    forall f | f in before && f != l && (l, f) !in blocked && Beat(l, f, term) in seen + [m]
      ensures Beat(l, f, term) in seen
    {
    }
  }

  lemma MildStart(nodes: map<Id, NodeState>, blocked: set<Link>, l: Id, term: nat, cfg: Config)
    requires NodesOk(nodes, cfg) && Ahead(nodes, l, term)
    ensures Mild(nodes, Phase(nodes, []), [], blocked, l, term, cfg)
  {
  }

  lemma {:induction false} DeliverIsMild(nodes: map<Id, NodeState>, pending: seq<Message>, blocked: set<Link>, timeouts: seq<int>, l: Id, term: nat, cfg: Config)
    requires |timeouts| == |pending| && forall t <- timeouts :: cfg.Draws(t)
    requires forall m <- pending :: m.to in nodes && m.from != m.to && m.term <= term
    requires NodesOk(nodes, cfg) && Ahead(nodes, l, term)
    ensures Mild(nodes, Deliver(nodes, pending, blocked, timeouts), pending, blocked, l, term, cfg)
  {
    hide Mild, StepOne, NodesOk, Ahead;
    if pending == [] {
      MildStart(nodes, blocked, l, term, cfg);
    } else {
      var n := |pending| - 1;
      DeliverIsMild(nodes, pending[..n], blocked, timeouts[..n], l, term, cfg);
      var p, m := Deliver(nodes, pending[..n], blocked, timeouts[..n]), pending[n];
      assert pending == pending[..n] + [m] && m in pending;
      if (m.from, m.to) in blocked {
        BlockedKeepsMild(nodes, p, pending[..n], blocked, m, l, term, cfg);
      } else {
        StepKeepsMild(nodes, p, pending[..n], blocked, m, timeouts[n], l, term, cfg);
      }
    }
  }

  lemma {:induction false} FirstPhaseIsMild(c: ClusterState, r: Round, l: Id, term: nat)
    requires Legal(c, r) && WiredCluster(c) && Ahead(c.nodes, l, term)
    ensures Mild(c.nodes, Delivery(c, r), c.inbox, r.blocked, l, term, c.cfg)
  {
    forall m | m in c.inbox
      ensures m.from != m.to && m.term <= term
    {
      assert m in SetOf(c.inbox);
    }
    DeliverIsMild(c.nodes, c.inbox, r.blocked, r.timeouts[..|c.inbox|], l, term, c.cfg);
  }

  // ------------------------------------------------------------------
  // Second phase

  /** A node whose timer does not fire only counts on. */
  lemma {:induction false} CalmTick(s: NodeState, timeout: int)
    requires Sane(s) && (!s.role.Leader? ==> s.elapsed + 1 < s.cfg.electionTimeoutMin)
    ensures var s' := TickNode(s, timeout).state;
            && s'.term == s.term && s'.role == s.role
            && (!s.role.Leader? ==> s'.elapsed == s.elapsed + 1)
  {
  }

  lemma {:induction false} MemberTicks(c: ClusterState, r: Round, i: Id) returns (timeout: int)
    requires Legal(c, r) && Enumerates(c.order, c.nodes.Keys) && i in c.nodes
    ensures c.cfg.Draws(timeout)
    ensures var x := TickNode(Delivery(c, r).nodes[i], timeout);
            ClusterTick(c, r).nodes[i] == x.state && forall m <- x.out :: m in ClusterTick(c, r).inbox
  {
    hide Deliver, TickNode;
    var k :| 0 <= k < |c.order| && c.order[k] == i;
    var second := r.timeouts[|c.inbox|..];
    timeout := second[k];
    TickEachMember(Delivery(c, r).nodes, c.order, second, k);
  }

  /** What a tick does to a node whose timer does not fire. */
  lemma {:induction false} MemberCountsOn(c: ClusterState, r: Round, l: Id, term: nat, i: Id)
    requires Legal(c, r) && WiredCluster(c) && Ahead(c.nodes, l, term) && i in c.nodes
    ensures var s, s' := Delivery(c, r).nodes[i], ClusterTick(c, r).nodes[i];
            s.role.Leader? || s.elapsed + 1 < c.cfg.electionTimeoutMin ==>
              && s'.term == s.term <= term && s'.role == s.role
              && (!s.role.Leader? ==> s'.elapsed == s.elapsed + 1)
  {
    hide Deliver, TickNode, ClusterTick;
    FirstPhaseIsMild(c, r, l, term);
    var timeout := MemberTicks(c, r, i);
    var s := Delivery(c, r).nodes[i];
    if s.role.Leader? || s.elapsed + 1 < c.cfg.electionTimeoutMin {
      CalmTick(s, timeout);
    }
  }

  /** The leader's own tick: it counts on or sends its heartbeats. */
  lemma {:induction false} LeaderCountsOn(c: ClusterState, r: Round, l: Id, term: nat)
    requires Legal(c, r) && WiredCluster(c) && Ahead(c.nodes, l, term)
    ensures var s, s' := c.nodes[l], ClusterTick(c, r).nodes[l];
            && s.elapsed < c.cfg.heartbeatTicks
            && (s.elapsed + 1 < c.cfg.heartbeatTicks ==> s'.elapsed == s.elapsed + 1)
            && (s.elapsed + 1 == c.cfg.heartbeatTicks ==>
                  s'.elapsed == 0 && forall f <- c.nodes :: f != l ==> Beat(l, f, term) in ClusterTick(c, r).inbox)
  {
    hide Deliver, ClusterTick;
    FirstPhaseIsMild(c, r, l, term);
    var timeout := MemberTicks(c, r, l);
    var s := c.nodes[l];
    assert PeersAre(s, c.nodes.Keys);
    forall f | f in c.nodes && f != l && s.elapsed + 1 == c.cfg.heartbeatTicks
      ensures Beat(l, f, term) in ClusterTick(c, r).inbox
    {
      assert f in s.peers;
      LeaderBeats(s, timeout, f);
    }
  }

  lemma {:induction false} LeaderBeats(s: NodeState, timeout: int, f: Id)
    requires s.role.Leader? && f in s.peers && s.elapsed + 1 == s.cfg.heartbeatTicks
    ensures Beat(s.id, f, s.term) in TickNode(s, timeout).out
  {
    var k :| 0 <= k < |s.peers| && s.peers[k] == f;
    assert Broadcast(s.(elapsed := 0), Heartbeat)[k] == Beat(s.id, f, s.term);
  }

  /** While the leader counts, nobody campaigns; when it sends, everybody is still waiting. */
  lemma {:induction false} TickKeepsAhead(c: ClusterState, r: Round, l: Id, term: nat)
    requires Legal(c, r) && WiredCluster(c) && Ahead(c.nodes, l, term) && Patient(c.nodes, l)
    requires c.cfg.heartbeatTicks < c.cfg.electionTimeoutMin
    ensures var c' := ClusterTick(c, r);
            && Ahead(c'.nodes, l, term)
            && (c.nodes[l].elapsed + 1 < c.cfg.heartbeatTicks ==>
                  Patient(c'.nodes, l) && c'.nodes[l].elapsed == c.nodes[l].elapsed + 1)
            && (c.nodes[l].elapsed + 1 == c.cfg.heartbeatTicks ==> Called(c', l, term))
  {
    hide Deliver, ClusterTick, TickNode, Sane;
    FirstPhaseIsMild(c, r, l, term);
    LeaderCountsOn(c, r, l, term);
    var d, c' := Delivery(c, r), ClusterTick(c, r);
    TickKeepsFrame(c, r);
    forall f | f in c.nodes
      ensures c'.nodes[f].term <= term && c'.nodes[f].role == d.nodes[f].role && c'.nodes[f].term == d.nodes[f].term
      ensures !c'.nodes[f].role.Leader? ==> c'.nodes[f].elapsed <= c.nodes[l].elapsed + 1
    {
      MemberCountsOn(c, r, l, term, f);
    }
  }

  lemma TickKeepsFrame(c: ClusterState, r: Round)
    requires Legal(c, r)
    ensures var c' := ClusterTick(c, r); c'.nodes.Keys == c.nodes.Keys && c'.cfg == c.cfg
  {
  }

  /** Once the heartbeats arrive, everybody follows, or leads the same term. */
  lemma {:induction false} HeartbeatsArrive(c: ClusterState, r: Round, l: Id, term: nat)
    requires Legal(c, r) && WiredCluster(c) && Ahead(c.nodes, l, term) && Called(c, l, term)
    requires forall f <- c.nodes :: f != l ==> (l, f) !in r.blocked
    requires c.cfg.heartbeatTicks < c.cfg.electionTimeoutMin
    ensures var c' := ClusterTick(c, r);
            && Ahead(c'.nodes, l, term)
            && (forall f <- c'.nodes :: f != l ==> c'.nodes[f].term == term && (c'.nodes[f].role.Leader? || c'.nodes[f].role.Follower?))
            && (forall f <- c'.nodes :: f != l && !c'.nodes[f].role.Leader? ==> Fed(c', l, f, term))
  {
    hide Deliver, ClusterTick, TickNode, Sane;
    FirstPhaseIsMild(c, r, l, term);
    LeaderCountsOn(c, r, l, term);
    var d, c' := Delivery(c, r), ClusterTick(c, r);
    TickKeepsFrame(c, r);
    MemberCountsOn(c, r, l, term, l);
    forall f | f in c.nodes && f != l
      ensures c'.nodes[f].term == term && (c'.nodes[f].role.Leader? || c'.nodes[f].role.Follower?)
      ensures !c'.nodes[f].role.Leader? ==> Fed(c', l, f, term)
      ensures c'.nodes[f].role.Leader? ==> d.nodes[f].role.Leader?
    {
      assert Heard(d.nodes[f], term);
      MemberCountsOn(c, r, l, term, f);
    }
  }

  // ------------------------------------------------------------------
  // Whole runs

  ghost predicate NoRival(nodes: map<Id, NodeState>, l: Id, term: nat) {
    forall f <- nodes :: f != l && nodes[f].term == term ==> !nodes[f].role.Leader?
  }

  lemma {:induction false} SafetyRulesOutRivals(cs: seq<ClusterState>, rs: seq<Round>, k: nat, l: Id, term: nat)
    requires IsRun(cs, rs) && StartedCluster(cs[0]) && k <= |rs| && Ahead(cs[k].nodes, l, term)
    ensures NoRival(cs[k].nodes, l, term)
  {
    forall f | f in cs[k].nodes && f != l && cs[k].nodes[f].term == term
      ensures !cs[k].nodes[f].role.Leader?
    {
      if cs[k].nodes[f].role.Leader? {
        ClusterElectionSafety(cs, rs, k, k, l, f);
      }
    }
  }

  /** `n` ticks before the leader sends: it is still ahead and everybody patient, whatever the links do. */
  lemma {:induction false} StaysAhead(cs: seq<ClusterState>, rs: seq<Round>, start: nat, n: nat, l: Id, term: nat)
    requires IsRun(cs, rs) && StartedCluster(cs[0]) && start + n <= |rs|
    requires Ahead(cs[start].nodes, l, term) && Patient(cs[start].nodes, l)
    requires cs[start].nodes[l].elapsed + n < cs[0].cfg.heartbeatTicks < cs[0].cfg.electionTimeoutMin
    ensures var c := cs[start + n];
            Ahead(c.nodes, l, term) && Patient(c.nodes, l) && c.nodes[l].elapsed == cs[start].nodes[l].elapsed + n
  {
    hide ClusterTick, StartedCluster, WiredCluster;
    if n > 0 {
      StaysAhead(cs, rs, start, n - 1, l, term);
      RunIsWired(cs, rs, start + n - 1);
      TickKeepsAhead(cs[start + n - 1], rs[start + n - 1], l, term);
    }
  }

  /** The moment the leader of the highest term sends its next heartbeats. */
  function NextBeat(c: ClusterState, l: Id): int
    requires l in c.nodes
  {
    c.cfg.heartbeatTicks - c.nodes[l].elapsed
  }

  lemma {:induction false} LeaderCalls(cs: seq<ClusterState>, rs: seq<Round>, start: nat, l: Id, term: nat)
    requires IsRun(cs, rs) && StartedCluster(cs[0]) && start <= |rs|
    requires Ahead(cs[start].nodes, l, term) && Patient(cs[start].nodes, l)
    requires start + NextBeat(cs[start], l) <= |rs| && cs[0].cfg.heartbeatTicks < cs[0].cfg.electionTimeoutMin
    ensures 1 <= NextBeat(cs[start], l) <= cs[0].cfg.heartbeatTicks
    ensures var c := cs[start + NextBeat(cs[start], l)]; Ahead(c.nodes, l, term) && Called(c, l, term)
  {
    hide ClusterTick, StartedCluster, Called;
    RunNodesOk(cs, rs, start);
    assert Sane(cs[start].nodes[l]);
    var n := NextBeat(cs[start], l) - 1;
    StaysAhead(cs, rs, start, n, l, term);
    RunIsWired(cs, rs, start + n);
    TickKeepsAhead(cs[start + n], rs[start + n], l, term);
  }

  /** A leader of the highest term, with nobody's timer ahead of its own, is followed by everybody in
      its term from one tick after its next heartbeats on, at most a heartbeat interval and one tick
      from now, if its links are open from then on and heartbeats are faster than the shortest timeout:
      rival candidates and leaders of older terms give in, and the reign is stable. */
  lemma {:induction false} Convergence(cs: seq<ClusterState>, rs: seq<Round>, start: nat, k: nat, l: Id, term: nat)
    requires IsRun(cs, rs) && StartedCluster(cs[0]) && start <= |rs|
    requires Ahead(cs[start].nodes, l, term) && Patient(cs[start].nodes, l)
    requires start + NextBeat(cs[start], l) < k <= |rs| && cs[0].cfg.heartbeatTicks < cs[0].cfg.electionTimeoutMin
    requires forall j: nat, f :: start + NextBeat(cs[start], l) <= j < k && f in cs[0].nodes && f != l ==> (l, f) !in rs[j].blocked
    ensures NextBeat(cs[start], l) <= cs[0].cfg.heartbeatTicks
    ensures Reigns(cs[k].nodes, l, term) && NoneAbove(cs[k].inbox, term) && AllFed(cs[k], l, term)
  {
    hide ClusterTick, StartedCluster;
    LeaderCalls(cs, rs, start, l, term);
    var sent := start + NextBeat(cs[start], l);
    RunIsWired(cs, rs, sent);
    HeartbeatsArrive(cs[sent], rs[sent], l, term);
    SafetyRulesOutRivals(cs, rs, sent + 1, l, term);
    RunIsWired(cs, rs, sent + 1);
    var c := cs[sent + 1];
    forall m | m in c.inbox
      ensures m.term <= term
    {
      assert m in SetOf(c.inbox);
    }
    StableLeadership(cs, rs, sent + 1, k, l, term);
  }
}
