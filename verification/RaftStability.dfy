/** A leader that can reach its followers stays: nobody else campaigns and no term grows. */
module RaftStability {
  import opened RaftNode
  import opened RaftProtocol
  import opened RaftAccounting
  import opened RaftCluster

  /** `l` leads `term` and everybody else follows in it. */
  ghost predicate Reigns(nodes: map<Id, NodeState>, l: Id, term: nat) {
    && l in nodes && nodes[l].role.Leader? && nodes[l].term == term
    && forall f <- nodes :: f != l ==> nodes[f].role.Follower? && nodes[f].term == term
  }

  predicate NoneAbove(msgs: seq<Message>, term: nat) {
    forall m <- msgs :: m.term <= term
  }

  function Beat(l: Id, f: Id, term: nat): Message {
    Message(Heartbeat, l, f, term, false)
  }

  /** A follower's timer lags behind the leader's, or a heartbeat is on its way. */
  ghost predicate Fed(c: ClusterState, l: Id, f: Id, term: nat)
    requires l in c.nodes && f in c.nodes
  {
    || c.nodes[f].elapsed <= c.nodes[l].elapsed
    || (c.nodes[f].elapsed <= c.cfg.heartbeatTicks && Beat(l, f, term) in c.inbox)
  }

  ghost predicate AllFed(c: ClusterState, l: Id, term: nat)
    requires l in c.nodes
  {
    forall f <- c.nodes :: f != l ==> Fed(c, l, f, term)
  }

  // ------------------------------------------------------------------
  // First phase: messages of the reigning term disturb nobody

  lemma {:induction false} LeaderIgnores(s: NodeState, m: Message, timeout: int)
    requires Sane(s) && s.role.Leader? && m.to == s.id && m.from != s.id && m.term <= s.term
    ensures var r := StepNode(s, m, timeout); r.state == s && forall x <- r.out :: x.term == s.term
  {
  }

  lemma {:induction false} FollowerStays(s: NodeState, m: Message, timeout: int)
    requires Sane(s) && s.role.Follower? && m.to == s.id && m.term <= s.term && s.cfg.Draws(timeout)
    ensures var r := StepNode(s, m, timeout);
            && r.state.role.Follower? && r.state.term == s.term
            && (r.state.elapsed == s.elapsed || r.state.elapsed == 0)
            && (m.kind.Heartbeat? && m.term == s.term ==> r.state.elapsed == 0)
            && forall x <- r.out :: x.term == s.term
  {
  }

  ghost predicate Calm(before: map<Id, NodeState>, p: Phase, seen: seq<Message>, l: Id, term: nat, cfg: Config) {
    && p.nodes.Keys == before.Keys
    && NodesOk(p.nodes, cfg) && Reigns(p.nodes, l, term) && NoneAbove(p.out, term)
    && l in before && p.nodes[l] == before[l]
    && (forall f <- before :: p.nodes[f].elapsed == before[f].elapsed || p.nodes[f].elapsed == 0)
    && (forall f <- before :: f != l && Beat(l, f, term) in seen ==> p.nodes[f].elapsed == 0)
  }

  lemma {:induction false} ReactionKeepsCalm(before: map<Id, NodeState>, p: Phase, seen: seq<Message>, m: Message, r: Reaction, l: Id, term: nat, cfg: Config)
    requires Calm(before, p, seen, l, term, cfg) && m.to in p.nodes
    requires Sane(r.state) && r.state.id == m.to && r.state.cfg == cfg && NoneAbove(r.out, term)
    requires m.to == l ==> r.state == p.nodes[l]
    requires m.to != l ==>
               && r.state.role.Follower? && r.state.term == term
               && (r.state.elapsed == p.nodes[m.to].elapsed || r.state.elapsed == 0)
               && (m.kind.Heartbeat? && m.term == term ==> r.state.elapsed == 0)
    ensures Calm(before, Phase(p.nodes[m.to := r.state], p.out + r.out), seen + [m], l, term, cfg)
  {
  }

  lemma {:induction false} StepKeepsCalm(before: map<Id, NodeState>, p: Phase, seen: seq<Message>, m: Message, timeout: int, l: Id, term: nat, cfg: Config)
    requires Calm(before, p, seen, l, term, cfg) && cfg.Draws(timeout)
    requires m.to in p.nodes && m.from != m.to && m.term <= term
    ensures Calm(before, StepOne(p, m, timeout), seen + [m], l, term, cfg)
  {
    var s := p.nodes[m.to];
    var r := StepNode(s, m, timeout);
    assert Sane(r.state) by {
      StepKeepsSane(s, m, timeout);
    }
    if m.to == l {
      LeaderIgnores(s, m, timeout);
    } else {
      FollowerStays(s, m, timeout);
    }
    ReactionKeepsCalm(before, p, seen, m, r, l, term, cfg);
  }

  lemma {:induction false} DeliverKeepsCalm(nodes: map<Id, NodeState>, pending: seq<Message>, blocked: set<Link>, timeouts: seq<int>, l: Id, term: nat, cfg: Config)
    requires |timeouts| == |pending| && forall t <- timeouts :: cfg.Draws(t)
    requires forall m <- pending :: m.to in nodes && m.from != m.to && m.term <= term
    requires NodesOk(nodes, cfg) && Reigns(nodes, l, term)
    requires forall f <- nodes :: f != l ==> (l, f) !in blocked
    ensures Calm(nodes, Deliver(nodes, pending, blocked, timeouts), pending, l, term, cfg)
  {
    if pending != [] {
      var n := |pending| - 1;
      DeliverKeepsCalm(nodes, pending[..n], blocked, timeouts[..n], l, term, cfg);
      var p := Deliver(nodes, pending[..n], blocked, timeouts[..n]);
      assert pending == pending[..n] + [pending[n]];
      if (pending[n].from, pending[n].to) !in blocked {
        StepKeepsCalm(nodes, p, pending[..n], pending[n], timeouts[n], l, term, cfg);
      } else {
        forall f | f in nodes && f != l && Beat(l, f, term) in pending
          ensures Beat(l, f, term) in pending[..n]
        {
        }
      }
    }
  }

  // ------------------------------------------------------------------
  // Second phase: no follower's timer fires

  lemma {:induction false} FollowerTicks(s: NodeState, timeout: int, limit: nat)
    requires Sane(s) && s.role.Follower? && s.elapsed < limit < s.cfg.electionTimeoutMin
    ensures TickNode(s, timeout) == Reaction(s.(elapsed := s.elapsed + 1), [])
  {
  }

  lemma {:induction false} LeaderTicks(s: NodeState, timeout: int, f: Id)
    requires Sane(s) && s.role.Leader? && f in s.peers
    ensures var r := TickNode(s, timeout);
            && r.state.role.Leader? && r.state.term == s.term
            && (forall m <- r.out :: m.term == s.term)
            && (r.state.elapsed == s.elapsed + 1 || (s.elapsed + 1 == s.cfg.heartbeatTicks && Beat(s.id, f, s.term) in r.out))
  {
    var k :| 0 <= k < |s.peers| && s.peers[k] == f;
    assert Broadcast(s.(elapsed := s.elapsed + 1), Heartbeat)[k] == Beat(s.id, f, s.term);
  }

  lemma {:induction false} MemberAfterTick(d: Phase, c: ClusterState, r: Round, l: Id, term: nat, k: nat)
    requires Legal(c, r) && k < |c.order|
    requires d == Delivery(c, r) && Calm(c.nodes, d, c.inbox, l, term, c.cfg) && AllFed(c, l, term)
    requires c.cfg.heartbeatTicks < c.cfg.electionTimeoutMin
    ensures var i, t := c.order[k], r.timeouts[|c.inbox| + k];
            var x := TickNode(d.nodes[i], t);
            && (i == l ==> x.state.role.Leader? && x.state.term == term)
            && (i != l ==> x.state == d.nodes[i].(elapsed := d.nodes[i].elapsed + 1) && d.nodes[i].elapsed <= c.nodes[l].elapsed)
            && (forall m <- x.out :: m.term <= term)
  {
    var i, t := c.order[k], r.timeouts[|c.inbox| + k];
    assert Sane(d.nodes[i]) && Sane(d.nodes[l]);
    if i != l {
      assert Fed(c, l, i, term);
      FollowerTicks(d.nodes[i], t, c.cfg.heartbeatTicks);
    }
  }

  lemma {:induction false} FollowerAfterTick(d: Phase, c: ClusterState, r: Round, l: Id, term: nat, f: Id)
    requires Legal(c, r) && Enumerates(c.order, c.nodes.Keys) && f in c.nodes && f != l
    requires l in c.nodes && f in c.nodes[l].peers
    requires d == Delivery(c, r) && Calm(c.nodes, d, c.inbox, l, term, c.cfg) && AllFed(c, l, term)
    requires c.cfg.heartbeatTicks < c.cfg.electionTimeoutMin
    ensures var c' := ClusterTick(c, r);
            && c'.nodes[f].role.Follower? && c'.nodes[f].term == term
            && c'.nodes[l].role.Leader? && c'.nodes[l].term == term
            && Fed(c', l, f, term)
  {
    var second, c' := r.timeouts[|c.inbox|..], ClusterTick(c, r);
    var kl :| 0 <= kl < |c.order| && c.order[kl] == l;
    var kf :| 0 <= kf < |c.order| && c.order[kf] == f;
    MemberAfterTick(d, c, r, l, term, kf);
    TickEachMember(d.nodes, c.order, second, kl);
    TickEachMember(d.nodes, c.order, second, kf);
    LeaderTicks(d.nodes[l], second[kl], f);
  }

  lemma {:induction false} LeaderAfterTick(d: Phase, c: ClusterState, r: Round, l: Id, term: nat)
    requires Legal(c, r) && Enumerates(c.order, c.nodes.Keys)
    requires d == Delivery(c, r) && Reigns(d.nodes, l, term)
    ensures var s := ClusterTick(c, r).nodes[l]; s.role.Leader? && s.term == term
  {
    var kl :| 0 <= kl < |c.order| && c.order[kl] == l;
    TickEachMember(d.nodes, c.order, r.timeouts[|c.inbox|..], kl);
  }

  lemma {:induction false} FirstPhaseIsCalm(c: ClusterState, r: Round, l: Id, term: nat)
    requires Legal(c, r) && WiredCluster(c) && Reigns(c.nodes, l, term) && NoneAbove(c.inbox, term)
    requires forall f <- c.nodes :: f != l ==> (l, f) !in r.blocked
    ensures Calm(c.nodes, Delivery(c, r), c.inbox, l, term, c.cfg)
  {
    assert forall m <- c.inbox :: m in SetOf(c.inbox);
    DeliverKeepsCalm(c.nodes, c.inbox, r.blocked, r.timeouts[..|c.inbox|], l, term, c.cfg);
  }

  lemma {:induction false} SecondPhaseSends(d: Phase, c: ClusterState, r: Round, l: Id, term: nat)
    requires Legal(c, r) && Enumerates(c.order, c.nodes.Keys) && l in c.nodes
    requires d == Delivery(c, r) && Calm(c.nodes, d, c.inbox, l, term, c.cfg) && AllFed(c, l, term)
    requires c.cfg.heartbeatTicks < c.cfg.electionTimeoutMin
    ensures NoneAbove(ClusterTick(c, r).inbox, term)
  {
    var second := r.timeouts[|c.inbox|..];
    forall m | m in TickEach(d.nodes, c.order, second).out
      ensures m.term <= term
    {
      var k := TickEachMessage(d.nodes, c.order, second, m);
      MemberAfterTick(d, c, r, l, term, k);
    }
  }

  lemma {:induction false} SecondPhaseKeepsReign(d: Phase, c: ClusterState, r: Round, l: Id, term: nat)
    requires Legal(c, r) && Enumerates(c.order, c.nodes.Keys) && l in c.nodes && PeersAre(c.nodes[l], c.nodes.Keys) && c.nodes[l].id == l
    requires d == Delivery(c, r) && Calm(c.nodes, d, c.inbox, l, term, c.cfg) && AllFed(c, l, term)
    requires c.cfg.heartbeatTicks < c.cfg.electionTimeoutMin
    ensures Reigns(ClusterTick(c, r).nodes, l, term) && AllFed(ClusterTick(c, r), l, term)
  {
    LeaderAfterTick(d, c, r, l, term);
    var c' := ClusterTick(c, r);
    forall f | f in c.nodes && f != l
      ensures c'.nodes[f].role.Follower? && c'.nodes[f].term == term && Fed(c', l, f, term)
    {
      FollowerAfterTick(d, c, r, l, term, f);
    }
  }

  /** One tick keeps the reign and keeps the followers fed. */
  lemma {:induction false} TickKeepsReign(c: ClusterState, r: Round, l: Id, term: nat)
    requires Legal(c, r) && WiredCluster(c)
    requires Reigns(c.nodes, l, term) && NoneAbove(c.inbox, term) && AllFed(c, l, term)
    requires forall f <- c.nodes :: f != l ==> (l, f) !in r.blocked
    requires c.cfg.heartbeatTicks < c.cfg.electionTimeoutMin
    ensures var c' := ClusterTick(c, r);
            Reigns(c'.nodes, l, term) && NoneAbove(c'.inbox, term) && AllFed(c', l, term)
  {
    FirstPhaseIsCalm(c, r, l, term);
    SecondPhaseSends(Delivery(c, r), c, r, l, term);
    SecondPhaseKeepsReign(Delivery(c, r), c, r, l, term);
  }

  /** If heartbeats are faster than the shortest election timeout, a leader whose links to its
      followers stay open is the only leader after every later tick, and every term stays put,
      whatever happens to the links in the other direction. */
  lemma {:induction false} StableLeadership(cs: seq<ClusterState>, rs: seq<Round>, start: nat, k: nat, l: Id, term: nat)
    requires IsRun(cs, rs) && StartedCluster(cs[0]) && start <= k <= |rs|
    requires Reigns(cs[start].nodes, l, term) && NoneAbove(cs[start].inbox, term) && AllFed(cs[start], l, term)
    requires forall j, f :: start <= j < k && f in cs[0].nodes && f != l ==> (l, f) !in rs[j].blocked
    requires cs[0].cfg.heartbeatTicks < cs[0].cfg.electionTimeoutMin
    ensures Reigns(cs[k].nodes, l, term) && NoneAbove(cs[k].inbox, term) && AllFed(cs[k], l, term)
  {
    hide ClusterTick;
    if start < k {
      StableLeadership(cs, rs, start, k - 1, l, term);
      RunIsWired(cs, rs, k - 1);
      TickKeepsReign(cs[k - 1], rs[k - 1], l, term);
    }
  }
}
