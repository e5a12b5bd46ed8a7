/** A leader that can exchange messages with a node of a later term stops leading: its own heartbeat brings
    back the later term. */
module RaftStepDown {
  import opened RaftNode
  import opened RaftProtocol
  import opened RaftAccounting
  import opened RaftCluster
  import opened RaftStability
  import opened RaftConvergence
  import opened RaftResponse
  import opened RaftMinority

  // ------------------------------------------------------------------
  // First phase

  /** Terms only grow, and to at least the term of every message that gets through. */
  lemma {:induction false} DeliverRaisesTerms(nodes: map<Id, NodeState>, pending: seq<Message>, blocked: set<Link>, timeouts: seq<int>, i: Id, x: Message)
    requires |timeouts| == |pending| && (forall m <- pending :: m.to in nodes) && i in nodes
    requires forall j <- nodes :: nodes[j].id == j
    ensures var p := Deliver(nodes, pending, blocked, timeouts);
            && (forall j <- nodes :: p.nodes[j].id == j)
            && nodes[i].term <= p.nodes[i].term
            && (x in pending && x.to == i && (x.from, i) !in blocked ==> x.term <= p.nodes[i].term)
  {
    hide StepOne;
    if pending != [] {
      var n := |pending| - 1;
      assert x in pending <==> x in pending[..n] || x == pending[n];
      DeliverRaisesTerms(nodes, pending[..n], blocked, timeouts[..n], i, x);
      StepRaisesTerms(Deliver(nodes, pending[..n], blocked, timeouts[..n]), pending[n], timeouts[n], i);
    }
  }

  lemma {:induction false} StepRaisesTerms(p: Phase, m: Message, timeout: int, i: Id)
    requires m.to in p.nodes && i in p.nodes && forall j <- p.nodes :: p.nodes[j].id == j
    ensures var q := StepOne(p, m, timeout).nodes;
            && (forall j <- p.nodes :: q[j].id == j)
            && p.nodes[i].term <= q[i].term && (m.to == i ==> m.term <= q[i].term)
  {
    hide StepNode;
    StepByField(p.nodes[m.to], m, timeout);
  }

  /** A heartbeat that gets through to a node of a later term is answered with a later term. */
  lemma {:induction false} DeliverAnswers(nodes: map<Id, NodeState>, pending: seq<Message>, blocked: set<Link>, timeouts: seq<int>, h: Message)
    requires |timeouts| == |pending| && (forall m <- pending :: m.to in nodes) && forall j <- nodes :: nodes[j].id == j
    requires h in pending && h.kind.Heartbeat? && (h.from, h.to) !in blocked && h.term < nodes[h.to].term
    ensures exists x <- Deliver(nodes, pending, blocked, timeouts).out :: x.from == h.to && x.to == h.from && x.term > h.term
  {
    hide StepNode;
    var n := |pending| - 1;
    assert pending == pending[..n] + [pending[n]];
    var p, m := Deliver(nodes, pending[..n], blocked, timeouts[..n]), pending[n];
    DeliverRaisesTerms(nodes, pending[..n], blocked, timeouts[..n], h.to, h);
    if h in pending[..n] {
      DeliverAnswers(nodes, pending[..n], blocked, timeouts[..n], h);
      var x :| x in p.out && x.from == h.to && x.to == h.from && x.term > h.term;
      assert x in Deliver(nodes, pending, blocked, timeouts).out;
    } else {
      var s := p.nodes[h.to];
      StepAnswers(s, h, timeouts[n]);
      var x := Message(HeartbeatAck, s.id, h.from, s.term, false);
      assert x in StepNode(s, h, timeouts[n]).out;
      assert x in Deliver(nodes, pending, blocked, timeouts).out;
    }
  }

  /** A leader is untouched by the first phase unless its term grows. */
  lemma {:induction false} LeaderOrLater(nodes: map<Id, NodeState>, pending: seq<Message>, blocked: set<Link>, timeouts: seq<int>, l: Id, cfg: Config)
    requires |timeouts| == |pending| && forall t <- timeouts :: cfg.Draws(t)
    requires forall m <- pending :: m.to in nodes && m.from != m.to
    requires NodesOk(nodes, cfg) && l in nodes && nodes[l].role.Leader?
    ensures var p := Deliver(nodes, pending, blocked, timeouts);
            NodesOk(p.nodes, cfg) && (p.nodes[l] == nodes[l] || p.nodes[l].term > nodes[l].term)
  {
    hide StepOne, NodesOk;
    if pending != [] {
      var n := |pending| - 1;
      LeaderOrLater(nodes, pending[..n], blocked, timeouts[..n], l, cfg);
      var p, m := Deliver(nodes, pending[..n], blocked, timeouts[..n]), pending[n];
      StepLeaderOrLater(p, m, timeouts[n], nodes[l], l, cfg);
    }
  }

  lemma {:induction false} StepLeaderOrLater(p: Phase, m: Message, timeout: int, was: NodeState, l: Id, cfg: Config)
    requires NodesOk(p.nodes, cfg) && l in p.nodes && m.to in p.nodes && m.from != m.to && cfg.Draws(timeout)
    requires was.role.Leader? && (p.nodes[l] == was || p.nodes[l].term > was.term)
    ensures var q := StepOne(p, m, timeout).nodes; NodesOk(q, cfg) && (q[l] == was || q[l].term > was.term)
  {
    hide StepNode;
    var s := p.nodes[m.to];
    StepKeepsSane(s, m, timeout);
    StepByField(s, m, timeout);
    if m.to == l && s == was && m.term <= s.term {
      LeaderIgnores(s, m, timeout);
    }
  }

  // ------------------------------------------------------------------
  // One tick

  /** `l` has moved past `term`, or still leads it with `age` ticks since its last heartbeats. */
  predicate LeadsOrLater(s: NodeState, term: nat, age: nat) {
    s.term > term || (s.role.Leader? && s.term == term && s.elapsed == age)
  }

  lemma {:induction false} TickLeadsOrLater(c: ClusterState, r: Round, l: Id, term: nat, age: nat)
    requires Legal(c, r) && WiredCluster(c) && l in c.nodes && LeadsOrLater(c.nodes[l], term, age) && age < c.cfg.heartbeatTicks
    ensures var c' := ClusterTick(c, r);
            && l in c'.nodes
            && LeadsOrLater(c'.nodes[l], term, if age + 1 == c.cfg.heartbeatTicks then 0 else age + 1)
            && (age + 1 == c.cfg.heartbeatTicks && c'.nodes[l].term == term ==>
                  forall f <- c.nodes :: f != l ==> Beat(l, f, term) in c'.inbox)
  {
    hide Deliver, ClusterTick, TickNode, Sane;
    var s := c.nodes[l];
    assert forall m <- c.inbox :: m in SetOf(c.inbox);
    DeliverRaisesTerms(c.nodes, c.inbox, r.blocked, r.timeouts[..|c.inbox|], l, Beat(l, l, 0));
    var timeout := MemberTicks(c, r, l);
    TickKeepsFrame(c, r);
    var d := Delivery(c, r).nodes[l];
    TickByField(d, timeout);
    if s.role.Leader? && s.term == term {
      LeaderOrLater(c.nodes, c.inbox, r.blocked, r.timeouts[..|c.inbox|], l, c.cfg);
      if d == s && age + 1 == c.cfg.heartbeatTicks {
        assert PeersAre(s, c.nodes.Keys);
        forall f | f in c.nodes && f != l
          ensures Beat(l, f, term) in ClusterTick(c, r).inbox
        {
          LeaderBeats(s, timeout, f);
        }
      }
    }
  }

  /** Terms never shrink over a tick. */
  lemma {:induction false} TickRaisesTerm(c: ClusterState, r: Round, i: Id, x: Message)
    requires Legal(c, r) && WiredCluster(c) && i in c.nodes
    ensures var c' := ClusterTick(c, r);
            && i in c'.nodes && c.nodes[i].term <= c'.nodes[i].term
            && (x in c.inbox && x.to == i && (x.from, i) !in r.blocked ==> x.term <= c'.nodes[i].term)
  {
    hide Deliver, ClusterTick, TickNode, Sane;
    DeliverRaisesTerms(c.nodes, c.inbox, r.blocked, r.timeouts[..|c.inbox|], i, x);
    var timeout := MemberTicks(c, r, i);
    TickKeepsFrame(c, r);
    TickByField(Delivery(c, r).nodes[i], timeout);
  }

  /** The heartbeat reaches the later node, which answers. */
  lemma {:induction false} TickAnswers(c: ClusterState, r: Round, l: Id, n: Id, term: nat)
    requires Legal(c, r) && WiredCluster(c) && n in c.nodes && c.nodes[n].term > term
    requires Beat(l, n, term) in c.inbox && (l, n) !in r.blocked
    ensures exists x <- ClusterTick(c, r).inbox :: x.from == n && x.to == l && x.term > term
  {
    hide Deliver;
    DeliverAnswers(c.nodes, c.inbox, r.blocked, r.timeouts[..|c.inbox|], Beat(l, n, term));
    var x :| x in Delivery(c, r).out && x.from == n && x.to == l && x.term > term;
    assert x in ClusterTick(c, r).inbox;
  }

  // ------------------------------------------------------------------
  // Whole runs

  lemma {:induction false} TermsGrow(cs: seq<ClusterState>, rs: seq<Round>, j: nat, k: nat, i: Id)
    requires IsRun(cs, rs) && StartedCluster(cs[0]) && j <= k <= |rs| && i in cs[j].nodes
    ensures i in cs[k].nodes && cs[j].nodes[i].term <= cs[k].nodes[i].term
  {
    hide ClusterTick, StartedCluster, WiredCluster;
    if j < k {
      TermsGrow(cs, rs, j, k - 1, i);
      RunIsWired(cs, rs, k - 1);
      TickRaisesTerm(cs[k - 1], rs[k - 1], i, Beat(i, i, 0));
    }
  }

  lemma {:induction false} CountsToBeat(cs: seq<ClusterState>, rs: seq<Round>, start: nat, n: nat, l: Id, term: nat)
    requires IsRun(cs, rs) && StartedCluster(cs[0]) && start + n <= |rs|
    requires l in cs[start].nodes && cs[start].nodes[l].role.Leader? && cs[start].nodes[l].term == term
    requires cs[start].nodes[l].elapsed + n < cs[0].cfg.heartbeatTicks
    ensures l in cs[start + n].nodes && LeadsOrLater(cs[start + n].nodes[l], term, cs[start].nodes[l].elapsed + n)
  {
    hide ClusterTick, StartedCluster, WiredCluster;
    if n > 0 {
      CountsToBeat(cs, rs, start, n - 1, l, term);
      RunIsWired(cs, rs, start + n - 1);
      TickLeadsOrLater(cs[start + n - 1], rs[start + n - 1], l, term, cs[start].nodes[l].elapsed + n - 1);
    }
  }

  /** From any reachable state: a leader of `term` with a node of a later term about is no longer in that
      term two ticks after its next heartbeats, at most a heartbeat interval and two ticks from now, if
      its link to that node is open for the heartbeat and the link back for the answer; no other link
      matters, least of all one from whoever leads the later term. */
  lemma {:induction false} OldLeaderStepsDown(cs: seq<ClusterState>, rs: seq<Round>, start: nat, k: nat, l: Id, n: Id, term: nat)
    requires IsRun(cs, rs) && StartedCluster(cs[0]) && start <= |rs|
    requires l in cs[start].nodes && cs[start].nodes[l].role.Leader? && cs[start].nodes[l].term == term
    requires n in cs[start].nodes && cs[start].nodes[n].term > term
    requires var sent := start + NextBeat(cs[start], l);
             start <= sent && sent + 2 <= k <= |rs| && (l, n) !in rs[sent].blocked && (n, l) !in rs[sent + 1].blocked
    ensures 1 <= NextBeat(cs[start], l) <= cs[0].cfg.heartbeatTicks
    ensures l in cs[k].nodes && cs[k].nodes[l].term > term
  {
    hide ClusterTick, StartedCluster, WiredCluster, Sane;
    BeatIsSent(cs, rs, start, l, n, term);
    var sent := start + NextBeat(cs[start], l);
    TermsGrow(cs, rs, start, sent, n);
    if cs[sent].nodes[l].term == term {
      AnswerDeposes(cs, rs, sent, l, n, term);
      TermsGrow(cs, rs, sent + 2, k, l);
    } else {
      TermsGrow(cs, rs, sent, k, l);
    }
  }

  lemma {:induction false} BeatIsSent(cs: seq<ClusterState>, rs: seq<Round>, start: nat, l: Id, n: Id, term: nat)
    requires IsRun(cs, rs) && StartedCluster(cs[0]) && start <= |rs|
    requires l in cs[start].nodes && cs[start].nodes[l].role.Leader? && cs[start].nodes[l].term == term
    requires n in cs[start].nodes && n != l && start <= start + NextBeat(cs[start], l) <= |rs|
    ensures 1 <= NextBeat(cs[start], l) <= cs[0].cfg.heartbeatTicks
    ensures var c := cs[start + NextBeat(cs[start], l)];
            l in c.nodes && c.nodes[l].term >= term && (c.nodes[l].term == term ==> Beat(l, n, term) in c.inbox)
  {
    hide ClusterTick, StartedCluster, WiredCluster;
    RunNodesOk(cs, rs, start);
    assert Sane(cs[start].nodes[l]);
    hide Sane;
    var last := start + NextBeat(cs[start], l) - 1;
    CountsToBeat(cs, rs, start, NextBeat(cs[start], l) - 1, l, term);
    RunIsWired(cs, rs, start);
    RunIsWired(cs, rs, last);
    TickLeadsOrLater(cs[last], rs[last], l, term, cs[0].cfg.heartbeatTicks - 1);
  }

  lemma {:induction false} AnswerDeposes(cs: seq<ClusterState>, rs: seq<Round>, sent: nat, l: Id, n: Id, term: nat)
    requires IsRun(cs, rs) && StartedCluster(cs[0]) && sent + 2 <= |rs|
    requires l in cs[sent].nodes && n in cs[sent].nodes && cs[sent].nodes[n].term > term && Beat(l, n, term) in cs[sent].inbox
    requires (l, n) !in rs[sent].blocked && (n, l) !in rs[sent + 1].blocked
    ensures l in cs[sent + 2].nodes && cs[sent + 2].nodes[l].term > term
  {
    hide ClusterTick, StartedCluster, WiredCluster, Sane;
    RunIsWired(cs, rs, sent);
    RunIsWired(cs, rs, sent + 1);
    TickAnswers(cs[sent], rs[sent], l, n, term);
    var x :| x in cs[sent + 1].inbox && x.from == n && x.to == l && x.term > term;
    TickRaisesTerm(cs[sent + 1], rs[sent + 1], l, x);
  }
}
