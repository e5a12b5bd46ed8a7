/** How much the simulated network can hold, and what a node does that hears nobody. */
module RaftTraffic {
  import opened RaftNode
  import opened RaftProtocol
  import opened RaftAccounting
  import opened RaftCluster
  import opened RaftSimulator
  import opened RaftMinority

  // ------------------------------------------------------------------
  // A bounded inbox

  predicate IsRequest(m: Message) {
    m.kind.RequestVote? || m.kind.Heartbeat?
  }

  function Requests(msgs: seq<Message>): nat {
    if msgs == [] then 0
    else Requests(msgs[..|msgs| - 1]) + if IsRequest(msgs[|msgs| - 1]) then 1 else 0
  }

  lemma {:induction false} RequestsOfConcat(a: seq<Message>, b: seq<Message>)
    ensures Requests(a + b) == Requests(a) + Requests(b)
  {
    if b == [] {
      assert a + b == a;
    } else {
      RequestsOfConcat(a, b[..|b| - 1]);
      assert (a + b)[..|a + b| - 1] == a + b[..|b| - 1];
    }
  }

  lemma {:induction false} RequestsAtMost(msgs: seq<Message>)
    ensures Requests(msgs) <= |msgs|
    ensures (forall m <- msgs :: !IsRequest(m)) ==> Requests(msgs) == 0
    ensures (forall m <- msgs :: IsRequest(m)) ==> Requests(msgs) == |msgs|
  {
    if msgs != [] {
      RequestsAtMost(msgs[..|msgs| - 1]);
    }
  }

  const WIDTH: NodeState -> nat := (s: NodeState) => |s.peers|

  /** What a node may still broadcast in the first phase of a tick, by turning leader. */
  const BUDGET: NodeState -> nat := (s: NodeState) => if s.role.Candidate? then |s.peers| else 0

  /** A step answers a request with at most one reply; it sends requests only by spending the
      budget of a candidacy, and no step makes a candidate. */
  lemma {:induction false} StepSendsLittle(s: NodeState, m: Message, timeout: int)
    requires m.to == s.id
    ensures var r := StepNode(s, m, timeout);
            && r.state.peers == s.peers && r.state.id == s.id
            && Requests(r.out) + BUDGET(r.state) <= BUDGET(s)
            && |r.out| - Requests(r.out) <= (if IsRequest(m) then 1 else 0)
  {
    RequestsAtMost(StepNode(s, m, timeout).out);
  }

  lemma {:induction false} TickSendsLittle(s: NodeState, timeout: int)
    ensures var r := TickNode(s, timeout);
            r.state.peers == s.peers && |r.out| <= WIDTH(s) && Requests(r.out) == |r.out|
  {
    RequestsAtMost(TickNode(s, timeout).out);
  }

  ghost predicate SamePeers(a: map<Id, NodeState>, b: map<Id, NodeState>) {
    a.Keys == b.Keys && forall i <- a :: a[i].peers == b[i].peers
  }

  lemma {:induction false} WidthsAgree(a: map<Id, NodeState>, b: map<Id, NodeState>, ids: seq<Id>)
    requires SamePeers(a, b) && forall i <- ids :: i in a
    ensures Total(a, ids, WIDTH) == Total(b, ids, WIDTH)
    ensures Total(a, ids, BUDGET) <= Total(a, ids, WIDTH)
  {
    if ids != [] {
      WidthsAgree(a, b, ids[..|ids| - 1]);
    }
  }

  lemma {:induction false} DeliverSendsLittle(nodes: map<Id, NodeState>, pending: seq<Message>, blocked: set<Link>, timeouts: seq<int>, ids: seq<Id>)
    requires |timeouts| == |pending| && (forall m <- pending :: m.to in nodes)
    requires Enumerates(ids, nodes.Keys) && forall i <- nodes :: nodes[i].id == i
    ensures var p := Deliver(nodes, pending, blocked, timeouts);
            && SamePeers(nodes, p.nodes) && (forall i <- p.nodes :: p.nodes[i].id == i)
            && Requests(p.out) + Total(p.nodes, ids, BUDGET) <= Total(nodes, ids, BUDGET)
            && |p.out| - Requests(p.out) <= Requests(pending)
  {
    if pending != [] {
      var n := |pending| - 1;
      DeliverSendsLittle(nodes, pending[..n], blocked, timeouts[..n], ids);
      if (pending[n].from, pending[n].to) !in blocked {
        var p, m := Deliver(nodes, pending[..n], blocked, timeouts[..n]), pending[n];
        var s, r := p.nodes[m.to], StepNode(p.nodes[m.to], m, timeouts[n]);
        StepSendsLittle(s, m, timeouts[n]);
        RequestsOfConcat(p.out, r.out);
        TotalUpdate(p.nodes, ids, BUDGET, m.to, r.state);
      }
    }
  }

  lemma {:induction false} TickEachSendsLittle(nodes: map<Id, NodeState>, order: seq<Id>, timeouts: seq<int>)
    requires |timeouts| == |order| && forall i <- order :: i in nodes
    ensures var p := TickEach(nodes, order, timeouts);
            SamePeers(nodes, p.nodes) && |p.out| <= Total(nodes, order, WIDTH) && Requests(p.out) == |p.out|
  {
    if order != [] {
      var n := |order| - 1;
      TickEachSendsLittle(nodes, order[..n], timeouts[..n]);
      var p := TickEach(nodes, order[..n], timeouts[..n]);
      TickSendsLittle(p.nodes[order[n]], timeouts[n]);
      RequestsOfConcat(p.out, TickNode(p.nodes[order[n]], timeouts[n]).out);
    }
  }

  /** Requests in flight and replies in flight, each at most twice all the widths together. */
  ghost predicate Uncongested(c: ClusterState, widths: nat) {
    && (forall i <- c.order :: i in c.nodes)
    && Total(c.nodes, c.order, WIDTH) == widths
    && Requests(c.inbox) <= 2 * widths
    && |c.inbox| - Requests(c.inbox) <= 2 * widths
  }

  lemma {:induction false} TickKeepsUncongested(c: ClusterState, r: Round, widths: nat)
    requires Legal(c, r) && Enumerates(c.order, c.nodes.Keys) && (forall i <- c.nodes :: c.nodes[i].id == i)
    requires Uncongested(c, widths)
    ensures Uncongested(ClusterTick(c, r), widths)
  {
    var n := |c.inbox|;
    var d := Delivery(c, r);
    var t := TickEach(d.nodes, c.order, r.timeouts[n..]);
    DeliverSendsLittle(c.nodes, c.inbox, r.blocked, r.timeouts[..n], c.order);
    TickEachSendsLittle(d.nodes, c.order, r.timeouts[n..]);
    RequestsOfConcat(d.out, t.out);
    WidthsAgree(c.nodes, d.nodes, c.order);
    WidthsAgree(d.nodes, t.nodes, c.order);
  }

  lemma {:induction false} RunIsUncongested(cs: seq<ClusterState>, rs: seq<Round>, k: nat)
    requires IsRun(cs, rs) && StartedCluster(cs[0]) && k <= |rs|
    ensures Uncongested(cs[k], Total(cs[0].nodes, cs[0].order, WIDTH))
  {
    hide ClusterTick, NodesOk;
    if k > 0 {
      RunIsUncongested(cs, rs, k - 1);
      RunNodesOk(cs, rs, k - 1);
      TickKeepsUncongested(cs[k - 1], rs[k - 1], Total(cs[0].nodes, cs[0].order, WIDTH));
    }
  }

  lemma {:induction false} TotalOfEqual(nodes: map<Id, NodeState>, ids: seq<Id>, width: nat)
    requires forall i <- ids :: i in nodes && WIDTH(nodes[i]) == width
    ensures Total(nodes, ids, WIDTH) == |ids| * width
  {
    if ids != [] {
      var n := |ids| - 1;
      TotalOfEqual(nodes, ids[..n], width);
      assert (n + 1) * width == n * width + width;
    }
  }

  /** In every run of n nodes the inbox holds at most 4 n (n - 1) messages. */
  lemma {:induction false} BoundedInbox(cs: seq<ClusterState>, rs: seq<Round>, k: nat)
    requires IsRun(cs, rs) && StartedCluster(cs[0]) && k <= |rs|
    ensures var n := |cs[0].nodes|; |cs[k].inbox| <= 4 * (n * (n - 1))
  {
    var n, order := |cs[0].nodes|, cs[0].order;
    RunIsUncongested(cs, rs, k);
    EnumerationSize(order, cs[0].nodes.Keys);
    forall i | i in order
      ensures WIDTH(cs[0].nodes[i]) == n - 1
    {
      assert Started(cs[0].nodes[i], i, cs[0].nodes.Keys);
    }
    if n > 0 {
      TotalOfEqual(cs[0].nodes, order, n - 1);
    }
  }

  // ------------------------------------------------------------------
  // A node that hears nobody

  predicate Deaf(v: Id, members: set<Id>, blocked: set<Link>) {
    forall a <- members :: a != v ==> (a, v) in blocked
  }

  /** Cutting a node off, as `Isolate` does, makes it deaf; nobody cuts its link to itself. */
  lemma {:induction false} IsolatedIsDeaf(v: Id, order: seq<Id>, blocked: set<Link>)
    requires CrossLinks([v], Others(order, v)) <= blocked
    ensures Deaf(v, (set i | i in order), blocked)
  {
    OthersAreMembers(order, v);
    forall a | a in order && a != v
      ensures (a, v) in blocked
    {
      assert a in Others(order, v) && v in [v];
      assert (a, v) in CrossLinks([v], Others(order, v));
    }
  }

  lemma {:induction false} DeliverSkipsDeaf(nodes: map<Id, NodeState>, pending: seq<Message>, blocked: set<Link>, timeouts: seq<int>, v: Id)
    requires |timeouts| == |pending| && (forall m <- pending :: m.from in nodes && m.to in nodes && m.from != m.to)
    requires v in nodes && Deaf(v, nodes.Keys, blocked)
    ensures Deliver(nodes, pending, blocked, timeouts).nodes[v] == nodes[v]
  {
    if pending != [] {
      var n := |pending| - 1;
      DeliverSkipsDeaf(nodes, pending[..n], blocked, timeouts[..n], v);
    }
  }

  /** A tick in which `v` hears nobody is one clock tick for `v`. */
  lemma {:induction false} DeafTick(c: ClusterState, r: Round, v: Id) returns (timeout: int)
    requires Legal(c, r) && Enumerates(c.order, c.nodes.Keys) && (forall m <- c.inbox :: m.from in c.nodes && m.from != m.to)
    requires v in c.nodes && Deaf(v, c.nodes.Keys, r.blocked)
    ensures c.cfg.Draws(timeout) && ClusterTick(c, r).nodes[v] == TickNode(c.nodes[v], timeout).state
  {
    var k :| 0 <= k < |c.order| && c.order[k] == v;
    DeliverSkipsDeaf(c.nodes, c.inbox, r.blocked, r.timeouts[..|c.inbox|], v);
    TickEachMember(Delivery(c, r).nodes, c.order, r.timeouts[|c.inbox|..], k);
    timeout := r.timeouts[|c.inbox|..][k];
  }

  lemma {:induction false} DeafTickOfRun(cs: seq<ClusterState>, rs: seq<Round>, k: nat, v: Id) returns (timeout: int)
    requires IsRun(cs, rs) && StartedCluster(cs[0]) && k < |rs| && v in cs[0].nodes
    requires Deaf(v, cs[0].nodes.Keys, rs[k].blocked)
    ensures v in cs[k].nodes && v in cs[k + 1].nodes && cs[0].cfg.Draws(timeout)
    ensures cs[k + 1].nodes[v] == TickNode(cs[k].nodes[v], timeout).state
  {
    hide NodesOk, TickNode, Quorum;
    RunNodesOk(cs, rs, k);
    RunNodesOk(cs, rs, k + 1);
    RunIsWired(cs, rs, k);
    timeout := DeafTick(cs[k], rs[k], v);
  }

  lemma {:induction false} DeafNodeTicksAlone(cs: seq<ClusterState>, rs: seq<Round>, start: nat, end: nat, v: Id) returns (timeouts: seq<int>)
    requires IsRun(cs, rs) && StartedCluster(cs[0]) && start <= end <= |rs| && v in cs[start].nodes && v in cs[0].nodes
    requires forall k {:trigger rs[k]} :: start <= k < end ==> Deaf(v, cs[0].nodes.Keys, rs[k].blocked)
    ensures v in cs[end].nodes
    ensures |timeouts| == end - start && forall t <- timeouts :: cs[0].cfg.Draws(t)
    ensures cs[end].nodes[v] == TickAlone(cs[start].nodes[v], timeouts)
    decreases end
  {
    hide IsRun, StartedCluster, TickNode;
    timeouts := [];
    if start < end {
      var before := DeafNodeTicksAlone(cs, rs, start, end - 1, v);
      var last := DeafTickOfRun(cs, rs, end - 1, v);
      timeouts := before + [last];
      assert timeouts[..|timeouts| - 1] == before;
    }
  }

  /** From any reachable state: a non-leader of a cluster of at least two whose incoming links stay
      cut for some ticks wins nothing, and its term grows within the envelope of the timeouts. */
  lemma {:induction false} ClusterTermInflation(cs: seq<ClusterState>, rs: seq<Round>, start: nat, end: nat, v: Id)
    requires IsRun(cs, rs) && StartedCluster(cs[0]) && start <= end <= |rs| && |cs[0].nodes| >= 2
    requires v in cs[start].nodes && !cs[start].nodes[v].role.Leader?
    requires forall k {:trigger rs[k]} :: start <= k < end ==> Deaf(v, cs[0].nodes.Keys, rs[k].blocked)
    ensures v in cs[end].nodes
    ensures var s, e, n := cs[start].nodes[v], cs[end].nodes[v], end - start;
            && !e.role.Leader? && e.electionsWon == s.electionsWon
            && n / cs[0].cfg.electionTimeoutMax <= e.term - s.term
            && e.term - s.term <= (n + s.elapsed) / cs[0].cfg.electionTimeoutMin
  {
    hide ClusterTick, TickAlone, StartedCluster;
    RunNodesOk(cs, rs, start);
    var timeouts := DeafNodeTicksAlone(cs, rs, start, end, v);
    assert |cs[start].nodes[v].peers| >= 1 by {
      assert Quorum(cs[start].nodes[v]) >= 2;
    }
    TermInflation(cs[start].nodes[v], timeouts);
  }
}
