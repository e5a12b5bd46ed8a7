/** The simulated cluster: nodes in lock step over a network whose directed links can be cut.

    `ClusterTick` gives the effect of one tick on values.  A `Round` fixes what the environment
    chooses for it: the links that are cut and the timeouts that are drawn.  A run is any sequence
    of rounds, so every schedule of partitions and every outcome of the timers is a run.
 */
module RaftCluster {
  import opened RaftNode
  import opened RaftProtocol
  import opened RaftAccounting

  /** A directed link, from and to. */
  type Link = (Id, Id)

  datatype ClusterState = ClusterState(nodes: map<Id, NodeState>, order: seq<Id>, inbox: seq<Message>, cfg: Config)

  datatype Round = Round(blocked: set<Link>, timeouts: seq<int>)

  /** The nodes after some steps and the messages those steps sent. */
  datatype Phase = Phase(nodes: map<Id, NodeState>, out: seq<Message>)

  function StepOne(p: Phase, m: Message, timeout: int): Phase
    requires m.to in p.nodes
  {
    var r := StepNode(p.nodes[m.to], m, timeout);
    Phase(p.nodes[m.to := r.state], p.out + r.out)
  }

  function TickOne(p: Phase, id: Id, timeout: int): Phase
    requires id in p.nodes
  {
    var r := TickNode(p.nodes[id], timeout);
    Phase(p.nodes[id := r.state], p.out + r.out)
  }

  /** Last tick's messages reach their receivers in order; those on a cut link are dropped. */
  function Deliver(nodes: map<Id, NodeState>, pending: seq<Message>, blocked: set<Link>, timeouts: seq<int>): (p: Phase)
    requires |timeouts| == |pending| && forall m <- pending :: m.to in nodes
    ensures p.nodes.Keys == nodes.Keys
  {
    if pending == [] then Phase(nodes, [])
    else
      var n := |pending| - 1;
      var p := Deliver(nodes, pending[..n], blocked, timeouts[..n]);
      if (pending[n].from, pending[n].to) in blocked then p else StepOne(p, pending[n], timeouts[n])
  }

  function TickEach(nodes: map<Id, NodeState>, order: seq<Id>, timeouts: seq<int>): (p: Phase)
    requires |timeouts| == |order| && forall i <- order :: i in nodes
    ensures p.nodes.Keys == nodes.Keys
  {
    if order == [] then Phase(nodes, [])
    else
      var n := |order| - 1;
      TickOne(TickEach(nodes, order[..n], timeouts[..n]), order[n], timeouts[n])
  }

  predicate Legal(c: ClusterState, r: Round) {
    && (forall m <- c.inbox :: m.to in c.nodes)
    && (forall i <- c.order :: i in c.nodes)
    && |r.timeouts| == |c.inbox| + |c.order|
    && forall t <- r.timeouts :: c.cfg.Draws(t)
  }

  function Delivery(c: ClusterState, r: Round): Phase
    requires Legal(c, r)
  {
    Deliver(c.nodes, c.inbox, r.blocked, r.timeouts[..|c.inbox|])
  }

  function ClusterTick(c: ClusterState, r: Round): ClusterState
    requires Legal(c, r)
  {
    var d := Delivery(c, r);
    var t := TickEach(d.nodes, c.order, r.timeouts[|c.inbox|..]);
    c.(nodes := t.nodes, inbox := d.out + t.out)
  }

  /** Every node knows its own name and only members; messages are between members. */
  ghost predicate Closed(nodes: map<Id, NodeState>, msgs: seq<Message>, cfg: Config) {
    && (forall i <- nodes :: nodes[i].id == i && nodes[i].cfg == cfg && forall p <- nodes[i].peers :: p in nodes)
    && (forall m <- msgs :: m.from in nodes && m.to in nodes)
  }

  /** A cluster as built from distinct, non-empty names. */
  ghost predicate StartedCluster(c: ClusterState) {
    && c.inbox == []
    && c.cfg.Valid()
    && Enumerates(c.order, c.nodes.Keys)
    && forall i <- c.nodes :: c.nodes[i].cfg == c.cfg && Started(c.nodes[i], i, c.nodes.Keys)
  }

  ghost predicate IsRun(cs: seq<ClusterState>, rs: seq<Round>) {
    && |cs| == |rs| + 1
    && forall k {:trigger rs[k]} :: 0 <= k < |rs| ==> Legal(cs[k], rs[k]) && cs[k + 1] == ClusterTick(cs[k], rs[k])
  }

  /** A run and a run that goes on from its last state are one run; between them the links may have been
      cut or healed, since every round brings its own. */
  lemma RunsJoin(cs: seq<ClusterState>, rs: seq<Round>, ds: seq<ClusterState>, qs: seq<Round>)
    requires IsRun(cs, rs) && IsRun(ds, qs) && cs[|rs|] == ds[0]
    ensures IsRun(cs + ds[1..], rs + qs)
    ensures (cs + ds[1..])[0] == cs[0] && (cs + ds[1..])[|rs + qs|] == ds[|qs|]
  {
    hide Legal, ClusterTick;
    var es, ts := cs + ds[1..], rs + qs;
    forall k {:trigger ts[k]} | 0 <= k < |ts|
      ensures Legal(es[k], ts[k]) && es[k + 1] == ClusterTick(es[k], ts[k])
    {
      if k < |rs| {
        assert ts[k] == rs[k] && es[k] == cs[k] && es[k + 1] == cs[k + 1];
      } else {
        var j := k - |rs|;
        assert ts[k] == qs[j] && es[k] == ds[j] && es[k + 1] == ds[j + 1];
      }
    }
  }

  // ------------------------------------------------------------------
  // A tick is a sequence of protocol actions

  function DeliverActions(pending: seq<Message>, blocked: set<Link>, timeouts: seq<int>): seq<Action>
    requires |timeouts| == |pending|
  {
    if pending == [] then []
    else
      var n := |pending| - 1;
      DeliverActions(pending[..n], blocked, timeouts[..n])
      + if (pending[n].from, pending[n].to) in blocked then [] else [Receives(pending[n], timeouts[n])]
  }

  function TickActions(order: seq<Id>, timeouts: seq<int>): seq<Action>
    requires |timeouts| == |order|
  {
    seq(|order|, k requires 0 <= k < |order| => Ticks(order[k], timeouts[k]))
  }

  function RoundActions(c: ClusterState, r: Round): seq<Action> {
    if |r.timeouts| != |c.inbox| + |c.order| then []
    else DeliverActions(c.inbox, r.blocked, r.timeouts[..|c.inbox|]) + TickActions(c.order, r.timeouts[|c.inbox|..])
  }

  function SetOf(msgs: seq<Message>): set<Message> {
    set m | m in msgs
  }

  lemma {:induction false} AfterConcat(w: World, a: seq<Action>, b: seq<Action>)
    ensures After(w, a + b) == After(After(w, a), b)
  {
    if b == [] {
      assert a + b == a;
    } else {
      var n := |b| - 1;
      AfterConcat(w, a, b[..n]);
      assert (a + b)[..|a + b| - 1] == a + b[..n];
    }
  }

  ghost predicate SameConfig(nodes: map<Id, NodeState>, cfg: Config) {
    forall i <- nodes :: nodes[i].id == i && nodes[i].cfg == cfg
  }

  lemma {:induction false} StepOneRefines(w: World, sent: set<Message>, p: Phase, m: Message, timeout: int, cfg: Config)
    requires w == World(p.nodes, sent + SetOf(p.out)) && m in sent && m.to in p.nodes
    requires SameConfig(p.nodes, cfg) && cfg.Draws(timeout)
    ensures var p' := StepOne(p, m, timeout);
            Apply(w, Receives(m, timeout)) == World(p'.nodes, sent + SetOf(p'.out)) && SameConfig(p'.nodes, cfg)
  {
  }

  lemma {:induction false} DeliverRefines(w: World, pending: seq<Message>, blocked: set<Link>, timeouts: seq<int>, cfg: Config)
    requires |timeouts| == |pending| && forall m <- pending :: m.to in w.nodes
    requires forall m <- pending :: m in w.sent
    requires SameConfig(w.nodes, cfg) && forall t <- timeouts :: cfg.Draws(t)
    ensures var p := Deliver(w.nodes, pending, blocked, timeouts);
            && After(w, DeliverActions(pending, blocked, timeouts)) == World(p.nodes, w.sent + SetOf(p.out))
            && SameConfig(p.nodes, cfg)
  {
    hide Apply, StepOne, SameConfig;
    if pending == [] {
      assert w.sent + SetOf([]) == w.sent;
    } else {
      var n := |pending| - 1;
      DeliverRefines(w, pending[..n], blocked, timeouts[..n], cfg);
      var p := Deliver(w.nodes, pending[..n], blocked, timeouts[..n]);
      var acts := DeliverActions(pending[..n], blocked, timeouts[..n]);
      if (pending[n].from, pending[n].to) in blocked {
        assert acts + [] == acts;
      } else {
        StepOneRefines(After(w, acts), w.sent, p, pending[n], timeouts[n], cfg);
        assert (acts + [Receives(pending[n], timeouts[n])])[..|acts|] == acts;
      }
    }
  }

  lemma {:induction false} TickEachRefines(w: World, order: seq<Id>, timeouts: seq<int>, cfg: Config)
    requires |timeouts| == |order| && forall i <- order :: i in w.nodes
    requires SameConfig(w.nodes, cfg) && forall t <- timeouts :: cfg.Draws(t)
    ensures var p := TickEach(w.nodes, order, timeouts);
            && After(w, TickActions(order, timeouts)) == World(p.nodes, w.sent + SetOf(p.out))
            && SameConfig(p.nodes, cfg)
  {
    hide Apply, TickOne, SameConfig;
    if order == [] {
      assert w.sent + SetOf([]) == w.sent;
    } else {
      var n := |order| - 1;
      TickEachRefines(w, order[..n], timeouts[..n], cfg);
      var p := TickEach(w.nodes, order[..n], timeouts[..n]);
      var acts := TickActions(order, timeouts);
      assert acts[..n] == TickActions(order[..n], timeouts[..n]);
      TickOneRefines(After(w, acts[..n]), w.sent, p, order[n], timeouts[n], cfg);
    }
  }

  lemma {:induction false} TickOneRefines(w: World, sent: set<Message>, p: Phase, id: Id, timeout: int, cfg: Config)
    requires w == World(p.nodes, sent + SetOf(p.out)) && id in p.nodes
    requires SameConfig(p.nodes, cfg) && cfg.Draws(timeout)
    ensures var p' := TickOne(p, id, timeout);
            Apply(w, Ticks(id, timeout)) == World(p'.nodes, sent + SetOf(p'.out)) && SameConfig(p'.nodes, cfg)
  {
  }

  /** A tick of the cluster is a run of the protocol whose network holds the inbox. */
  lemma {:induction false} TickRefines(c: ClusterState, r: Round, w: World)
    requires Legal(c, r) && w.nodes == c.nodes && SetOf(c.inbox) <= w.sent && SameConfig(c.nodes, c.cfg)
    ensures var c', w' := ClusterTick(c, r), After(w, RoundActions(c, r));
            w'.nodes == c'.nodes && SetOf(c'.inbox) <= w'.sent && SameConfig(c'.nodes, c'.cfg)
    ensures var c' := ClusterTick(c, r); c'.nodes.Keys == c.nodes.Keys && c'.order == c.order && c'.cfg == c.cfg
  {
    hide Deliver, TickEach, DeliverActions, TickActions, SameConfig, After;
    var n := |c.inbox|;
    var first, second := DeliverActions(c.inbox, r.blocked, r.timeouts[..n]), TickActions(c.order, r.timeouts[n..]);
    DeliverRefines(w, c.inbox, r.blocked, r.timeouts[..n], c.cfg);
    TickEachRefines(After(w, first), c.order, r.timeouts[n..], c.cfg);
    AfterConcat(w, first, second);
    var d := Delivery(c, r);
    var t := TickEach(d.nodes, c.order, r.timeouts[n..]);
    assert SetOf(d.out + t.out) == SetOf(d.out) + SetOf(t.out);
  }

  /** The actions of the first `k` rounds. */
  function RunActions(cs: seq<ClusterState>, rs: seq<Round>, k: nat): seq<Action>
    requires |cs| == |rs| + 1 && k <= |rs|
  {
    if k == 0 then [] else RunActions(cs, rs, k - 1) + RoundActions(cs[k - 1], rs[k - 1])
  }

  ghost function FirstWorld(c: ClusterState): World {
    World(c.nodes, {})
  }

  lemma {:induction false} StartIsInitial(c: ClusterState)
    requires StartedCluster(c)
    ensures Initial(FirstWorld(c)) && SetOf(c.inbox) == {} && SameConfig(c.nodes, c.cfg)
  {
    forall i | i in c.nodes
      ensures c.nodes[i].id == i && c.nodes[i].cfg == c.cfg
    {
      assert Started(c.nodes[i], i, c.nodes.Keys);
    }
  }

  /** Every run of the cluster is a run of the protocol. */
  lemma {:induction false} RunRefines(cs: seq<ClusterState>, rs: seq<Round>, k: nat)
    requires IsRun(cs, rs) && k <= |rs| && StartedCluster(cs[0])
    ensures Initial(FirstWorld(cs[0]))
    ensures var w := After(FirstWorld(cs[0]), RunActions(cs, rs, k));
            && w.nodes == cs[k].nodes && SetOf(cs[k].inbox) <= w.sent && SameConfig(cs[k].nodes, cs[k].cfg)
            && cs[k].nodes.Keys == cs[0].nodes.Keys && cs[k].order == cs[0].order && cs[k].cfg == cs[0].cfg
  {
    hide ClusterTick, RoundActions, Initial, SameConfig, SetOf;
    if k == 0 {
      StartIsInitial(cs[0]);
    } else {
      RunRefines(cs, rs, k - 1);
      var w := After(FirstWorld(cs[0]), RunActions(cs, rs, k - 1));
      TickRefines(cs[k - 1], rs[k - 1], w);
      AfterConcat(FirstWorld(cs[0]), RunActions(cs, rs, k - 1), RoundActions(cs[k - 1], rs[k - 1]));
    }
  }

  lemma {:induction false} ActionsExtend(cs: seq<ClusterState>, rs: seq<Round>, j: nat, k: nat)
    requires |cs| == |rs| + 1 && j <= k <= |rs|
    ensures RunActions(cs, rs, j) <= RunActions(cs, rs, k)
  {
    hide RoundActions;
    if j < k {
      ActionsExtend(cs, rs, j, k - 1);
    }
  }

  // ------------------------------------------------------------------
  // What the protocol's theorems say of the simulated cluster

  /** Leaders of one term, after any two ticks of any run, are one node. */
  lemma {:induction false} ClusterElectionSafety(cs: seq<ClusterState>, rs: seq<Round>, j: nat, k: nat, a: Id, b: Id)
    requires IsRun(cs, rs) && StartedCluster(cs[0]) && j <= |rs| && k <= |rs|
    requires a in cs[j].nodes && b in cs[k].nodes
    requires cs[j].nodes[a].role.Leader? && cs[k].nodes[b].role.Leader? && cs[j].nodes[a].term == cs[k].nodes[b].term
    ensures a == b
  {
    var acts, aj, ak := RunActions(cs, rs, |rs|), RunActions(cs, rs, j), RunActions(cs, rs, k);
    assert acts[..|aj|] == aj && acts[..|ak|] == ak by {
      ActionsExtend(cs, rs, j, |rs|);
      ActionsExtend(cs, rs, k, |rs|);
    }
    RunRefines(cs, rs, j);
    RunRefines(cs, rs, k);
    ElectionSafety(FirstWorld(cs[0]), acts, |aj|, |ak|, a, b);
  }

  /** After every tick of every run: elections won <= MaxTerm <= elections begun. */
  lemma {:induction false} ClusterAccounting(cs: seq<ClusterState>, rs: seq<Round>, k: nat)
    requires IsRun(cs, rs) && StartedCluster(cs[0]) && k <= |rs|
    ensures forall i <- cs[k].order :: i in cs[k].nodes
    ensures var n, ids := cs[k].nodes, cs[k].order;
            Total(n, ids, WINS) <= MaxTerm(n, ids) <= Total(n, ids, CANDIDACIES)
  {
    RunRefines(cs, rs, k);
    ElectionAccounting(FirstWorld(cs[0]), RunActions(cs, rs, k), cs[0].order);
  }

  /** Two nodes of one term that know a leader know the same one. */
  lemma {:induction false} ClusterBelieversAgree(cs: seq<ClusterState>, rs: seq<Round>, k: nat, i: Id, j: Id)
    requires IsRun(cs, rs) && StartedCluster(cs[0]) && k <= |rs| && i in cs[k].nodes && j in cs[k].nodes
    requires cs[k].nodes[i].leader != NOBODY && cs[k].nodes[j].leader != NOBODY
    requires cs[k].nodes[i].term == cs[k].nodes[j].term
    ensures cs[k].nodes[i].leader == cs[k].nodes[j].leader
  {
    RunRefines(cs, rs, k);
    BelieversAgree(FirstWorld(cs[0]), RunActions(cs, rs, k), i, j);
  }

  // ------------------------------------------------------------------
  // Facts shared by the theorems about whole runs

  /** What holds of every node and every message in flight of a run that began with
      `StartedCluster`. */
  ghost predicate WiredCluster(c: ClusterState) {
    && Wired(World(c.nodes, SetOf(c.inbox)))
    && Enumerates(c.order, c.nodes.Keys)
    && SameConfig(c.nodes, c.cfg)
  }

  ghost predicate NodesOk(nodes: map<Id, NodeState>, cfg: Config) {
    forall i <- nodes :: nodes[i].id == i && Sane(nodes[i]) && nodes[i].cfg == cfg
  }

  lemma {:induction false} RunIsWired(cs: seq<ClusterState>, rs: seq<Round>, k: nat)
    requires IsRun(cs, rs) && StartedCluster(cs[0]) && k <= |rs|
    ensures WiredCluster(cs[k]) && cs[k].cfg == cs[0].cfg && cs[k].nodes.Keys == cs[0].nodes.Keys
  {
    RunRefines(cs, rs, k);
    RunInv(FirstWorld(cs[0]), RunActions(cs, rs, k));
  }

  lemma {:induction false} TickEachSkips(nodes: map<Id, NodeState>, order: seq<Id>, timeouts: seq<int>, i: Id)
    requires |timeouts| == |order| && (forall j <- order :: j in nodes)
    requires i in nodes && i !in order
    ensures TickEach(nodes, order, timeouts).nodes[i] == nodes[i]
  {
    if order != [] {
      var n := |order| - 1;
      TickEachSkips(nodes, order[..n], timeouts[..n], i);
    }
  }

  /** In the second phase of a tick every member ticks once, from its state after the first. */
  lemma {:induction false} TickEachMember(nodes: map<Id, NodeState>, order: seq<Id>, timeouts: seq<int>, k: nat)
    requires |timeouts| == |order| && (forall j <- order :: j in nodes) && k < |order|
    requires forall i, j :: 0 <= i < j < |order| ==> order[i] != order[j]
    ensures var p, r := TickEach(nodes, order, timeouts), TickNode(nodes[order[k]], timeouts[k]);
            p.nodes[order[k]] == r.state && forall m <- r.out :: m in p.out
  {
    var n := |order| - 1;
    if k == n {
      TickEachSkips(nodes, order[..n], timeouts[..n], order[n]);
    } else {
      TickEachMember(nodes, order[..n], timeouts[..n], k);
    }
  }

  /** ... and nothing else is sent. */
  lemma {:induction false} TickEachMessage(nodes: map<Id, NodeState>, order: seq<Id>, timeouts: seq<int>, m: Message) returns (k: nat)
    requires |timeouts| == |order| && (forall j <- order :: j in nodes)
    requires forall i, j :: 0 <= i < j < |order| ==> order[i] != order[j]
    requires m in TickEach(nodes, order, timeouts).out
    ensures k < |order| && m in TickNode(nodes[order[k]], timeouts[k]).out
  {
    var n := |order| - 1;
    if m in TickEach(nodes, order[..n], timeouts[..n]).out {
      k := TickEachMessage(nodes, order[..n], timeouts[..n], m);
    } else {
      k := n;
      TickEachSkips(nodes, order[..n], timeouts[..n], order[n]);
    }
  }
}
