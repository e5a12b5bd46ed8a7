/** The in-memory simulator of the cluster, updating its nodes, inbox and cut links in place. */
module RaftSimulator {
  import opened NameOrder
  import opened RaftNode
  import opened RaftProtocol
  import opened RaftAccounting
  import opened RaftCluster

  /** The messages that get through. */
  function Passing(msgs: seq<Message>, blocked: set<Link>): seq<Message> {
    if msgs == [] then []
    else
      var last := msgs[|msgs| - 1];
      Passing(msgs[..|msgs| - 1], blocked) + if (last.from, last.to) in blocked then [] else [last]
  }

  /** What gets through is, in order, what the protocol receives in the first phase. */
  lemma {:induction false} PassingIsReceived(msgs: seq<Message>, blocked: set<Link>, timeouts: seq<int>)
    requires |timeouts| == |msgs|
    ensures var acts, passing := DeliverActions(msgs, blocked, timeouts), Passing(msgs, blocked);
            |acts| == |passing| && forall i :: 0 <= i < |acts| ==> acts[i].Receives? && acts[i].m == passing[i]
  {
    if msgs != [] {
      var n := |msgs| - 1;
      PassingIsReceived(msgs[..n], blocked, timeouts[..n]);
    }
  }

  lemma {:induction false} PassingConcat(a: seq<Message>, b: seq<Message>, blocked: set<Link>)
    ensures Passing(a + b, blocked) == Passing(a, blocked) + Passing(b, blocked)
  {
    if b == [] {
      assert a + b == a;
    } else {
      PassingConcat(a, b[..|b| - 1], blocked);
      assert (a + b)[..|a + b| - 1] == a + b[..|b| - 1];
    }
  }

  /** Nothing on a cut link gets through, and everything else does. */
  lemma {:induction false} PassingMembers(msgs: seq<Message>, blocked: set<Link>, m: Message)
    ensures m in Passing(msgs, blocked) <==> m in msgs && (m.from, m.to) !in blocked
  {
    if msgs != [] {
      var n := |msgs| - 1;
      PassingMembers(msgs[..n], blocked, m);
      assert m in msgs <==> m in msgs[..n] || m == msgs[n];
    }
  }

  function LeadersAmong(nodes: map<Id, NodeState>, order: seq<Id>): seq<Id>
    requires forall i <- order :: i in nodes
  {
    if order == [] then []
    else
      var last := order[|order| - 1];
      LeadersAmong(nodes, order[..|order| - 1]) + if nodes[last].role.Leader? then [last] else []
  }

  lemma {:induction false} LeadersAscend(nodes: map<Id, NodeState>, order: seq<Id>)
    requires (forall i <- order :: i in nodes) && Ascending(order)
    ensures Ascending(LeadersAmong(nodes, order))
    ensures forall i <- LeadersAmong(nodes, order) :: i in order
  {
    if order != [] {
      var n := |order| - 1;
      LeadersAscend(nodes, order[..n]);
      var rest := LeadersAmong(nodes, order[..n]);
      forall j | 0 <= j < |rest|
        ensures AtMost(rest[j], order[n])
      {
        assert rest[j] in order[..n];
        var k :| 0 <= k < n && order[k] == rest[j];
      }
    }
  }

  function CrossLinks(groupA: seq<Id>, groupB: seq<Id>): set<Link> {
    (set a, b | a in groupA && b in groupB :: (a, b)) + (set a, b | a in groupA && b in groupB :: (b, a))
  }

  /** The links between two groups, both ways. */
  lemma CrossLinksLaw(groupA: seq<Id>, groupB: seq<Id>, from: Id, to: Id)
    ensures (from, to) in CrossLinks(groupA, groupB) <==> (from in groupA && to in groupB) || (from in groupB && to in groupA)
  {
  }

  /** Over a network cut between two groups nothing passes from one to the other, and within each group
      everything that passed before still does, if they have no member in common. */
  lemma {:induction false} PartitionSeparates(msgs: seq<Message>, blocked: set<Link>, groupA: seq<Id>, groupB: seq<Id>, m: Message)
    ensures var now := Passing(msgs, blocked + CrossLinks(groupA, groupB));
            && ((m.from in groupA && m.to in groupB) || (m.from in groupB && m.to in groupA) ==> m !in now)
            && (m in now ==> m in Passing(msgs, blocked))
            && (m in Passing(msgs, blocked) && !(m.from in groupA && m.to in groupB) && !(m.from in groupB && m.to in groupA) ==> m in now)
  {
    hide Passing, CrossLinks;
    PassingMembers(msgs, blocked + CrossLinks(groupA, groupB), m);
    PassingMembers(msgs, blocked, m);
    CrossLinksLaw(groupA, groupB, m.from, m.to);
  }

  /** One step of a member keeps the cluster closed. */
  lemma {:induction false} StepKeepsClosed(nodes: map<Id, NodeState>, msgs: seq<Message>, cfg: Config, m: Message, timeout: int)
    requires Closed(nodes, msgs, cfg) && m.from in nodes && m.to in nodes
    ensures var p := StepOne(Phase(nodes, msgs), m, timeout); Closed(p.nodes, p.out, cfg)
  {
    var r := StepNode(nodes[m.to], m, timeout);
    assert forall x <- r.out :: x.from == m.to && (x.to == m.from || x.to in nodes[m.to].peers);
  }

  lemma {:induction false} TickKeepsClosed(nodes: map<Id, NodeState>, msgs: seq<Message>, cfg: Config, i: Id, timeout: int)
    requires Closed(nodes, msgs, cfg) && i in nodes
    ensures var p := TickOne(Phase(nodes, msgs), i, timeout); Closed(p.nodes, p.out, cfg)
  {
    var r := TickNode(nodes[i], timeout);
    assert forall x <- r.out :: x.from == i && x.to in nodes[i].peers;
  }

  lemma {:induction false} OthersAreMembers(members: seq<Id>, id: Id)
    ensures forall p :: p in Others(members, id) <==> p in members && p != id
  {
    if members != [] {
      OthersAreMembers(members[..|members| - 1], id);
      assert members == members[..|members| - 1] + [members[|members| - 1]];
    }
  }

  lemma {:induction false} OthersCount(members: seq<Id>, id: Id)
    requires Distinct(members)
    ensures |Others(members, id)| + (if id in members then 1 else 0) == |members|
  {
    if members != [] {
      OthersCount(members[..|members| - 1], id);
      assert members == members[..|members| - 1] + [members[|members| - 1]];
    }
  }

  lemma {:induction false} FreshCluster(views: map<Id, NodeState>, ids: seq<Id>, cfg: Config)
    requires cfg.Valid() && views.Keys == set i | i in ids
    requires forall i <- views :: cfg.Draws(views[i].electionTimeout)
                              && views[i] == Fresh(i, Sorted(Others(ids, i)), cfg, views[i].electionTimeout)
    ensures Closed(views, [], cfg)
    ensures NOBODY !in ids && Distinct(ids) ==> StartedCluster(ClusterState(views, Sorted(ids), [], cfg))
  {
    SortedLaws(ids);
    if Distinct(ids) {
      SortedDistinct(ids);
      assert Enumerates(ids, views.Keys);
    }
    forall i | i in views
      ensures forall p <- views[i].peers :: p in views
      ensures NOBODY !in ids && Distinct(ids) ==> Started(views[i], i, views.Keys)
    {
      SortedLaws(Others(ids, i));
      OthersAreMembers(ids, i);
      if Distinct(ids) {
        OthersCount(ids, i);
        EnumerationSize(ids, views.Keys);
      }
    }
  }

  lemma {:induction false} TickEachNone(nodes: map<Id, NodeState>)
    ensures TickEach(nodes, [], []) == Phase(nodes, [])
  {
  }

  /** One more member's tick, after `sent` was already in the inbox. */
  lemma {:induction false} TickEachMore(nodes: map<Id, NodeState>, order: seq<Id>, k: nat, timeouts: seq<int>, timeout: int, sent: seq<Message>)
    requires k < |order| && |timeouts| == k && forall i <- order :: i in nodes
    ensures var p, p' := TickEach(nodes, order[..k], timeouts), TickEach(nodes, order[..k + 1], timeouts + [timeout]);
            TickOne(Phase(p.nodes, sent + p.out), order[k], timeout) == Phase(p'.nodes, sent + p'.out)
  {
    assert order[..k + 1][..k] == order[..k] && (timeouts + [timeout])[..k] == timeouts;
    var p := TickEach(nodes, order[..k], timeouts);
    var r := TickNode(p.nodes[order[k]], timeout);
    assert sent + p.out + r.out == sent + (p.out + r.out);
  }

  /** The two phases make up a tick. */
  lemma {:induction false} PhasesMakeTick(c: ClusterState, blocked: set<Link>, first: seq<int>, second: seq<int>)
    requires |first| == |c.inbox| && |second| == |c.order| && Legal(c, Round(blocked, first + second))
    ensures var d := Deliver(c.nodes, c.inbox, blocked, first);
            var t := TickEach(d.nodes, c.order, second);
            ClusterTick(c, Round(blocked, first + second)) == c.(nodes := t.nodes, inbox := d.out + t.out)
  {
    assert (first + second)[..|c.inbox|] == first && (first + second)[|c.inbox|..] == second;
  }

  class Cluster {
    const nodes: map<Id, Node>
    const order: seq<Id>
    const cfg: Config
    var inbox: seq<Message>
    var blocked: set<Link>
    var trace: seq<Message>
    var record: bool

    ghost function Views(): map<Id, NodeState>
      reads nodes.Values
    {
      map i | i in nodes :: nodes[i].View()
    }

    ghost function View(): ClusterState
      reads this, nodes.Values
    {
      ClusterState(Views(), order, inbox, cfg)
    }

    ghost predicate Valid()
      reads this, nodes.Values
    {
      && cfg.Valid()
      && (forall i :: i in order <==> i in nodes) && Ascending(order)
      && (forall i <- nodes :: nodes[i].id == i && nodes[i].cfg == cfg && cfg.Draws(nodes[i].electionTimeout))
      && Closed(Views(), inbox, cfg)
    }

    static method Build(ids: seq<Id>, cfg: Config) returns (built: map<Id, Node>)
      requires cfg.Valid()
      ensures built.Keys == set i | i in ids
      ensures forall i <- built :: fresh(built[i]) && cfg.Draws(built[i].electionTimeout)
      ensures forall i <- built :: built[i].View() == Fresh(i, Sorted(Others(ids, i)), cfg, built[i].electionTimeout)
    {
      built := map[];
      for k := 0 to |ids|
        invariant built.Keys == set i | i in ids[..k]
        invariant forall i <- built :: fresh(built[i]) && cfg.Draws(built[i].electionTimeout)
        invariant forall i <- built :: built[i].View() == Fresh(i, Sorted(Others(ids, i)), cfg, built[i].electionTimeout)
      {
        var node := new Node(ids[k], ids, cfg);
        built := built[ids[k] := node];
        assert ids[..k + 1] == ids[..k] + [ids[k]];
      }
      assert ids[..|ids|] == ids;
    }

    constructor (ids: seq<Id>, cfg: Config)
      requires cfg.Valid()
      ensures Valid() && forall i <- nodes :: fresh(nodes[i])
      ensures order == Sorted(ids) && nodes.Keys == (set i | i in ids)
      ensures inbox == [] && blocked == {} && trace == [] && !record
      ensures NOBODY !in ids && Distinct(ids) ==> StartedCluster(View())
    {
      hide Sorted, Others, StartedCluster, Closed, Fresh, Ascending;
      var built := Build(ids, cfg);
      nodes := built;
      order := Sorted(ids);
      SortedLaws(ids);
      this.cfg := cfg;
      inbox, blocked, trace, record := [], {}, [], false;
      new;
      FreshCluster(Views(), ids, cfg);
    }

    method Send(msgs: seq<Message>)
      modifies `inbox
      ensures inbox == old(inbox) + msgs
    {
      inbox := inbox + msgs;
    }

    /** Delivers one message that got through. */
    method Pass(m: Message) returns (ghost timeout: int)
      requires Valid() && m.from in nodes && m.to in nodes
      modifies `inbox, `trace, nodes.Values
      ensures Valid() && cfg.Draws(timeout)
      ensures Phase(Views(), inbox) == StepOne(Phase(old(Views()), old(inbox)), m, timeout)
      ensures trace == if record then old(trace) + [m] else old(trace)
    {
      hide StepNode, Closed, Ascending;
      if record {
        trace := trace + [m];
      }
      var node := nodes[m.to];
      var out := node.Step(m);
      timeout := node.electionTimeout;
      Send(out);
      assert Views() == old(Views())[m.to := node.View()];
      StepKeepsClosed(old(Views()), old(inbox), cfg, m, timeout);
    }

    method TickMember(id: Id) returns (ghost timeout: int)
      requires Valid() && id in nodes
      modifies `inbox, nodes.Values
      ensures Valid() && cfg.Draws(timeout)
      ensures Phase(Views(), inbox) == TickOne(Phase(old(Views()), old(inbox)), id, timeout)
    {
      hide TickNode, Closed, Ascending;
      var node := nodes[id];
      var out := node.Tick();
      timeout := node.electionTimeout;
      Send(out);
      assert Views() == old(Views())[id := node.View()];
      TickKeepsClosed(old(Views()), old(inbox), cfg, id, timeout);
    }

    method DeliverPending(pending: seq<Message>) returns (delivered: nat, ghost timeouts: seq<int>)
      requires Valid() && inbox == [] && forall m <- pending :: m.from in nodes && m.to in nodes
      modifies `inbox, `trace, nodes.Values
      ensures Valid() && |timeouts| == |pending| && forall t <- timeouts :: cfg.Draws(t)
      ensures Phase(Views(), inbox) == Deliver(old(Views()), pending, blocked, timeouts)
      ensures delivered == |Passing(pending, blocked)|
      ensures trace == old(trace) + if record then Passing(pending, blocked) else []
    {
      hide StepOne, Closed, Ascending;
      delivered, timeouts := 0, [];
      for k := 0 to |pending|
        invariant Valid() && |timeouts| == k && forall t <- timeouts :: cfg.Draws(t)
        invariant Phase(Views(), inbox) == Deliver(old(Views()), pending[..k], blocked, timeouts)
        invariant delivered == |Passing(pending[..k], blocked)|
        invariant trace == old(trace) + if record then Passing(pending[..k], blocked) else []
      {
        ghost var timeout := cfg.electionTimeoutMin;
        if (pending[k].from, pending[k].to) !in blocked {
          delivered := delivered + 1;
          timeout := Pass(pending[k]);
        }
        assert pending[..k + 1][..k] == pending[..k];
        assert (timeouts + [timeout])[..k] == timeouts;
        timeouts := timeouts + [timeout];
      }
      assert pending[..|pending|] == pending;
    }

    method TickMembers() returns (ghost timeouts: seq<int>)
      requires Valid()
      modifies `inbox, nodes.Values
      ensures Valid() && |timeouts| == |order| && forall t <- timeouts :: cfg.Draws(t)
      ensures var p := TickEach(old(Views()), order, timeouts); Views() == p.nodes && inbox == old(inbox) + p.out
    {
      hide TickOne, TickEach, Closed, Ascending;
      timeouts := [];
      assert order[..0] == [];
      TickEachNone(Views());
      for k := 0 to |order|
        invariant Valid() && |timeouts| == k && forall t <- timeouts :: cfg.Draws(t)
        invariant var p := TickEach(old(Views()), order[..k], timeouts); Views() == p.nodes && inbox == old(inbox) + p.out
      {
        ghost var timeout := TickMember(order[k]);
        TickEachMore(old(Views()), order, k, timeouts, timeout, old(inbox));
        timeouts := timeouts + [timeout];
      }
      assert order[..|order|] == order;
    }

    method Tick() returns (delivered: nat, ghost round: Round)
      requires Valid()
      modifies `inbox, `trace, nodes.Values
      ensures Valid()
      ensures round.blocked == blocked && Legal(old(View()), round)
      ensures View() == ClusterTick(old(View()), round)
      ensures delivered == |Passing(old(inbox), blocked)|
      ensures trace == old(trace) + if record then Passing(old(inbox), blocked) else []
    {
      hide Deliver, TickEach, Passing, Ascending;
      ghost var c := View();
      var pending := inbox;
      inbox := [];
      assert Views() == c.nodes;
      ghost var first, second;
      delivered, first := DeliverPending(pending);
      ghost var d := Phase(Views(), inbox);
      second := TickMembers();
      round := Round(blocked, first + second);
      assert Legal(c, round);
      assert d == Deliver(c.nodes, c.inbox, blocked, first);
      PhasesMakeTick(c, blocked, first, second);
    }

    /** Ticks `n` times; the ghost results are the run that happened. */
    method Run(n: nat) returns (ghost cs: seq<ClusterState>, ghost rs: seq<Round>)
      requires Valid()
      modifies `inbox, `trace, nodes.Values
      ensures Valid()
      ensures IsRun(cs, rs) && |rs| == n && cs[0] == old(View()) && cs[n] == View()
      ensures forall k :: 0 <= k < n ==> rs[k].blocked == blocked
    {
      hide ClusterTick;
      cs, rs := [View()], [];
      for i := 0 to n
        invariant Valid() && IsRun(cs, rs) && |rs| == i && cs[0] == old(View()) && cs[i] == View()
        invariant forall k :: 0 <= k < i ==> rs[k].blocked == blocked
      {
        var _, round := Tick();
        cs, rs := cs + [View()], rs + [round];
      }
    }

    method CutFrom(a: Id, groupB: seq<Id>)
      modifies `blocked
      ensures blocked == old(blocked) + CrossLinks([a], groupB)
    {
      for j := 0 to |groupB|
        invariant blocked == old(blocked) + CrossLinks([a], groupB[..j])
      {
        blocked := blocked + {(a, groupB[j])} + {(groupB[j], a)};
        assert groupB[..j + 1] == groupB[..j] + [groupB[j]];
        assert CrossLinks([a], groupB[..j + 1]) == CrossLinks([a], groupB[..j]) + {(a, groupB[j])} + {(groupB[j], a)};
      }
      assert groupB[..|groupB|] == groupB;
    }

    method Partition(groupA: seq<Id>, groupB: seq<Id>)
      modifies `blocked
      ensures blocked == old(blocked) + CrossLinks(groupA, groupB)
    {
      for i := 0 to |groupA|
        invariant blocked == old(blocked) + CrossLinks(groupA[..i], groupB)
      {
        CutFrom(groupA[i], groupB);
        assert groupA[..i + 1] == groupA[..i] + [groupA[i]];
        assert CrossLinks(groupA[..i + 1], groupB) == CrossLinks(groupA[..i], groupB) + CrossLinks([groupA[i]], groupB);
      }
      assert groupA[..|groupA|] == groupA;
    }

    method Isolate(id: Id)
      modifies `blocked
      ensures blocked == old(blocked) + CrossLinks([id], Others(order, id))
    {
      for k := 0 to |order|
        invariant blocked == old(blocked) + CrossLinks([id], Others(order[..k], id))
      {
        var other := order[k];
        assert order[..k + 1][..k] == order[..k];
        if other != id {
          blocked := blocked + {(id, other)} + {(other, id)};
          assert CrossLinks([id], Others(order[..k + 1], id))
              == CrossLinks([id], Others(order[..k], id)) + {(id, other)} + {(other, id)};
        }
      }
      assert order[..|order|] == order;
    }

    method BlockOneWay(from: Id, to: Id)
      modifies `blocked
      ensures blocked == old(blocked) + {(from, to)}
    {
      blocked := blocked + {(from, to)};
    }

    method Heal()
      modifies `blocked
      ensures blocked == {}
    {
      blocked := {};
    }

    /** The members that lead, in order. */
    method Leaders() returns (out: seq<Id>)
      requires Valid()
      ensures out == LeadersAmong(Views(), order) && Ascending(out)
      ensures forall i :: i in out <==> i in order && nodes[i].role.Leader?
    {
      hide Ascending;
      LeadersAscend(Views(), order);
      out := [];
      for n := 0 to |order|
        invariant out == LeadersAmong(Views(), order[..n])
        invariant forall i :: i in out <==> i in order[..n] && nodes[i].role.Leader?
      {
        assert order[..n + 1] == order[..n] + [order[n]];
        if nodes[order[n]].role.Leader? {
          out := out + [order[n]];
        }
      }
      assert order[..|order|] == order;
    }

    /** The highest term any node has seen. */
    method HighestTerm() returns (t: nat)
      requires Valid()
      ensures t == MaxTerm(Views(), order)
    {
      t := 0;
      var rest := nodes.Keys;
      while rest != {}
        invariant rest <= nodes.Keys
        invariant forall i <- nodes.Keys - rest :: nodes[i].term <= t
        invariant t == 0 || exists i <- nodes :: nodes[i].term == t
        decreases rest
      {
        var i :| i in rest;
        if nodes[i].term > t {
          t := nodes[i].term;
        }
        rest := rest - {i};
      }
      MaxTermIsLeast(Views(), order, t);
      MaxTermIsLeast(Views(), order, MaxTerm(Views(), order));
      if i :| i in nodes && nodes[i].term == t {
        assert Views()[i].term <= MaxTerm(Views(), order);
      }
    }
  }
}
