/** Counting elections: the wins and the candidacies of all nodes bracket the highest term. */
module RaftAccounting {
  import opened RaftNode
  import opened RaftProtocol

  /** `ids` lists every member once. */
  ghost predicate Enumerates(ids: seq<Id>, members: set<Id>) {
    && (forall i :: i in ids <==> i in members)
    && (forall j, k :: 0 <= j < k < |ids| ==> ids[j] != ids[k])
  }

  function Total(nodes: map<Id, NodeState>, ids: seq<Id>, f: NodeState -> nat): nat
    requires forall i <- ids :: i in nodes
  {
    if ids == [] then 0 else Total(nodes, ids[..|ids| - 1], f) + f(nodes[ids[|ids| - 1]])
  }

  function MaxTerm(nodes: map<Id, NodeState>, ids: seq<Id>): nat
    requires forall i <- ids :: i in nodes
  {
    if ids == [] then 0
    else
      var rest, last := MaxTerm(nodes, ids[..|ids| - 1]), nodes[ids[|ids| - 1]].term;
      if last > rest then last else rest
  }

  /** MaxTerm is the least upper bound of the terms. */
  lemma {:induction false} MaxTermIsLeast(nodes: map<Id, NodeState>, ids: seq<Id>, bound: nat)
    requires forall i <- ids :: i in nodes
    ensures MaxTerm(nodes, ids) <= bound <==> forall i <- ids :: nodes[i].term <= bound
  {
    if ids != [] {
      MaxTermIsLeast(nodes, ids[..|ids| - 1], bound);
      assert ids == ids[..|ids| - 1] + [ids[|ids| - 1]];
    }
  }

  lemma {:induction false} EnumerationSize(ids: seq<Id>, members: set<Id>)
    requires Enumerates(ids, members)
    ensures |ids| == |members|
  {
    if ids == [] {
      assert members == {};
    } else {
      var last := ids[|ids| - 1];
      assert ids == ids[..|ids| - 1] + [last];
      EnumerationSize(ids[..|ids| - 1], members - {last});
    }
  }

  const WINS: NodeState -> nat := (s: NodeState) => s.electionsWon
  const CANDIDACIES: NodeState -> nat := (s: NodeState) => s.electionsBegun

  /** Changing one node changes a total by that node's difference. */
  lemma {:induction false} TotalUpdate(nodes: map<Id, NodeState>, ids: seq<Id>, f: NodeState -> nat, i: Id, s: NodeState)
    requires forall j <- ids :: j in nodes
    requires forall j, k :: 0 <= j < k < |ids| ==> ids[j] != ids[k]
    ensures i !in ids ==> Total(nodes[i := s], ids, f) == Total(nodes, ids, f)
    ensures i in ids ==> Total(nodes[i := s], ids, f) + f(nodes[i]) == Total(nodes, ids, f) + f(s)
  {
    if ids != [] {
      TotalUpdate(nodes, ids[..|ids| - 1], f, i, s);
      assert ids == ids[..|ids| - 1] + [ids[|ids| - 1]];
    }
  }

  /** No term, held or in flight, exceeds the number of candidacies. */
  ghost predicate TermsEarned(w: World, ids: seq<Id>)
    requires forall i <- ids :: i in w.nodes
  {
    var begun := Total(w.nodes, ids, CANDIDACIES);
    && (forall i <- w.nodes :: w.nodes[i].term <= begun)
    && (forall m <- w.sent :: m.term <= begun)
  }

  lemma {:induction false} UpdateTerms(w: World, i: Id, r: Reaction, got: set<Message>, ids: seq<Id>)
    requires Enumerates(ids, w.nodes.Keys) && TermsEarned(w, ids) && i in w.nodes && got <= w.sent
    requires CountsLocally(w.nodes[i], r.state, got) && SendsLocally(w.nodes[i], r)
    ensures TermsEarned(Update(w, i, r), ids)
  {
    TotalUpdate(w.nodes, ids, CANDIDACIES, i, r.state);
  }

  lemma {:induction false} UpdateWinCount(w: World, wins: set<Win>, i: Id, r: Reaction, ids: seq<Id>)
    requires Enumerates(ids, w.nodes.Keys) && i in w.nodes && Total(w.nodes, ids, WINS) == |wins|
    requires r.state.electionsWon == w.nodes[i].electionsWon + if NewWin(i, r.state) <= wins then 0 else 1
    ensures Total(Update(w, i, r).nodes, ids, WINS) == |wins + NewWin(i, r.state)|
  {
    TotalUpdate(w.nodes, ids, WINS, i, r.state);
    if NewWin(i, r.state) <= wins {
      assert wins + NewWin(i, r.state) == wins;
    }
  }

  lemma {:induction false} UpdateKeepsAccounts(w: World, h: History, i: Id, r: Reaction, got: set<Message>, ids: seq<Id>)
    requires Inv(w, h) && i in w.nodes && got <= w.sent && Local(w.nodes[i], r, got)
    requires Enumerates(ids, w.nodes.Keys) && Total(w.nodes, ids, WINS) == |h.wins| && TermsEarned(w, ids)
    ensures Update(w, i, r).nodes.Keys == w.nodes.Keys
    ensures Total(Update(w, i, r).nodes, ids, WINS) == |Observe(h, Update(w, i, r)).wins|
    ensures TermsEarned(Update(w, i, r), ids)
  {
    assert Observe(h, Update(w, i, r)).wins == h.wins + NewWin(i, r.state) by {
      NothingNewToObserve(w, h);
      ObserveUpdate(w, h, i, r);
    }
    assert NewlyLeads(w.nodes[i], r.state) <==> !(NewWin(i, r.state) <= h.wins) by {
      UpdateRole(w, h, i, r, got);
    }
    UpdateWinCount(w, h.wins, i, r, ids);
    UpdateTerms(w, i, r, got, ids);
  }

  lemma {:induction false} ApplyKeepsAccounts(w: World, h: History, a: Action, ids: seq<Id>)
    requires Inv(w, h) && Enumerates(ids, w.nodes.Keys)
    requires Total(w.nodes, ids, WINS) == |h.wins| && TermsEarned(w, ids)
    ensures Apply(w, a).nodes.Keys == w.nodes.Keys
    ensures Total(Apply(w, a).nodes, ids, WINS) == |Observe(h, Apply(w, a)).wins|
    ensures TermsEarned(Apply(w, a), ids)
  {
    if Enabled(w, a) {
      var r := ReactionTo(w, a);
      UpdateKeepsAccounts(w, h, a.Actor(), r, a.Got(), ids);
    } else {
      ObserveAgain(w, h);
    }
  }

  lemma {:induction false} TotalOfFresh(nodes: map<Id, NodeState>, ids: seq<Id>)
    requires forall i <- ids :: i in nodes && nodes[i].electionsWon == 0 && nodes[i].electionsBegun == 0
    ensures Total(nodes, ids, WINS) == 0 && Total(nodes, ids, CANDIDACIES) == 0
  {
    if ids != [] {
      TotalOfFresh(nodes, ids[..|ids| - 1]);
    }
  }

  lemma {:induction false} RunAccounts(w: World, acts: seq<Action>, ids: seq<Id>)
    requires Initial(w) && Enumerates(ids, w.nodes.Keys)
    ensures After(w, acts).nodes.Keys == w.nodes.Keys
    ensures Total(After(w, acts).nodes, ids, WINS) == |Seen(w, acts).wins|
    ensures TermsEarned(After(w, acts), ids)
  {
    if acts == [] {
      forall i | i in ids
        ensures w.nodes[i].electionsWon == 0 && w.nodes[i].electionsBegun == 0
      {
        assert Started(w.nodes[i], i, w.nodes.Keys);
      }
      TotalOfFresh(w.nodes, ids);
      assert WinsIn(w) == {};
    } else {
      var before := acts[..|acts| - 1];
      RunAccounts(w, before, ids);
      RunInv(w, before);
      ApplyKeepsAccounts(After(w, before), Seen(w, before), acts[|acts| - 1], ids);
    }
  }

  /** Wins of distinct terms between 1 and `top` number at most `top`. */
  lemma {:induction false} WinsFitTerms(wins: set<Win>, top: nat)
    requires forall x <- wins :: 1 <= x.term <= top
    requires forall x <- wins, y <- wins :: x.term == y.term ==> x == y
    ensures |wins| <= top
    decreases top
  {
    if wins != {} {
      var below := set x | x in wins && x.term < top;
      WinsFitTerms(below, top - 1);
      if x :| x in wins && x.term == top {
        assert wins == below + {x};
      } else {
        assert wins == below;
      }
    }
  }

  /** At every moment of every run: elections won <= highest term <= elections begun. */
  lemma {:induction false} ElectionAccounting(w: World, acts: seq<Action>, ids: seq<Id>)
    requires Initial(w) && Enumerates(ids, w.nodes.Keys)
    ensures After(w, acts).nodes.Keys == w.nodes.Keys
    ensures var n := After(w, acts).nodes;
            Total(n, ids, WINS) <= MaxTerm(n, ids) <= Total(n, ids, CANDIDACIES)
  {
    RunInv(w, acts);
    RunAccounts(w, acts, ids);
    var now, h := After(w, acts), Seen(w, acts);
    var top := MaxTerm(now.nodes, ids);
    MaxTermIsLeast(now.nodes, ids, top);
    MaxTermIsLeast(now.nodes, ids, Total(now.nodes, ids, CANDIDACIES));
    forall x | x in h.wins
      ensures 1 <= x.term <= top
    {
      assert Won(now, h, x);
    }
    forall x, y | x in h.wins && y in h.wins && x.term == y.term
      ensures x == y
    {
      OneWinnerPerTerm(now, h, x, y);
    }
    WinsFitTerms(h.wins, top);
  }
}
