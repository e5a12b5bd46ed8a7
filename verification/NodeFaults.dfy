/** The engine's list of injected node faults, under injections, for_ms timers, heals and removals
    that interleave freely between the engine's locked sections. */
module NodeFaults {
  import opened Options

  /** One injection of a fault into a node. */
  datatype Injection = Injection(serial: nat, name: string, node: string, timed: bool)

  /** Which nodes a revert covers. */
  datatype Scope = Everywhere | On(node: string)

  predicate Covers(scope: Scope, node: string) {
    scope.Everywhere? || scope.node == node
  }

  /** The scope a caller names by a node or by "*". */
  function ScopeOf(target: string): Scope {
    if target == "*" then Everywhere else On(target)
  }

  /** The injections a revert takes off the list. */
  function Taken(list: seq<Injection>, scope: Scope): seq<Injection> {
    if list == [] then []
    else
      var i := list[|list| - 1];
      Taken(list[..|list| - 1], scope) + if Covers(scope, i.node) then [i] else []
  }

  /** The injections it leaves there. */
  function Kept(list: seq<Injection>, scope: Scope): seq<Injection> {
    if list == [] then []
    else
      var i := list[|list| - 1];
      Kept(list[..|list| - 1], scope) + if Covers(scope, i.node) then [] else [i]
  }

  /** Whether a removal finds its fault on the list. */
  predicate Matched(list: seq<Injection>, scope: Scope, name: string) {
    exists i <- list :: i.name == name && Covers(scope, i.node)
  }

  /** `arriving`: injected into the node but not yet on the list. `calls`: reverts that are due.
      `jobs`: what each started revert still has to undo. */
  datatype State = State(made: nat, arriving: multiset<Injection>, recorded: multiset<Injection>,
                         injected: seq<Injection>, calls: multiset<Scope>,
                         jobs: seq<seq<Injection>>, reverted: seq<Injection>)

  const START := State(0, multiset{}, multiset{}, [], multiset{}, [], [])

  datatype Step =
    | Inject(name: string, node: string, timed: bool)
    | Note(injection: Injection)
    | Heal(target: string)
    | Remove(target: string, name: string)
    | Begin(scope: Scope)
    | UndoOne(job: nat)

  predicate Enabled(s: State, step: Step) {
    match step
    case Inject(_, _, _) => true
    case Note(i) => i in s.arriving
    case Heal(_) => true
    case Remove(_, _) => true
    case Begin(scope) => scope in s.calls
    case UndoOne(j) => j < |s.jobs| && s.jobs[j] != []
  }

  function Next(s: State, step: Step): State
    requires Enabled(s, step)
  {
    match step
    case Inject(name, node, timed) =>
      s.(made := s.made + 1, arriving := s.arriving + multiset{Injection(s.made, name, node, timed)})
    case Note(i) =>
      s.(arriving := s.arriving - multiset{i}, recorded := s.recorded + multiset{i}, injected := s.injected + [i],
         calls := if i.timed then s.calls + multiset{On(i.node)} else s.calls)
    case Heal(target) => s.(calls := s.calls + multiset{ScopeOf(target)})
    case Remove(target, name) =>
      if Matched(s.injected, ScopeOf(target), name) then s.(calls := s.calls + multiset{ScopeOf(target)}) else s
    case Begin(scope) =>
      s.(calls := s.calls - multiset{scope}, injected := Kept(s.injected, scope), jobs := s.jobs + [Taken(s.injected, scope)])
    case UndoOne(j) =>
      s.(jobs := s.jobs[j := s.jobs[j][1..]], reverted := s.reverted + [s.jobs[j][0]])
  }

  predicate Possible(s: State, steps: seq<Step>)
    decreases |steps|
  {
    steps == [] || (Enabled(s, steps[0]) && Possible(Next(s, steps[0]), steps[1..]))
  }

  function Run(s: State, steps: seq<Step>): State
    requires Possible(s, steps)
    decreases |steps|
  {
    if steps == [] then s else Run(Next(s, steps[0]), steps[1..])
  }

  // ------------------------------------------------------------------
  // Conservation

  /** What all started reverts still have to undo. */
  function BeingReverted(jobs: seq<seq<Injection>>): multiset<Injection> {
    if jobs == [] then multiset{} else BeingReverted(jobs[..|jobs| - 1]) + multiset(jobs[|jobs| - 1])
  }

  predicate Conserved(s: State) {
    s.recorded == multiset(s.injected) + BeingReverted(s.jobs) + multiset(s.reverted)
  }

  /** Injections are told apart by serial numbers not yet given out. */
  ghost predicate Numbered(s: State) {
    && (forall i :: (s.arriving + s.recorded)[i] <= 1)
    && (forall i <- s.arriving + s.recorded :: i.serial < s.made)
    && (forall i, j :: i in s.arriving + s.recorded && j in s.arriving + s.recorded && i.serial == j.serial ==> i == j)
  }

  lemma {:induction false} PartitionConserves(list: seq<Injection>, scope: Scope)
    ensures multiset(Kept(list, scope)) + multiset(Taken(list, scope)) == multiset(list)
  {
    if list != [] {
      PartitionConserves(list[..|list| - 1], scope);
      assert list == list[..|list| - 1] + [list[|list| - 1]];
    }
  }

  lemma {:induction false} PartitionMembers(list: seq<Injection>, scope: Scope, i: Injection)
    ensures i in Kept(list, scope) <==> i in list && !Covers(scope, i.node)
    ensures i in Taken(list, scope) <==> i in list && Covers(scope, i.node)
  {
    if list != [] {
      PartitionMembers(list[..|list| - 1], scope, i);
      assert i in list <==> i in list[..|list| - 1] || i == list[|list| - 1];
    }
  }

  /** A revert parts the list by node: every injection goes to one side, and none is lost. */
  lemma {:induction false} Partition(list: seq<Injection>, scope: Scope)
    ensures multiset(Kept(list, scope)) + multiset(Taken(list, scope)) == multiset(list)
    ensures forall i :: i in Kept(list, scope) <==> i in list && !Covers(scope, i.node)
    ensures forall i :: i in Taken(list, scope) <==> i in list && Covers(scope, i.node)
  {
    hide Kept, Taken;
    PartitionConserves(list, scope);
    forall i
      ensures i in Kept(list, scope) <==> i in list && !Covers(scope, i.node)
      ensures i in Taken(list, scope) <==> i in list && Covers(scope, i.node)
    {
      PartitionMembers(list, scope, i);
    }
  }

  lemma PartitionOfOne(i: Injection, scope: Scope)
    ensures Kept([i], scope) == (if Covers(scope, i.node) then [] else [i])
    ensures Taken([i], scope) == (if Covers(scope, i.node) then [i] else [])
  {
    assert [i][..0] == [];
  }

  lemma {:induction false} KeptConcat(a: seq<Injection>, b: seq<Injection>, scope: Scope)
    ensures Kept(a + b, scope) == Kept(a, scope) + Kept(b, scope)
  {
    hide Covers;
    if b == [] {
      assert a + b == a;
    } else {
      KeptConcat(a, b[..|b| - 1], scope);
      assert (a + b)[..|a + b| - 1] == a + b[..|b| - 1];
    }
  }

  lemma {:induction false} TakenConcat(a: seq<Injection>, b: seq<Injection>, scope: Scope)
    ensures Taken(a + b, scope) == Taken(a, scope) + Taken(b, scope)
  {
    hide Covers;
    if b == [] {
      assert a + b == a;
    } else {
      TakenConcat(a, b[..|b| - 1], scope);
      assert (a + b)[..|a + b| - 1] == a + b[..|b| - 1];
    }
  }

  /** Both sides keep the order of the list. */
  lemma {:induction false} PartitionInOrder(a: seq<Injection>, b: seq<Injection>, scope: Scope)
    ensures Kept(a + b, scope) == Kept(a, scope) + Kept(b, scope)
    ensures Taken(a + b, scope) == Taken(a, scope) + Taken(b, scope)
  {
    hide Kept, Taken;
    KeptConcat(a, b, scope);
    TakenConcat(a, b, scope);
  }

  /** "*" names every node, any other target one. */
  lemma ScopeLaw(target: string, node: string)
    ensures Covers(ScopeOf(target), node) <==> target == "*" || node == target
  {
  }

  lemma {:induction false} UndoingOne(jobs: seq<seq<Injection>>, j: nat)
    requires j < |jobs| && jobs[j] != []
    ensures BeingReverted(jobs) == BeingReverted(jobs[j := jobs[j][1..]]) + multiset{jobs[j][0]}
  {
    var n, after := |jobs| - 1, jobs[j := jobs[j][1..]];
    if j == n {
      assert after[..n] == jobs[..n];
      assert jobs[n] == [jobs[n][0]] + jobs[n][1..];
    } else {
      UndoingOne(jobs[..n], j);
      assert after[..n] == jobs[..n][j := jobs[j][1..]];
    }
  }

  lemma JobAdded(jobs: seq<seq<Injection>>, job: seq<Injection>)
    ensures BeingReverted(jobs + [job]) == BeingReverted(jobs) + multiset(job)
  {
    assert (jobs + [job])[..|jobs|] == jobs;
  }

  lemma {:induction false} BeginConserves(s: State, scope: Scope)
    requires Conserved(s) && scope in s.calls
    ensures Conserved(Next(s, Begin(scope)))
  {
    hide Kept, Taken, BeingReverted;
    PartitionConserves(s.injected, scope);
    JobAdded(s.jobs, Taken(s.injected, scope));
  }

  lemma {:induction false} UndoConserves(s: State, j: nat)
    requires Conserved(s) && Enabled(s, UndoOne(j))
    ensures Conserved(Next(s, UndoOne(j)))
  {
    hide BeingReverted;
    UndoingOne(s.jobs, j);
    assert multiset(s.reverted + [s.jobs[j][0]]) == multiset(s.reverted) + multiset{s.jobs[j][0]};
  }

  lemma {:induction false} StepConserves(s: State, step: Step)
    requires Conserved(s) && Enabled(s, step)
    ensures Conserved(Next(s, step))
  {
    match step
    case Begin(scope) => BeginConserves(s, scope);
    case UndoOne(j) => UndoConserves(s, j);
    case Note(i) =>
      hide BeingReverted;
      assert multiset(s.injected + [i]) == multiset(s.injected) + multiset{i};
    case _ =>
  }

  lemma {:induction false} StepNumbers(s: State, step: Step)
    requires Numbered(s) && Enabled(s, step)
    ensures Numbered(Next(s, step))
  {
    var t := Next(s, step);
    match step
    case Inject(name, node, timed) =>
      assert t.arriving + t.recorded == s.arriving + s.recorded + multiset{Injection(s.made, name, node, timed)};
    case Note(i) =>
      assert t.arriving + t.recorded == s.arriving + s.recorded;
    case _ =>
  }

  lemma {:induction false} RunConserves(s: State, steps: seq<Step>)
    requires Conserved(s) && Numbered(s) && Possible(s, steps)
    ensures Conserved(Run(s, steps)) && Numbered(Run(s, steps))
    decreases |steps|
  {
    hide Conserved, Numbered, Enabled, Next;
    if steps != [] {
      StepConserves(s, steps[0]);
      StepNumbers(s, steps[0]);
      RunConserves(Next(s, steps[0]), steps[1..]);
    }
  }

  /** In every interleaving each recorded injection is outstanding, being reverted or reverted, in
      exactly one of these ways and exactly once. */
  lemma {:induction false} ExactlyOnce(steps: seq<Step>)
    requires Possible(START, steps)
    ensures var s := Run(START, steps);
            && s.recorded == multiset(s.injected) + BeingReverted(s.jobs) + multiset(s.reverted)
            && (forall i :: i in s.recorded ==>
                 multiset(s.injected)[i] + BeingReverted(s.jobs)[i] + multiset(s.reverted)[i] == 1)
            && (forall p, q :: 0 <= p < q < |s.reverted| ==> s.reverted[p] != s.reverted[q])
  {
    RunConserves(START, steps);
    var s := Run(START, steps);
    forall i | i in s.recorded
      ensures s.recorded[i] == 1
    {
      assert (s.arriving + s.recorded)[i] <= 1;
    }
    forall p, q | 0 <= p < q < |s.reverted|
      ensures s.reverted[p] != s.reverted[q]
    {
      SeenTwice(s.reverted, p, q);
      assert s.recorded[s.reverted[p]] <= 1 by {
        assert (s.arriving + s.recorded)[s.reverted[p]] <= 1;
      }
    }
  }

  lemma {:induction false} SeenTwice(xs: seq<Injection>, p: nat, q: nat)
    requires p < q < |xs|
    ensures xs[p] == xs[q] ==> multiset(xs)[xs[p]] >= 2
  {
    assert xs == xs[..q] + [xs[q]] + xs[q + 1..];
    assert xs[..q][p] == xs[p];
    assert xs[p] in multiset(xs[..q]);
  }

  // ------------------------------------------------------------------
  // What a revert achieves

  lemma {:induction false} StepKeepsPromise(s: State, step: Step, k: nat, i: Injection)
    requires Enabled(s, step) && k < |s.jobs| && (i in s.jobs[k] || i in s.reverted)
    ensures var t := Next(s, step); k < |t.jobs| && (i in t.jobs[k] || i in t.reverted)
  {
    if step.UndoOne? {
      var job := s.jobs[step.job];
      assert job == [job[0]] + job[1..];
    }
  }

  lemma {:induction false} RunKeepsPromise(s: State, steps: seq<Step>, k: nat, i: Injection)
    requires Possible(s, steps) && k < |s.jobs| && (i in s.jobs[k] || i in s.reverted)
    ensures var t := Run(s, steps); k < |t.jobs| && (i in t.jobs[k] || i in t.reverted)
    decreases |steps|
  {
    hide Next, Enabled;
    if steps != [] {
      StepKeepsPromise(s, steps[0], k, i);
      RunKeepsPromise(Next(s, steps[0]), steps[1..], k, i);
    }
  }

  /** Whatever else happens meanwhile, once a revert has worked through its list every injection that
      was outstanding in its scope when it began has been reverted. */
  lemma {:induction false} RevertIsComplete(s: State, scope: Scope, steps: seq<Step>, i: Injection)
    requires scope in s.calls && Possible(Next(s, Begin(scope)), steps)
    requires i in s.injected && Covers(scope, i.node)
    ensures var t := Run(Next(s, Begin(scope)), steps);
            |s.jobs| < |t.jobs| && (t.jobs[|s.jobs|] == [] ==> i in t.reverted)
  {
    Partition(s.injected, scope);
    RunKeepsPromise(Next(s, Begin(scope)), steps, |s.jobs|, i);
  }

  /** Undoing a whole job, one step at a time. */
  function UndoAll(j: nat, n: nat): seq<Step> {
    if n == 0 then [] else [UndoOne(j)] + UndoAll(j, n - 1)
  }

  lemma {:induction false} UndoAllWorks(s: State, j: nat)
    requires j < |s.jobs|
    ensures Possible(s, UndoAll(j, |s.jobs[j]|))
    ensures Run(s, UndoAll(j, |s.jobs[j]|)) == s.(jobs := s.jobs[j := []], reverted := s.reverted + s.jobs[j])
    decreases |s.jobs[j]|
  {
    var job := s.jobs[j];
    if job == [] {
      assert s.jobs[j := []] == s.jobs && s.reverted + job == s.reverted;
    } else {
      var next, steps := Next(s, UndoOne(j)), UndoAll(j, |job|);
      UndoAllWorks(next, j);
      assert steps[0] == UndoOne(j) && steps[1..] == UndoAll(j, |job| - 1);
      assert next.reverted + job[1..] == s.reverted + job;
      assert next.jobs[j := []] == s.jobs[j := []];
    }
  }

  predicate Drained(jobs: seq<seq<Injection>>) {
    forall j :: 0 <= j < |jobs| ==> jobs[j] == []
  }

  lemma {:induction false} DrainedIsEmpty(jobs: seq<seq<Injection>>)
    requires Drained(jobs)
    ensures BeingReverted(jobs) == multiset{}
  {
    if jobs != [] {
      DrainedIsEmpty(jobs[..|jobs| - 1]);
    }
  }

  lemma {:induction false} EverythingTaken(list: seq<Injection>)
    ensures Kept(list, Everywhere) == [] && Taken(list, Everywhere) == list
  {
    if list != [] {
      EverythingTaken(list[..|list| - 1]);
    }
  }

  /** The steps of a heal of every node with nothing going on beside it. */
  function HealAlone(s: State): seq<Step> {
    [Heal("*"), Begin(Everywhere)] + UndoAll(|s.jobs|, |s.injected|)
  }

  lemma {:induction false} HealAloneRuns(s: State)
    ensures Possible(s, HealAlone(s))
    ensures Run(s, HealAlone(s)) == s.(injected := [], jobs := s.jobs + [[]], reverted := s.reverted + s.injected)
  {
    var steps := HealAlone(s);
    var called := Next(s, Heal("*"));
    var begun := Next(called, Begin(Everywhere));
    EverythingTaken(s.injected);
    assert called.calls - multiset{Everywhere} == s.calls;
    assert begun.jobs[|s.jobs|] == s.injected;
    UndoAllWorks(begun, |s.jobs|);
    assert begun.jobs[|s.jobs| := []] == s.jobs + [[]];
    assert steps[1..][1..] == UndoAll(|s.jobs|, |s.injected|);
    assert steps[0] == Heal("*") && steps[1..][0] == Begin(Everywhere);
  }

  /** After any run that leaves no revert under way, a heal of every node on its own reverts every
      injection ever recorded. */
  lemma {:induction false} HealRevertsAll(steps: seq<Step>)
    requires Possible(START, steps) && Drained(Run(START, steps).jobs)
    ensures var s := Run(START, steps);
            && Possible(s, HealAlone(s))
            && var t := Run(s, HealAlone(s));
               t.injected == [] && t.recorded == s.recorded && multiset(t.reverted) == s.recorded
  {
    var s := Run(START, steps);
    RunConserves(START, steps);
    DrainedIsEmpty(s.jobs);
    HealAloneRuns(s);
  }

  /** Of a heal on its own after any run that leaves no revert under way: it leaves no fault in any
      node exactly when no injection was waiting to be recorded. */
  lemma {:induction false} HealLeavesNothing(steps: seq<Step>)
    requires Possible(START, steps) && Drained(Run(START, steps).jobs)
    ensures var s := Run(START, steps);
            && Possible(s, HealAlone(s))
            && var t := Run(s, HealAlone(s));
               (forall i :: i in t.arriving + t.recorded ==> i in t.reverted) <==> s.arriving == multiset{}
  {
    hide Numbered, Run, Possible, BeingReverted, Drained;
    var s := Run(START, steps);
    HealRevertsAll(steps);
    HealAloneRuns(s);
    StartConserves();
    RunConserves(START, steps);
    var t := Run(s, HealAlone(s));
    forall i | i in s.arriving
      ensures i !in t.reverted
    {
      ArrivingNotRecorded(s, i);
      assert i in t.reverted <==> i in multiset(t.reverted);
    }
    forall i | i in t.recorded
      ensures i in t.reverted
    {
      assert i in multiset(t.reverted);
    }
    if s.arriving != multiset{} {
      var i :| i in s.arriving;
      assert i in t.arriving + t.recorded;
    }
  }

  lemma StartConserves()
    ensures Conserved(START) && Numbered(START)
  {
  }

  lemma ArrivingNotRecorded(s: State, i: Injection)
    requires Numbered(s) && i in s.arriving
    ensures i !in s.recorded
  {
    assert (s.arriving + s.recorded)[i] <= 1;
  }

  /** One more step at the end of a run. */
  lemma {:induction false} RunMore(s: State, steps: seq<Step>, x: Step)
    requires Possible(s, steps) && Enabled(Run(s, steps), x)
    ensures Possible(s, steps + [x]) && Run(s, steps + [x]) == Next(Run(s, steps), x)
    decreases |steps|
  {
    hide Next, Enabled;
    var all := steps + [x];
    if steps == [] {
      assert all[0] == x && all[1..] == [];
    } else {
      RunMore(Next(s, steps[0]), steps[1..], x);
      assert all[0] == steps[0] && all[1..] == steps[1..] + [x];
    }
  }

  /** A run in which a heal comes between an injection and its record: the fault stays in the node. */
  lemma {:induction false} HealMissesArrival(i: Injection)
    requires i.serial == 0 && !i.timed
    ensures var steps := [Inject(i.name, i.node, false)] + [Heal("*")] + [Begin(Everywhere)] + [Note(i)];
            && Possible(START, steps)
            && var t := Run(START, steps);
               t.injected == [i] && t.calls == multiset{} && t.reverted == [] && Drained(t.jobs)
  {
    hide Run, Possible;
    var a, b := [Inject(i.name, i.node, false)], [Inject(i.name, i.node, false)] + [Heal("*")];
    OneStep(a[0]);
    RunMore(START, a, Heal("*"));
    RunMore(START, b, Begin(Everywhere));
    RunMore(START, b + [Begin(Everywhere)], Note(i));
  }

  lemma OneStep(x: Step)
    requires Enabled(START, x)
    ensures Possible(START, [x]) && Run(START, [x]) == Next(START, x)
  {
    assert [x][1..] == [];
  }

  // ------------------------------------------------------------------
  // Removing one fault

  /** The list after a removal with nothing beside it. */
  function Removed(list: seq<Injection>, scope: Scope, name: string): seq<Injection> {
    if Matched(list, scope, name) then Kept(list, scope) else list
  }

  /** Of the injections with other names, all stay. */
  predicate KeepsOthers(list: seq<Injection>, after: seq<Injection>, name: string) {
    forall i <- list :: i.name != name ==> i in after
  }

  /** A removal reverts every fault of that name in its scope and touches nothing outside it, but it
      spares the other faults exactly when it finds nothing or finds only that fault there. */
  lemma {:induction false} RemovalLaw(list: seq<Injection>, scope: Scope, name: string)
    ensures !Matched(Removed(list, scope, name), scope, name)
    ensures (forall i <- list :: Covers(scope, i.node) ==> i.name != name) ==> Removed(list, scope, name) == list
    ensures (exists i <- list :: Covers(scope, i.node) && i.name == name) ==> forall i <- Removed(list, scope, name) :: !Covers(scope, i.node)
    ensures forall i <- list :: !Covers(scope, i.node) ==> i in Removed(list, scope, name)
    ensures KeepsOthers(list, Removed(list, scope, name), name) <==>
            !Matched(list, scope, name) || (forall i <- list :: Covers(scope, i.node) ==> i.name == name)
  {
    Partition(list, scope);
  }

  /** Removing the clock skew of a node also revives its frozen process. */
  lemma RemovalTakesOthers()
    ensures var list := [Injection(0, "clock_skew", "n", false), Injection(1, "zombie", "n", false)];
            Removed(list, On("n"), "clock_skew") == []
  {
    var list := [Injection(0, "clock_skew", "n", false), Injection(1, "zombie", "n", false)];
    assert list[0] in list;
    assert list[..1][..0] == [];
    assert Kept(list[..1], On("n")) == [];
  }

  /** A timer armed by injection `i`, which may be gone by now, spares all others exactly when no other
      is on the same node. */
  lemma {:induction false} TimerLaw(list: seq<Injection>, i: Injection)
    ensures i !in Kept(list, On(i.node))
    ensures (forall j <- list :: j != i ==> j in Kept(list, On(i.node))) <==> (forall j <- list :: j.node == i.node ==> j == i)
  {
    Partition(list, On(i.node));
  }

  /** How often a revert of the scope begins in a run. */
  function Begun(steps: seq<Step>, scope: Scope): nat {
    if steps == [] then 0 else (if steps[0] == Begin(scope) then 1 else 0) + Begun(steps[1..], scope)
  }

  /** A step makes a revert of the scope due: a heal of it, a removal that matches in it, or the record
      of a timed injection on its node. */
  predicate Raises(s: State, step: Step, scope: Scope) {
    match step
    case Heal(target) => ScopeOf(target) == scope
    case Remove(target, name) => ScopeOf(target) == scope && Matched(s.injected, scope, name)
    case Note(i) => i.timed && On(i.node) == scope
    case _ => false
  }

  function Raised(s: State, steps: seq<Step>, scope: Scope): nat
    requires Possible(s, steps)
    decreases |steps|
  {
    if steps == [] then 0 else (if Raises(s, steps[0], scope) then 1 else 0) + Raised(Next(s, steps[0]), steps[1..], scope)
  }

  lemma {:induction false} StepCounts(s: State, step: Step, scope: Scope)
    requires Enabled(s, step)
    ensures Next(s, step).calls[scope] + (if step == Begin(scope) then 1 else 0) ==
            s.calls[scope] + if Raises(s, step, scope) then 1 else 0
  {
    hide Kept, Taken, Matched, Covers;
    match step
    case Begin(other) => OneLess(s.calls, other, scope);
    case Heal(target) => OneMore(s.calls, ScopeOf(target), scope);
    case Remove(target, _) => OneMore(s.calls, ScopeOf(target), scope);
    case Note(i) => OneMore(s.calls, On(i.node), scope);
    case _ =>
  }

  lemma OneMore(m: multiset<Scope>, x: Scope, y: Scope)
    ensures (m + multiset{x})[y] == m[y] + if x == y then 1 else 0
  {
  }

  lemma OneLess(m: multiset<Scope>, x: Scope, y: Scope)
    requires x in m
    ensures (m - multiset{x})[y] + (if x == y then 1 else 0) == m[y]
  {
  }

  /** Every call is raised once and begins once: no heal, removal or revert ever uses up another call. */
  lemma {:induction false} CallsAreCounted(s: State, steps: seq<Step>, scope: Scope)
    requires Possible(s, steps)
    ensures Run(s, steps).calls[scope] + Begun(steps, scope) == s.calls[scope] + Raised(s, steps, scope)
    decreases |steps|
  {
    hide Next, Raises, Enabled;
    if steps != [] {
      StepCounts(s, steps[0], scope);
      CallsAreCounted(Next(s, steps[0]), steps[1..], scope);
    }
  }

  /** No heal or removal cancels a timer, not even one of the timer's own node: as long as no more
      reverts of the node have begun than were raised since, a timer due at the start is still due, and
      when it fires it takes every injection on its node off the list. */
  lemma {:induction false} TimerStaysDue(s: State, steps: seq<Step>, node: string)
    requires Possible(s, steps) && On(node) in s.calls
    ensures Begun(steps, On(node)) <= Raised(s, steps, On(node)) ==>
              var t := Run(s, steps);
              Enabled(t, Begin(On(node))) && forall i <- Next(t, Begin(On(node))).injected :: i.node != node
  {
    hide Run, Begun, Raised, Kept, Taken;
    var t := Run(s, steps);
    CallsAreCounted(s, steps, On(node));
    Partition(t.injected, On(node));
  }

  /** A timed fault is injected and healed; its timer is still due. */
  function HealedEarly(node: string): seq<Step> {
    [Inject("zombie", node, true)] + [Note(Injection(0, "zombie", node, true))] + [Heal("*")] + [Begin(Everywhere)] + [UndoOne(0)]
  }

  lemma {:induction false} HealedEarlyRuns(node: string)
    ensures var first := Injection(0, "zombie", node, true);
            && Possible(START, HealedEarly(node))
            && Run(START, HealedEarly(node)) == State(1, multiset{}, multiset{first}, [], multiset{On(node)}, [[]], [first])
  {
    hide Run, Possible, Matched, Kept, Taken;
    var first := Injection(0, "zombie", node, true);
    TakenAlone(first, Everywhere);
    var a := [Inject("zombie", node, true)] + [Note(first)];
    OneStep(Inject("zombie", node, true));
    RunMore(START, [Inject("zombie", node, true)], Note(first));
    assert Run(START, a) == State(1, multiset{}, multiset{first}, [first], multiset{On(node)}, [], []);
    RunMore(START, a, Heal("*"));
    RunMore(START, a + [Heal("*")], Begin(Everywhere));
    var b := a + [Heal("*")] + [Begin(Everywhere)];
    assert Run(START, b) == State(1, multiset{}, multiset{first}, [], multiset{On(node)}, [[first]], []);
    RunMore(START, b, UndoOne(0));
    assert [first][1..] == [] && [[first]][0 := []] == [[]] && [] + [first] == [first];
  }

  /** A stale timer: after that, another fault is injected into the node, and the timer of the first
      takes it off the list. */
  lemma {:induction false} StaleTimerTakesAnother(node: string)
    ensures var second := Injection(1, "clock_skew", node, false);
            var steps := HealedEarly(node) + [Inject("clock_skew", node, false)] + [Note(second)] + [Begin(On(node))];
            && Possible(START, steps)
            && var t := Run(START, steps); t.injected == [] && t.jobs == [[], [second]]
  {
    hide Run, Possible, Matched, Kept, Taken, HealedEarly;
    var second := Injection(1, "clock_skew", node, false);
    TakenAlone(second, On(node));
    HealedEarlyRuns(node);
    var a := HealedEarly(node) + [Inject("clock_skew", node, false)];
    RunMore(START, HealedEarly(node), Inject("clock_skew", node, false));
    RunMore(START, a, Note(second));
    var noted := Run(START, a + [Note(second)]);
    assert noted.injected == [second] && noted.jobs == [[]] && On(node) in noted.calls;
    RunMore(START, a + [Note(second)], Begin(On(node)));
  }

  lemma TakenAlone(i: Injection, scope: Scope)
    requires Covers(scope, i.node)
    ensures Kept([i], scope) == [] && Taken([i], scope) == [i]
  {
    assert [i][..0] == [];
  }

  // ------------------------------------------------------------------
  // The engine

  datatype Outcome = Done | NoConfig | UnknownNode | InjectFailed(node: string)

  /** What the engine sees of a proxy: its two flags and the names in its registry. */
  datatype Proxy = Proxy(partitioned: bool, crashed: bool, faults: set<string>)

  predicate Has(p: Proxy, name: string) {
    if name == "partition" then p.partitioned else if name == "crash" then p.crashed else name in p.faults
  }

  function Without(p: Proxy, name: string): Proxy {
    if name == "partition" then p.(partitioned := false)
    else if name == "crash" then p.(crashed := false)
    else p.(faults := p.faults - {name})
  }

  /** What removing a name means on the fields of a proxy, and when it finds something there. */
  lemma RemovalByField(p: Proxy, name: string)
    ensures name == "partition" ==> Without(p, name) == Proxy(false, p.crashed, p.faults) && (Has(p, name) <==> p.partitioned)
    ensures name == "crash" ==> Without(p, name) == Proxy(p.partitioned, false, p.faults) && (Has(p, name) <==> p.crashed)
    ensures name != "partition" && name != "crash" ==>
              Without(p, name) == Proxy(p.partitioned, p.crashed, p.faults - {name}) && (Has(p, name) <==> name in p.faults)
    ensures !Has(Without(p, name), name) && (!Has(p, name) ==> Without(p, name) == p)
  {
    assert "partition"[0] != "crash"[0];
  }

  const HEALTHY := Proxy(false, false, {})

  /** The names outstanding on one node, oldest first. */
  function NamesOn(list: seq<Injection>, node: string): seq<string> {
    if list == [] then []
    else
      var i := list[|list| - 1];
      NamesOn(list[..|list| - 1], node) + if i.node == node then [i.name] else []
  }

  lemma NamesOfOne(i: Injection, node: string)
    ensures NamesOn([i], node) == if i.node == node then [i.name] else []
  {
    assert [i][..0] == [];
  }

  /** One name per injection on the node, in the order of the list. */
  lemma {:induction false} NamesInOrder(a: seq<Injection>, b: seq<Injection>, node: string)
    ensures NamesOn(a + b, node) == NamesOn(a, node) + NamesOn(b, node)
  {
    if b == [] {
      assert a + b == a;
    } else {
      NamesInOrder(a, b[..|b| - 1], node);
      assert (a + b)[..|a + b| - 1] == a + b[..|b| - 1];
    }
  }

  /** The nodes a step reaches before the first whose injection fails. */
  function Reached(nodes: seq<string>, works: string -> bool): (r: seq<string>)
    ensures r <= nodes && (forall n <- r :: works(n))
    ensures |r| < |nodes| ==> !works(nodes[|r|])
  {
    if nodes == [] || !works(nodes[0]) then [] else [nodes[0]] + Reached(nodes[1..], works)
  }

  function Numbering(made: nat, nodes: seq<string>, name: string, timed: bool): seq<Injection> {
    seq(|nodes|, k requires 0 <= k < |nodes| => Injection(made + k, name, nodes[k], timed))
  }

  /** The protocol steps of `RevertNodeFaults` with nothing beside it. */
  function RevertAlone(s: State, scope: Scope): seq<Step> {
    [Begin(scope)] + UndoAll(|s.jobs|, |Taken(s.injected, scope)|)
  }

  /** `RevertNodeFaults` on its own is a revert that begins and works through its list: list and
      reverted injections afterwards are those the method states. */
  lemma {:induction false} RevertAloneRuns(s: State, scope: Scope)
    requires scope in s.calls
    ensures Possible(s, RevertAlone(s, scope))
    ensures Run(s, RevertAlone(s, scope)) ==
            s.(calls := s.calls - multiset{scope}, injected := Kept(s.injected, scope), jobs := s.jobs + [[]],
               reverted := s.reverted + Taken(s.injected, scope))
  {
    hide Kept, Taken;
    var steps, begun := RevertAlone(s, scope), Next(s, Begin(scope));
    assert begun.jobs[|s.jobs|] == Taken(s.injected, scope);
    UndoAllWorks(begun, |s.jobs|);
    assert begun.jobs[|s.jobs| := []] == s.jobs + [[]];
    assert steps[0] == Begin(scope) && steps[1..] == UndoAll(|s.jobs|, |Taken(s.injected, scope)|);
  }

  /** The protocol steps of `InjectEach` with nothing beside it. */
  function InjectAlone(made: nat, nodes: seq<string>, name: string, timed: bool): seq<Step>
    decreases |nodes|
  {
    if nodes == [] then []
    else
      [Inject(name, nodes[0], timed), Note(Injection(made, name, nodes[0], timed))]
      + InjectAlone(made + 1, nodes[1..], name, timed)
  }

  /** From `s` to `t` exactly these injections were made and recorded. */
  ghost predicate Adds(s: State, t: State, list: seq<Injection>) {
    && t.injected == s.injected + list && t.recorded == s.recorded + multiset(list)
    && t.made == s.made + |list| && t.arriving == s.arriving && t.jobs == s.jobs && t.reverted == s.reverted
  }

  lemma AddsCompose(s: State, t: State, u: State, a: seq<Injection>, b: seq<Injection>)
    requires Adds(s, t, a) && Adds(t, u, b)
    ensures Adds(s, u, a + b)
  {
    assert s.injected + a + b == s.injected + (a + b);
  }

  lemma {:induction false} InjectOne(s: State, name: string, node: string, timed: bool)
    ensures var i := Injection(s.made, name, node, timed);
            var a := Next(s, Inject(name, node, timed));
            Enabled(a, Note(i)) && Adds(s, Next(a, Note(i)), [i]) && Next(a, Note(i)).made == s.made + 1
  {
    var i := Injection(s.made, name, node, timed);
    assert s.arriving + multiset{i} - multiset{i} == s.arriving && multiset([i]) == multiset{i};
  }

  /** `InjectEach` on its own is an injection and its record for each node it reaches: list and serial
      numbers afterwards are those the method states. */
  lemma {:induction false} InjectAloneRuns(s: State, nodes: seq<string>, name: string, timed: bool)
    ensures Possible(s, InjectAlone(s.made, nodes, name, timed))
    ensures Adds(s, Run(s, InjectAlone(s.made, nodes, name, timed)), Numbering(s.made, nodes, name, timed))
    decreases |nodes|
  {
    hide Next, Enabled, Run, Possible, Numbering, Adds;
    if nodes == [] {
      AddsNothing(s, name, timed);
    } else {
      var i := Injection(s.made, name, nodes[0], timed);
      var x, y := Inject(name, nodes[0], timed), Note(i);
      InjectOne(s, name, nodes[0], timed);
      InjectEnabled(s, name, nodes[0], timed);
      var b := Next(Next(s, x), y);
      var rest := InjectAlone(b.made, nodes[1..], name, timed);
      InjectAloneRuns(b, nodes[1..], name, timed);
      RunTwo(s, x, y, rest);
      AddsCompose(s, b, Run(b, rest), [i], Numbering(b.made, nodes[1..], name, timed));
      NumberingSplit(s.made, nodes, name, timed);
    }
  }

  lemma AddsNothing(s: State, name: string, timed: bool)
    ensures Possible(s, []) && Run(s, []) == s && Adds(s, s, Numbering(s.made, [], name, timed))
  {
  }

  lemma NumberingSplit(made: nat, nodes: seq<string>, name: string, timed: bool)
    requires nodes != []
    ensures Numbering(made, nodes, name, timed) ==
            [Injection(made, name, nodes[0], timed)] + Numbering(made + 1, nodes[1..], name, timed)
  {
  }

  lemma InjectEnabled(s: State, name: string, node: string, timed: bool)
    ensures Enabled(s, Inject(name, node, timed))
  {
  }

  lemma RunTwo(s: State, x: Step, y: Step, rest: seq<Step>)
    requires Enabled(s, x) && Enabled(Next(s, x), y) && Possible(Next(Next(s, x), y), rest)
    ensures Possible(s, [x, y] + rest) && Run(s, [x, y] + rest) == Run(Next(Next(s, x), y), rest)
  {
    hide Next, Enabled;
    var steps := [x, y] + rest;
    assert steps[0] == x && steps[1..] == [y] + rest && steps[1..][0] == y && steps[1..][1..] == rest;
  }

  class Engine {
    var proxies: map<string, Proxy>
    const config: Option<seq<string>>
    var injected: seq<Injection>
    var reverted: seq<Injection>
    var made: nat

    constructor (proxies: map<string, Proxy>, config: Option<seq<string>>)
      ensures this.proxies == proxies && this.config == config && injected == [] && reverted == [] && made == 0
    {
      this.proxies, this.config := proxies, config;
      injected, reverted, made := [], [], 0;
    }

    /** Injects into each node in turn and stops at the first failure; what was injected before it
        stays on the list. */
    method RunNodeFault(target: string, name: string, timed: bool, works: string -> bool) returns (outcome: Outcome)
      modifies `injected, `made
      ensures outcome.NoConfig? <==> config.None?
      ensures outcome.UnknownNode? <==> config.Some? && target != "*" && target !in config.value
      ensures (outcome.NoConfig? || outcome.UnknownNode?) ==> injected == old(injected) && made == old(made)
      ensures config.Some? && (target == "*" || target in config.value) ==>
                var nodes := if target == "*" then config.value else [target];
                var reached := Reached(nodes, works);
                && injected == old(injected) + Numbering(old(made), reached, name, timed)
                && made == old(made) + |reached|
                && outcome == if reached == nodes then Done else InjectFailed(nodes[|reached|])
    {
      if config.None? {
        return NoConfig;
      }
      if target == "*" {
        outcome := InjectEach(config.value, name, timed, works);
      } else if target in config.value {
        outcome := InjectEach([target], name, timed, works);
      } else {
        outcome := UnknownNode;
      }
    }

    method InjectEach(nodes: seq<string>, name: string, timed: bool, works: string -> bool) returns (outcome: Outcome)
      modifies `injected, `made
      ensures var reached := Reached(nodes, works);
              && injected == old(injected) + Numbering(old(made), reached, name, timed)
              && made == old(made) + |reached|
              && outcome == if reached == nodes then Done else InjectFailed(nodes[|reached|])
    {
      hide Reached;
      ghost var reached := Reached(nodes, works);
      for k := 0 to |nodes|
        invariant k <= |reached|
        invariant made == old(made) + k
        invariant injected == old(injected) + Numbering(old(made), nodes[..k], name, timed)
      {
        if !works(nodes[k]) {
          assert reached == nodes[..k];
          return InjectFailed(nodes[k]);
        }
        injected := injected + [Injection(made, name, nodes[k], timed)];
        made := made + 1;
        assert nodes[..k + 1] == nodes[..k] + [nodes[k]];
      }
      assert reached == nodes[..|nodes|] && nodes[..|nodes|] == nodes;
      outcome := Done;
    }

    method RevertNodeFaults(scope: Scope)
      modifies `injected, `reverted
      ensures injected == Kept(old(injected), scope)
      ensures reverted == old(reverted) + Taken(old(injected), scope)
    {
      var keep, revert := [], [];
      for k := 0 to |injected|
        invariant keep == Kept(injected[..k], scope) && revert == Taken(injected[..k], scope)
        invariant injected == old(injected) && reverted == old(reverted)
      {
        assert injected[..k + 1][..k] == injected[..k];
        if Covers(scope, injected[k].node) {
          revert := revert + [injected[k]];
        } else {
          keep := keep + [injected[k]];
        }
      }
      assert injected[..|injected|] == injected;
      injected := keep;
      for k := 0 to |revert|
        invariant injected == keep && reverted == old(reverted) + revert[..k]
      {
        reverted := reverted + [revert[k]];
      }
    }

    /** Some(removed), or None for a node without a proxy. */
    method RemoveFault(target: string, name: string) returns (removed: Option<bool>)
      modifies `proxies, `injected, `reverted
      ensures removed.None? <==> target != "*" && target !in old(proxies)
      ensures removed.None? ==> proxies == old(proxies) && injected == old(injected) && reverted == old(reverted)
      ensures removed.Some? ==>
                && proxies.Keys == old(proxies).Keys
                && (forall n <- proxies :: proxies[n] ==
                     if target == "*" || n == target then Without(old(proxies)[n], name) else old(proxies)[n])
                && injected == Removed(old(injected), ScopeOf(target), name)
                && reverted == old(reverted) + (if Matched(old(injected), ScopeOf(target), name)
                                                then Taken(old(injected), ScopeOf(target)) else [])
                && (removed.value <==> (exists n <- old(proxies) :: (target == "*" || n == target) && Has(old(proxies)[n], name))
                                       || Matched(old(injected), ScopeOf(target), name))
      ensures removed.Some? ==> forall n <- proxies :: target == "*" || n == target ==>
                var was, now := old(proxies)[n], proxies[n];
                && now.partitioned == (was.partitioned && name != "partition")
                && now.crashed == (was.crashed && name != "crash")
                && now.faults == (if name == "partition" || name == "crash" then was.faults else was.faults - {name})
      ensures removed == Some(false) ==> proxies == old(proxies) && injected == old(injected) && reverted == old(reverted)
    {
      if target != "*" && target !in proxies {
        return None;
      }
      ghost var was := proxies;
      var left := if target == "*" then proxies.Keys else {target};
      ghost var all := left;
      var found := false;
      while left != {}
        invariant left <= all <= was.Keys && proxies.Keys == was.Keys
        invariant forall n <- was :: proxies[n] == if n in all - left then Without(was[n], name) else was[n]
        invariant found <==> exists n <- all - left :: Has(was[n], name)
        invariant injected == old(injected) && reverted == old(reverted)
        decreases left
      {
        var n :| n in left;
        var p := proxies[n];
        ghost var did := all - left;
        if Has(p, name) {
          found := true;
        }
        proxies := proxies[n := Without(p, name)];
        left := left - {n};
        assert all - left == did + {n};
      }
      assert all - left == all;
      var matched := false;
      for k := 0 to |injected|
        invariant matched <==> Matched(injected[..k], ScopeOf(target), name)
      {
        assert injected[..k + 1] == injected[..k] + [injected[k]];
        if injected[k].name == name && Covers(ScopeOf(target), injected[k].node) {
          matched := true;
        }
      }
      assert injected[..|injected|] == injected;
      if matched {
        RevertNodeFaults(ScopeOf(target));
      }
      removed := Some(found || matched);
      forall n | n in proxies
        ensures n in all ==> proxies[n].partitioned == (was[n].partitioned && name != "partition")
        ensures n in all ==> proxies[n].crashed == (was[n].crashed && name != "crash")
        ensures n in all ==> proxies[n].faults == (if name == "partition" || name == "crash" then was[n].faults else was[n].faults - {name})
        ensures !found ==> proxies[n] == was[n]
      {
        RemovalByField(was[n], name);
      }
    }

    method HealAll()
      modifies `proxies, `injected, `reverted
      ensures proxies.Keys == old(proxies).Keys
      ensures forall n <- proxies :: !proxies[n].partitioned && !proxies[n].crashed && proxies[n].faults == {}
      ensures injected == [] && reverted == old(reverted) + old(injected)
    {
      proxies := map n <- proxies :: HEALTHY;
      EverythingTaken(injected);
      RevertNodeFaults(Everywhere);
    }

    method Outstanding() returns (out: map<string, seq<string>>)
      ensures forall n :: n in out <==> exists i <- injected :: i.node == n
      ensures forall n <- out :: out[n] == NamesOn(injected, n)
    {
      out := map[];
      for k := 0 to |injected|
        invariant forall n :: n in out <==> exists i <- injected[..k] :: i.node == n
        invariant forall n :: NamesOn(injected[..k], n) == if n in out then out[n] else []
      {
        var i := injected[k];
        assert injected[..k + 1] == injected[..k] + [i];
        assert injected[..k + 1][..k] == injected[..k];
        out := out[i.node := (if i.node in out then out[i.node] else []) + [i.name]];
      }
      assert injected[..|injected|] == injected;
    }
  }

  /** What was removed is gone: removing it again finds nothing and changes nothing. */
  method RemoveAgain(engine: Engine, target: string, name: string) returns (first: Option<bool>, second: Option<bool>)
    modifies engine`proxies, engine`injected, engine`reverted
    ensures first.Some? ==> second == Some(false)
    ensures first.None? ==> second.None?
  {
    first := engine.RemoveFault(target, name);
    ghost var proxies, injected := engine.proxies, engine.injected;
    if first.Some? {
      RemovalLaw(old(engine.injected), ScopeOf(target), name);
      forall n | n in proxies && (target == "*" || n == target)
        ensures !Has(proxies[n], name)
      {
        RemovalByField(old(engine.proxies)[n], name);
      }
    }
    second := engine.RemoveFault(target, name);
  }
}
