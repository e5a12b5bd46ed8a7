/** The connection handed to a pump: it caches a wrapper chain stamped with the registry generation
    and rebuilds it when the generation has moved on.

    Writers of any number of connections and changes to the registry interleave freely.  A writer
    holds its connection's lock from the generation check until it has picked up the chain; the
    check, the rebuild and every registry operation each run under the registry's lock.
 */
module LiveConn {
  import opened Options
  import opened FaultChain
  import opened FaultRegistry

  /** `reset` is the state of the raw connection, which every chain is built on.  `wrapped` is the
      cached chain, if any, and `gen` the generation it was built at. */
  datatype Cache = Cache(dir: Direction, reset: bool, wrapped: Option<Chain>, gen: nat, locked: bool)

  /** What a writer is about to do.  `basis` is the fault list of the registry at the writer's
      generation check or, if it had to rebuild, at the rebuild; `was` is the state of the raw
      connection then. */
  datatype Writer =
    | Checked(conn: nat, stale: bool, basis: seq<Fault>, was: bool)
    | Using(conn: nat, chain: Chain, basis: seq<Fault>, was: bool)

  datatype System = System(registry: State, caches: map<nat, Cache>, writers: map<nat, Writer>)

  datatype Step =
    | Open(conn: nat, dir: Direction)
    | Change(op: Operation)
    | Check(writer: nat, conn: nat)
    | Rebuild(writer: nat)
    | PickUp(writer: nat)
    | Finish(writer: nat)

  function Current(s: System): seq<Fault> {
    Faults(s.registry.conn)
  }

  predicate Enabled(s: System, x: Step) {
    match x
    case Open(c, _) => c !in s.caches
    case Change(_) => true
    case Check(w, c) => w !in s.writers && c in s.caches && !s.caches[c].locked
    case Rebuild(w) => w in s.writers && s.writers[w].Checked? && s.writers[w].stale && s.writers[w].conn in s.caches
    case PickUp(w) =>
      && w in s.writers && s.writers[w].Checked? && !s.writers[w].stale && s.writers[w].conn in s.caches
      && s.caches[s.writers[w].conn].wrapped.Some?
    case Finish(w) => w in s.writers && s.writers[w].Using?
  }

  function Next(s: System, x: Step): System
    requires Enabled(s, x)
  {
    match x
    case Open(c, dir) => s.(caches := s.caches[c := Cache(dir, false, None, 0, false)])
    case Change(op) => s.(registry := Perform(s.registry, op))
    case Check(w, c) =>
      var cache := s.caches[c];
      var stale := cache.wrapped.None? || cache.gen != s.registry.gen;
      s.(caches := s.caches[c := cache.(locked := true)],
         writers := s.writers[w := Checked(c, stale, Current(s), cache.reset)])
    case Rebuild(w) =>
      var c := s.writers[w].conn;
      var cache := s.caches[c];
      var chain := Fold(cache.reset, Current(s), cache.dir);
      s.(caches := s.caches[c := cache.(reset := chain.reset, wrapped := Some(chain), gen := s.registry.gen)],
         writers := s.writers[w := Checked(c, false, Current(s), cache.reset)])
    case PickUp(w) =>
      var Checked(c, _, basis, was) := s.writers[w];
      var cache := s.caches[c];
      s.(caches := s.caches[c := cache.(locked := false)],
         writers := s.writers[w := Using(c, cache.wrapped.value, basis, was)])
    case Finish(w) => s.(writers := s.writers - {w})
  }

  const START := System(EMPTY, map[], map[])

  ghost predicate IsRun(ss: seq<System>, xs: seq<Step>) {
    && |ss| == |xs| + 1
    && ss[0] == START
    && forall k {:trigger xs[k]} :: 0 <= k < |xs| ==> Enabled(ss[k], xs[k]) && ss[k + 1] == Next(ss[k], xs[k])
  }

  // ------------------------------------------------------------------
  // The generation tells which list a chain was built from

  /** The fault list at every generation so far. */
  function Lists(ss: seq<System>, xs: seq<Step>, k: nat): map<nat, seq<Fault>>
    requires |ss| == |xs| + 1 && k <= |xs|
  {
    if k == 0 then map[ss[0].registry.gen := Current(ss[0])]
    else Lists(ss, xs, k - 1)[ss[k].registry.gen := Current(ss[k])]
  }

  ghost predicate CacheOk(c: Cache, lists: map<nat, seq<Fault>>) {
    c.wrapped.Some? ==> c.gen in lists && c.wrapped.value == Fold(c.reset, lists[c.gen], c.dir)
  }

  ghost predicate WriterOk(s: System, w: nat)
    requires w in s.writers
  {
    var conn := s.writers[w].conn;
    && conn in s.caches
    && match s.writers[w]
       case Checked(c, stale, basis, was) =>
         && s.caches[c].locked
         && (stale ==> s.caches[c].wrapped.None? || s.caches[c].gen < s.registry.gen)
         && (!stale ==> s.caches[c].wrapped == Some(Fold(was, basis, s.caches[c].dir)))
       case Using(c, chain, basis, was) => chain == Fold(was, basis, s.caches[c].dir)
  }

  ghost predicate Inv(s: System, lists: map<nat, seq<Fault>>) {
    && s.registry.gen in lists && lists[s.registry.gen] == Current(s)
    && (forall g <- lists :: g <= s.registry.gen)
    && (forall c <- s.caches :: CacheOk(s.caches[c], lists))
    && (forall w <- s.writers :: WriterOk(s, w))
    && (forall w <- s.writers, v <- s.writers ::
          s.writers[w].Checked? && s.writers[v].Checked? && s.writers[w].conn == s.writers[v].conn ==> w == v)
  }

  /** A change that moves the generation makes it one that was never used before; a change that
      does not leaves the list alone. */
  lemma ChangeKeepsInv(s: System, lists: map<nat, seq<Fault>>, op: Operation)
    requires Inv(s, lists)
    ensures var s' := s.(registry := Perform(s.registry, op));
            Inv(s', lists[s'.registry.gen := Current(s')])
  {
    hide Perform;
    PerformLaws(s.registry, op);
    var s' := s.(registry := Perform(s.registry, op));
    forall w | w in s'.writers
      ensures WriterOk(s', w)
    {
      assert WriterOk(s, w);
    }
  }

  lemma OtherStepKeepsInv(s: System, lists: map<nat, seq<Fault>>, x: Step)
    requires Inv(s, lists) && Enabled(s, x) && !x.Change?
    ensures Inv(Next(s, x), lists) && Next(s, x).registry == s.registry
  {
    hide Fold;
    var s' := Next(s, x);
    if x.Rebuild? {
      var cache := s.caches[s.writers[x.writer].conn];
      FoldAgain(cache.reset, Current(s), cache.dir);
    }
    forall w | w in s'.writers
      ensures WriterOk(s', w)
    {
      if w in s.writers {
        assert WriterOk(s, w);
      }
    }
  }

  /** Folding over a connection as the chain left it gives the same chain. */
  lemma {:induction false} FoldAgain(wasReset: bool, faults: seq<Fault>, dir: Direction)
    ensures Fold(Fold(wasReset, faults, dir).reset, faults, dir) == Fold(wasReset, faults, dir)
  {
    hide Fold;
    FoldShape(wasReset, faults, dir);
    FoldShape(Fold(wasReset, faults, dir).reset, faults, dir);
  }

  lemma {:induction false} RunInv(ss: seq<System>, xs: seq<Step>, k: nat)
    requires IsRun(ss, xs) && k <= |xs|
    ensures Inv(ss[k], Lists(ss, xs, k))
  {
    if k > 0 {
      RunInv(ss, xs, k - 1);
      var s, x, lists := ss[k - 1], xs[k - 1], Lists(ss, xs, k - 1);
      if x.Change? {
        ChangeKeepsInv(s, lists, x.op);
      } else {
        OtherStepKeepsInv(s, lists, x);
        assert lists[ss[k].registry.gen := Current(ss[k])] == lists;
      }
    }
  }

  /** A writer's basis is the fault list of the registry at a check or rebuild of its own, made
      during this very write. */
  lemma {:induction false} BasisIsOwn(ss: seq<System>, xs: seq<Step>, k: nat, w: nat) returns (j: nat)
    requires IsRun(ss, xs) && k <= |xs| && w in ss[k].writers
    ensures j < k && (xs[j] == Check(w, ss[k].writers[w].conn) || xs[j] == Rebuild(w))
    ensures forall i {:trigger ss[i]} :: j < i <= k ==> w in ss[i].writers && ss[i].writers[w].conn == ss[k].writers[w].conn
    ensures ss[k].writers[w].basis == Current(ss[j])
    ensures ss[k].writers[w].conn in ss[j].caches && ss[k].writers[w].was == ss[j].caches[ss[k].writers[w].conn].reset
  {
    var x := xs[k - 1];
    if x == Rebuild(w) || (x.Check? && x.writer == w) {
      j := k - 1;
    } else {
      j := BasisIsOwn(ss, xs, k - 1, w);
    }
  }

  /** Whatever happens in between, a write goes through exactly the chain that folding the fault
      list at its own generation check or rebuild gives over the raw connection of that moment, never
      a mix of two generations. */
  lemma {:induction false} WriteUsesFreshFold(ss: seq<System>, xs: seq<Step>, k: nat, w: nat) returns (j: nat)
    requires IsRun(ss, xs) && k <= |xs| && w in ss[k].writers && ss[k].writers[w].Using?
    ensures j < k && (xs[j] == Check(w, ss[k].writers[w].conn) || xs[j] == Rebuild(w))
    ensures forall i {:trigger ss[i]} :: j < i <= k ==> w in ss[i].writers && ss[i].writers[w].conn == ss[k].writers[w].conn
    ensures ss[k].writers[w].conn in ss[k].caches
    ensures ss[k].writers[w].conn in ss[j].caches
    ensures var c := ss[k].writers[w].conn;
            ss[k].writers[w].chain == Fold(ss[j].caches[c].reset, Faults(ss[j].registry.conn), ss[k].caches[c].dir)
  {
    hide Fold;
    j := BasisIsOwn(ss, xs, k, w);
    RunInv(ss, xs, k);
    assert WriterOk(ss[k], w);
  }

  /** Step `j` rebuilds the chain of `c` from a list with a reset. */
  ghost predicate Resets(ss: seq<System>, xs: seq<Step>, j: nat, c: nat)
    requires IsRun(ss, xs) && j < |xs|
  {
    xs[j].Rebuild? && ss[j].writers[xs[j].writer].conn == c && Rst in Current(ss[j])
  }

  lemma {:induction false} NextReset(s: System, x: Step, c: nat)
    requires Enabled(s, x) && c in Next(s, x).caches
    ensures Next(s, x).caches[c].reset <==>
            || (c in s.caches && s.caches[c].reset)
            || (x.Rebuild? && s.writers[x.writer].conn == c && Rst in Current(s))
    ensures c !in s.caches ==> x.Open?
  {
    hide Fold, Perform;
    if x.Rebuild? {
      var cache := s.caches[s.writers[x.writer].conn];
      FoldShape(cache.reset, Current(s), cache.dir);
    }
  }

  lemma {:induction false} CachesStay(ss: seq<System>, xs: seq<Step>, j: nat, k: nat, c: nat)
    requires IsRun(ss, xs) && j <= k <= |xs| && c in ss[j].caches
    ensures c in ss[k].caches
  {
    hide Fold, Perform;
    if j < k {
      CachesStay(ss, xs, j, k - 1, c);
      assert xs[k - 1] == xs[k - 1];
    }
  }

  /** A connection resets on close exactly when some chain of it was built while a reset was registered,
      however long ago. */
  lemma {:induction false} ResetSticks(ss: seq<System>, xs: seq<Step>, k: nat, c: nat)
    requires IsRun(ss, xs) && k <= |xs| && c in ss[k].caches
    ensures ss[k].caches[c].reset <==> exists j: nat :: j < k && Resets(ss, xs, j, c)
  {
    if k > 0 {
      var s, x := ss[k - 1], xs[k - 1];
      assert ss[k] == Next(s, x);
      hide Next;
      NextReset(s, x, c);
      if c in s.caches {
        ResetSticks(ss, xs, k - 1, c);
        assert Resets(ss, xs, k - 1, c) <==> (x.Rebuild? && s.writers[x.writer].conn == c && Rst in Current(s));
      } else {
        forall j: nat | j < k && Resets(ss, xs, j, c)
          ensures false
        {
          assert xs[j].Rebuild?;
          CachesStay(ss, xs, j, k - 1, c);
        }
      }
    }
  }

  /** A chain is replaced only when there is none or the registry has changed since it was built. */
  lemma {:induction false} RebuildsOnlyWhenChanged(ss: seq<System>, xs: seq<Step>, k: nat)
    requires IsRun(ss, xs) && k < |xs| && xs[k].Rebuild?
    ensures var c := ss[k].writers[xs[k].writer].conn;
            && (ss[k].caches[c].wrapped.None? || ss[k].caches[c].gen < ss[k].registry.gen)
            && ss[k + 1].caches[c].gen == ss[k].registry.gen
  {
    RunInv(ss, xs, k);
    assert WriterOk(ss[k], xs[k].writer);
  }

  /** A writer that may pick up a chain always finds one. */
  lemma {:induction false} PickUpNeverFails(ss: seq<System>, xs: seq<Step>, k: nat, w: nat)
    requires IsRun(ss, xs) && k <= |xs| && w in ss[k].writers && ss[k].writers[w].Checked?
    ensures Enabled(ss[k], if ss[k].writers[w].stale then Rebuild(w) else PickUp(w))
  {
    RunInv(ss, xs, k);
    assert WriterOk(ss[k], w);
  }

  // ------------------------------------------------------------------
  // What a live connection delivers across registry changes

  /** The life of one chain: the faults it was built from, what it has become, what went in. */
  datatype Epoch = Epoch(faults: seq<Fault>, pipe: Pipe, written: seq<Chunk>)

  ghost predicate Lawful(e: Epoch, dir: Direction) {
    var built := WrappersOf(e.faults, dir);
    WritesAll(Pipe(built, []), |built|, e.written, e.pipe)
  }

  predicate Conserving(e: Epoch, dir: Direction) {
    NoneLoses(e.faults, dir) && NoneRepeats(e.faults)
  }

  function WrittenIn(es: seq<Epoch>): seq<Chunk> {
    if es == [] then [] else WrittenIn(es[..|es| - 1]) + es[|es| - 1].written
  }

  function DeliveredIn(es: seq<Epoch>): seq<Chunk> {
    if es == [] then [] else DeliveredIn(es[..|es| - 1]) + es[|es| - 1].pipe.delivered
  }

  /** What the chains of these epochs held back. */
  function HeldIn(es: seq<Epoch>): multiset<Chunk> {
    if es == [] then multiset{} else HeldIn(es[..|es| - 1]) + Held(es[|es| - 1].pipe.wrappers)
  }

  lemma {:induction false} LawsOfOne(e: Epoch, dir: Direction)
    requires Lawful(e, dir)
    ensures forall c <- e.pipe.delivered :: c in e.written
    ensures SomeKills(e.faults, dir) ==> e.pipe.delivered == []
    ensures Conserving(e, dir) ==> multiset(e.pipe.delivered) + Held(e.pipe.wrappers) == multiset(e.written)
    ensures Conserving(e, dir) && NoneReorders(e.faults) ==> e.pipe.delivered == e.written
  {
    hide WritesAll, SomeKills, NoneLoses, NoneRepeats, NoneReorders, Held;
    ChainLaws(e.faults, dir, e.pipe, e.written);
  }

  lemma {:induction false} OnlyWrittenArrives(es: seq<Epoch>, dir: Direction, c: Chunk)
    requires (forall e <- es :: Lawful(e, dir)) && c in DeliveredIn(es)
    ensures c in WrittenIn(es)
  {
    hide Lawful, Conserving, Held, SomeKills, NoneReorders;
    var n := |es| - 1;
    LawsOfOne(es[n], dir);
    if c in DeliveredIn(es[..n]) {
      OnlyWrittenArrives(es[..n], dir, c);
    }
  }

  lemma {:induction false} EpochsConserve(es: seq<Epoch>, dir: Direction)
    requires forall e <- es :: Lawful(e, dir) && Conserving(e, dir)
    ensures multiset(DeliveredIn(es)) + HeldIn(es) == multiset(WrittenIn(es))
    ensures (forall e <- es :: NoneReorders(e.faults)) ==> DeliveredIn(es) == WrittenIn(es)
  {
    hide Lawful, Conserving, Held, SomeKills, NoneReorders;
    if es != [] {
      var n := |es| - 1;
      EpochsConserve(es[..n], dir);
      LawsOfOne(es[n], dir);
      assert forall e <- es[..n] :: e in es;
    }
  }

  /** Over all epochs of a connection: only written chunks arrive, an epoch whose faults block the
      direction delivers nothing, and if no epoch loses or duplicates, what was written has arrived or
      is held back in some epoch's chain; without reordering everything arrives in order. */
  lemma {:induction false} EpochLaws(es: seq<Epoch>, dir: Direction)
    requires forall e <- es :: Lawful(e, dir)
    ensures forall c <- DeliveredIn(es) :: c in WrittenIn(es)
    ensures forall e <- es :: SomeKills(e.faults, dir) ==> e.pipe.delivered == []
    ensures (forall e <- es :: Conserving(e, dir)) ==> multiset(DeliveredIn(es)) + HeldIn(es) == multiset(WrittenIn(es))
    ensures (forall e <- es :: Conserving(e, dir) && NoneReorders(e.faults)) ==> DeliveredIn(es) == WrittenIn(es)
  {
    hide Lawful, Conserving, DeliveredIn, WrittenIn, HeldIn, SomeKills, NoneReorders;
    forall c | c in DeliveredIn(es)
      ensures c in WrittenIn(es)
    {
      OnlyWrittenArrives(es, dir, c);
    }
    forall e | e in es
      ensures SomeKills(e.faults, dir) ==> e.pipe.delivered == []
    {
      LawsOfOne(e, dir);
    }
    if forall e <- es :: Conserving(e, dir) {
      EpochsConserve(es, dir);
    }
  }

  /** A connection loses exactly what its earlier chains held back when they were replaced: nothing is
      missing from what has arrived and what the current chain holds if and only if they held nothing. */
  lemma {:induction false} LostAtRebuilds(past: seq<Epoch>, now: Epoch, dir: Direction)
    requires forall e <- past + [now] :: Lawful(e, dir) && Conserving(e, dir)
    ensures var es := past + [now];
            && multiset(WrittenIn(es)) == multiset(DeliveredIn(es)) + Held(now.pipe.wrappers) + HeldIn(past)
            && (multiset(WrittenIn(es)) == multiset(DeliveredIn(es)) + Held(now.pipe.wrappers) <==> HeldIn(past) == multiset{})
  {
    hide Lawful, Conserving, Held;
    var es := past + [now];
    EpochLaws(es, dir);
    assert es[..|past|] == past;
    Cancels(multiset(DeliveredIn(es)) + Held(now.pipe.wrappers), HeldIn(past));
  }

  /** The generation a chain was built at keeps telling whether its faults are the current ones. */
  ghost predicate Stamped(faults: seq<Fault>, gen: nat, s: State) {
    gen <= s.gen && (gen == s.gen ==> faults == Faults(s.conn))
  }

  lemma ChangeKeepsStamp(faults: seq<Fault>, gen: nat, s: State, op: Operation)
    requires Stamped(faults, gen, s)
    ensures Stamped(faults, gen, Perform(s, op))
  {
    hide Perform;
    PerformLaws(s, op);
  }

  /** A list that neither loses nor repeats can be replaced at any moment without losing a chunk,
      whatever is written and drawn, exactly when it has no fault that reorders with a positive
      probability and room for more than one chunk. */
  lemma {:induction false} SafeToReplace(faults: seq<Fault>, dir: Direction)
    requires NoneLoses(faults, dir) && NoneRepeats(faults)
    ensures (forall e: Epoch :: e.faults == faults && Lawful(e, dir) ==> Held(e.pipe.wrappers) == multiset{}) <==> NoneReorders(faults)
  {
    hide WritesAll, Held, NoneLoses, NoneRepeats, NoneReorders, WrappersOf;
    HoldsNothingExactly(faults, dir);
    var built := WrappersOf(faults, dir);
    if NoneReorders(faults) {
      forall e: Epoch | e.faults == faults && Lawful(e, dir)
        ensures Held(e.pipe.wrappers) == multiset{}
      {
        HoldsNothing(faults, dir, e.pipe, e.written);
      }
    } else {
      var written, now :| WritesAll(Pipe(built, []), |built|, written, now) && Held(now.wrappers) != multiset{};
      var e := Epoch(faults, now, written);
      assert e.faults == faults && Lawful(e, dir) && Held(e.pipe.wrappers) != multiset{};
    }
  }

  ghost predicate ResetIn(es: seq<Epoch>) {
    exists e <- es :: Rst in e.faults
  }

  class LiveConnection {
    const registry: Registry
    const dir: Direction
    var reset: bool
    var wrapped: WrappedConn?
    var gen: nat
    ghost var faults: seq<Fault>
    ghost var past: seq<Epoch>

    ghost function Epochs(): seq<Epoch>
      reads this, wrapped
    {
      if wrapped == null then [] else past + [Epoch(faults, wrapped.View(), wrapped.written)]
    }

    /** The raw connection resets on close exactly when some chain was built while a reset was
        registered. */
    ghost predicate Valid()
      reads this, wrapped
    {
      && (wrapped == null ==> past == [])
      && (wrapped != null ==> wrapped.Valid() && wrapped.built == WrappersOf(faults, dir))
      && (forall e <- past :: Lawful(e, dir))
      && (reset <==> ResetIn(Epochs()))
    }

    /** Every change to the registry keeps this, by `ChangeKeepsStamp`. */
    ghost predicate InStep()
      reads this, registry
    {
      wrapped != null ==> Stamped(faults, gen, registry.View())
    }

    ghost predicate Stale()
      reads this, registry
    {
      wrapped == null || gen != registry.gen
    }

    constructor (registry: Registry, dir: Direction)
      ensures Valid() && InStep() && this.registry == registry && this.dir == dir && wrapped == null && Epochs() == [] && !reset
    {
      this.registry := registry;
      this.dir := dir;
      reset, wrapped, gen := false, null, 0;
      faults, past := [], [];
    }

    /** So `EpochLaws` and `LostAtRebuilds` speak of every live connection. */
    lemma EpochsAreLawful()
      requires Valid()
      ensures forall e <- Epochs() :: Lawful(e, dir)
    {
      hide WritesAll, WrappersOf, ResetIn;
    }

    /** A new chain from the current faults begins a new epoch and ends the one before. */
    method Rebuild()
      requires Valid()
      modifies this
      ensures Valid() && InStep() && !Stale() && fresh(wrapped)
      ensures faults == Faults(registry.connFaults) && past == old(Epochs())
      ensures wrapped.wrappers == WrappersOf(faults, dir) && wrapped.delivered == [] && wrapped.written == []
      ensures reset <==> old(reset) || Rst in faults
    {
      hide WritesAll, Fold, WrappersOf, ResetIn;
      EpochsAreLawful();
      ghost var was := Epochs();
      FoldShape(reset, Faults(registry.connFaults), dir);
      var chain, atGen := registry.Wrap(reset, dir);
      wrapped := new WrappedConn(chain);
      reset, gen := chain.reset, atGen;
      past, faults := was, Faults(registry.connFaults);
      ResetInMore(was, Epochs()[|was|]);
    }

    /** Writes go through the chain of the faults registered now: the cached one if its generation is
        current, else a new one.  A chain that must hold the chunk back does. */
    method Write(p: Chunk) returns (n: nat, ok: bool)
      requires Valid() && InStep()
      modifies this, wrapped
      ensures InStep() && !Stale() && faults == Faults(registry.connFaults)
      ensures wrapped == old(wrapped) || fresh(wrapped)
      ensures past == if old(Stale()) then old(Epochs()) else old(past)
      ensures Sound(WrappersOf(faults, dir)) ==> ok
      ensures ok ==> Valid() && n == |p.bytes| && wrapped.written == (if old(Stale()) then [] else old(wrapped.written)) + [p]
      ensures var ws := WrappersOf(faults, dir);
              old(Stale()) && ws != [] && MustHold(ws[|ws| - 1]) ==>
                ok && wrapped.View() == Pipe(ws[..|ws| - 1] + [ws[|ws| - 1].(buf := ws[|ws| - 1].buf + [p])], [])
    {
      hide WritesAll, WrappersOf, MustHold, Lawful, ResetIn;
      if wrapped == null || gen != registry.gen {
        Rebuild();
      }
      ghost var before := Epochs();
      n, ok := wrapped.Write(p);
      SameFaults(before, Epochs());
    }
  }

  lemma ResetInMore(es: seq<Epoch>, e: Epoch)
    ensures ResetIn(es + [e]) <==> ResetIn(es) || Rst in e.faults
  {
  }

  lemma SameFaults(es: seq<Epoch>, fs: seq<Epoch>)
    requires |es| == |fs| && forall i :: 0 <= i < |es| ==> es[i].faults == fs[i].faults
    ensures ResetIn(es) <==> ResetIn(fs)
  {
    if ResetIn(es) {
      var i :| 0 <= i < |es| && Rst in es[i].faults;
      assert fs[i] in fs;
    }
    if ResetIn(fs) {
      var i :| 0 <= i < |fs| && Rst in fs[i].faults;
      assert es[i] in es;
    }
  }

  lemma OneEpoch(a: Epoch)
    ensures WrittenIn([a]) == a.written && DeliveredIn([a]) == a.pipe.delivered && HeldIn([a]) == Held(a.pipe.wrappers)
  {
    assert [a][..0] == [];
  }

  lemma TwoEpochs(a: Epoch, b: Epoch)
    ensures WrittenIn([a, b]) == a.written + b.written && DeliveredIn([a, b]) == a.pipe.delivered + b.pipe.delivered
    ensures HeldIn([a, b]) == Held(a.pipe.wrappers) + Held(b.pipe.wrappers)
  {
    assert [a, b][..1] == [a];
    OneEpoch(a);
  }

  lemma NothingHeld()
    ensures Held([]) == multiset{}
  {
  }

  /** A registry with one reordering fault of room for two, and a connection that holds a chunk. */
  method HoldFirst(p: Chunk, dir: Direction) returns (registry: Registry, c: LiveConnection)
    ensures fresh(registry) && fresh(c) && c.wrapped != null && fresh(c.wrapped) && c.registry == registry && c.dir == dir
    ensures registry.Valid() && registry.connFaults == [Entry("reorder", Reorder(2, 1.0))]
    ensures c.Valid() && c.InStep() && !c.Stale()
    ensures c.Epochs() == [Epoch([Reorder(2, 1.0)], Pipe([Shuffle([p], 2, 1.0)], []), [p])]
  {
    hide WritesAll, Unique, Ticking, Held, ResetIn;
    var reorder := Reorder(2, 1.0);
    registry := new Registry();
    registry.RegisterConnFault(Entry("reorder", reorder));
    assert Faults(registry.connFaults) == [reorder];
    c := new LiveConnection(registry, dir);
    ReorderOnly(dir);
    var n, ok := c.Write(p);
    var empty := Shuffle([], 2, 1.0);
    assert [empty][..0] == [] && empty.buf + [p] == [p] && [] + [p] == [p];
    assert c.wrapped.View() == Pipe([Shuffle([p], 2, 1.0)], []);
    assert c.past == [];
    assert c.wrapped.written == [p];
  }

  /** A reordering fault holds the first chunk back; when it is unregistered the next write rebuilds
      the chain and the held chunk is gone for good. */
  method HeldChunkIsLost(p: Chunk, q: Chunk, dir: Direction) returns (c: LiveConnection)
    ensures c.Valid() && WrittenIn(c.Epochs()) == [p, q] && DeliveredIn(c.Epochs()) == [q]
    ensures HeldIn(c.past) == multiset{p} && HeldIn(c.Epochs()) == multiset{p}
  {
    hide WritesAll, ResetIn, AllUnique, Ticking, Held, Perform, Lawful, MustHold, WrittenIn, DeliveredIn, HeldIn;
    var registry;
    registry, c := HoldFirst(p, dir);
    ghost var first, before := c.Epochs()[0], registry.View();
    EntryGone(before, Entry("reorder", Reorder(2, 1.0)));
    ChangeKeepsStamp(c.faults, c.gen, before, Unregister("reorder"));
    var _ := registry.UnregisterFault("reorder");
    assert Faults(registry.connFaults) == [];
    ReorderOnly(dir);
    var n, ok := c.Write(q);
    ghost var second := c.Epochs()[1];
    assert c.past == [first] && c.Epochs() == [first, second];
    c.EpochsAreLawful();
    FirstIsLost(first, second, p, q, dir);
  }

  lemma {:induction false} FirstIsLost(first: Epoch, second: Epoch, p: Chunk, q: Chunk, dir: Direction)
    requires first == Epoch([Reorder(2, 1.0)], Pipe([Shuffle([p], 2, 1.0)], []), [p])
    requires second.faults == [] && second.written == [q] && Lawful(second, dir)
    ensures WrittenIn([first, second]) == [p, q] && DeliveredIn([first, second]) == [q]
    ensures HeldIn([first]) == multiset{p} && HeldIn([first, second]) == multiset{p}
  {
    hide Lawful, Held, WrittenIn, DeliveredIn, HeldIn;
    OneEpoch(first);
    HeldByOne(Shuffle([p], 2, 1.0));
    TwoEpochs(first, second);
    NoWrappers(second, dir);
  }

  /** A reset that was registered once sticks: after it is unregistered and the chain rebuilt without it,
      the connection still resets on close. */
  method ResetOutlivesFault(p: Chunk, q: Chunk, dir: Direction) returns (c: LiveConnection)
    ensures c.Valid() && c.InStep() && !c.Stale() && c.faults == [] == Faults(c.registry.connFaults)
    ensures c.reset && DeliveredIn(c.Epochs()) == [p, q]
  {
    hide WritesAll, Lawful, ResetIn, AllUnique, Ticking, Held, Perform, WrittenIn, DeliveredIn, HeldIn;
    var registry;
    registry, c := WriteUnderReset(p, dir);
    ghost var first, before := c.Epochs()[0], registry.View();
    EntryGone(before, Entry("tcp_rst", Rst));
    ChangeKeepsStamp(c.faults, c.gen, before, Unregister("tcp_rst"));
    var _ := registry.UnregisterFault("tcp_rst");
    assert Faults(registry.connFaults) == [];
    ReorderOnly(dir);
    var n, ok := c.Write(q);
    ghost var second := c.Epochs()[1];
    assert c.Epochs() == [first, second] && c.past == [first];
    c.EpochsAreLawful();
    NoWrappers(first, dir);
    NoWrappers(second, dir);
    TwoEpochs(first, second);
    ResetInMore([], first);
    ResetInMore([first], second);
    assert [] + [first] == [first] && [first] + [second] == [first, second];
  }

  method WriteUnderReset(p: Chunk, dir: Direction) returns (registry: Registry, c: LiveConnection)
    ensures fresh(registry) && fresh(c) && c.wrapped != null && fresh(c.wrapped) && c.registry == registry && c.dir == dir
    ensures registry.Valid() && registry.connFaults == [Entry("tcp_rst", Rst)]
    ensures c.Valid() && c.InStep() && !c.Stale() && c.past == [] && c.faults == [Rst] && c.wrapped.written == [p]
  {
    hide WritesAll, Lawful, ResetIn, Ticking, Held, Unique;
    registry := new Registry();
    registry.RegisterConnFault(Entry("tcp_rst", Rst));
    assert Faults(registry.connFaults) == [Rst];
    c := new LiveConnection(registry, dir);
    ReorderOnly(dir);
    var n, ok := c.Write(p);
    assert [] + [p] == [p];
  }

  /** Without wrappers a chain is the raw connection. */
  lemma {:induction false} NoWrappers(e: Epoch, dir: Direction)
    requires Lawful(e, dir) && (e.faults == [] || e.faults == [Rst])
    ensures e.pipe.delivered == e.written && Held(e.pipe.wrappers) == multiset{}
  {
    hide Held, WritesAll;
    ReorderOnly(dir);
    ChainLaws(e.faults, dir, e.pipe, e.written);
    WritesAllKeep(Pipe([], []), 0, e.written, e.pipe);
    assert e.pipe.wrappers == [];
    NothingHeld();
  }

  lemma EntryGone(s: State, e: Entry<Fault>)
    requires s.conn == [e]
    ensures Perform(s, Unregister(e.name)).conn == [] && Perform(s, Unregister(e.name)).gen > s.gen
  {
    assert s.conn[..0] == [] && s.conn[0].name == e.name;
    assert Without(s.conn[..0], e.name) == [];
    assert Has(s.conn, e.name);
  }
}
