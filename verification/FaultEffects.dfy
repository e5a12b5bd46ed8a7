/** What the faults do to a connection, in terms of their own parameters. */
module FaultEffects {
  import opened FaultChain

  // ------------------------------------------------------------------
  // One fault, one chunk

  /** How many copies of a chunk may arrive through a connection with this fault alone. */
  predicate MayDeliver(f: Fault, dir: Direction, n: nat)
    requires !f.Reorder?
  {
    match f
    case OneWay(block) => n == if block == dir then 0 else 1
    case Loss(baseline, bursting) =>
      (n == 0 && (baseline > 0.0 || bursting > 0.0)) || (n == 1 && (baseline < 1.0 || bursting < 1.0))
    case Duplication(probability, maxExtra) =>
      (n == 1 && probability < 1.0) || (2 <= n <= 1 + maxExtra && probability > 0.0)
    case _ => n == 1
  }

  ghost predicate WritesInto(faults: seq<Fault>, dir: Direction, written: seq<Chunk>, now: Pipe) {
    var built := WrappersOf(faults, dir);
    WritesAll(Pipe(built, []), |built|, written, now)
  }

  lemma ChainOfOne(f: Fault, dir: Direction)
    ensures WrappersOf([f], dir) == WrapperFor(f, dir)
  {
    assert [f][..0] == [];
  }

  /** The chain of a list is the chains of its parts, the first innermost. */
  lemma {:induction false} ChainsStack(a: seq<Fault>, b: seq<Fault>, dir: Direction)
    ensures WrappersOf(a + b, dir) == WrappersOf(a, dir) + WrappersOf(b, dir)
  {
    hide WrapperFor;
    if b == [] {
      assert a + b == a;
    } else {
      ChainsStack(a, b[..|b| - 1], dir);
      assert (a + b)[..|a + b| - 1] == a + b[..|b| - 1];
    }
  }

  lemma {:induction false} RawWrites(a: Pipe, ps: seq<Chunk>, b: Pipe)
    ensures WritesAll(a, 0, ps, b) <==> b == a.(delivered := a.delivered + ps)
    decreases |ps|
  {
    if ps == [] {
      assert a.delivered + ps == a.delivered;
    } else {
      var n := |ps| - 1;
      var mid := a.(delivered := a.delivered + ps[..n]);
      RawWrites(a, ps[..n], mid);
      assert a.delivered + ps[..n] + [ps[n]] == a.delivered + ps;
      assert Writes(mid, 0, ps[n], a.(delivered := a.delivered + ps));
      forall m: Pipe | |m.wrappers| == |a.wrappers| && WritesAll(a, 0, ps[..n], m)
        ensures m == mid
      {
        RawWrites(a, ps[..n], m);
      }
    }
  }

  lemma {:induction false} LoneDuplication(probability: real, maxExtra: int, dir: Direction, p: Chunk, now: Pipe)
    ensures var ws := [Repeat(probability, maxExtra)];
            Writes(Pipe(ws, []), 1, p, now) <==>
            exists n: nat :: MayDeliver(Duplication(probability, maxExtra), dir, n) && now == Pipe(ws, Copies(p, n))
  {
    hide WritesAll;
    var f, ws := Duplication(probability, maxExtra), [Repeat(probability, maxExtra)];
    var a := Pipe(ws, []);
    forall n: nat
      ensures WritesAll(a, 0, Copies(p, n), now) <==> now == Pipe(ws, Copies(p, n))
      ensures MaySend(ws[0], n) <==> MayDeliver(f, dir, n)
    {
      RawWrites(a, Copies(p, n), now);
      assert [] + Copies(p, n) == Copies(p, n);
    }
    if Writes(a, 1, p, now) {
      var n: nat :| MaySend(ws[0], n) && WritesAll(a, 0, Copies(p, n), now);
      assert MayDeliver(f, dir, n);
    }
  }

  lemma {:induction false} LoneOther(f: Fault, dir: Direction, p: Chunk, now: Pipe)
    requires !f.Reorder? && !f.Duplication?
    ensures var ws := WrapperFor(f, dir);
            Writes(Pipe(ws, []), |ws|, p, now) <==>
            (now == Pipe(ws, []) && MayDeliver(f, dir, 0)) || (now == Pipe(ws, [p]) && MayDeliver(f, dir, 1))
  {
    var ws := WrapperFor(f, dir);
    assert [] + [p] == [p];
    assert Writes(Pipe(ws, []), 0, p, now) <==> now == Pipe(ws, [p]);
  }

  /** Exactly these numbers of copies are possible, and nothing but copies of the chunk arrives. */
  lemma {:induction false} LoneFault(f: Fault, dir: Direction, p: Chunk, now: Pipe)
    requires !f.Reorder?
    ensures WritesInto([f], dir, [p], now) <==>
            exists n: nat :: MayDeliver(f, dir, n) && now == Pipe(WrappersOf([f], dir), Copies(p, n))
  {
    ChainOfOne(f, dir);
    var ws := WrapperFor(f, dir);
    WritesOne(Pipe(ws, []), |ws|, p, now);
    hide WritesAll, Writes;
    if f.Duplication? {
      LoneDuplication(f.probability, f.maxExtra, dir, p, now);
    } else {
      LoneOther(f, dir, p, now);
      OnlyNoneOrOne(f, dir);
      assert Copies(p, 0) == [] && Copies(p, 1) == [p];
    }
  }

  lemma OnlyNoneOrOne(f: Fault, dir: Direction)
    requires !f.Reorder? && !f.Duplication?
    ensures forall n: nat :: MayDeliver(f, dir, n) ==> n == 0 || n == 1
  {
  }

  /** A duplication that always fires delivers at least two copies and at most one more than its extra
      copies. */
  lemma {:induction false} SureDuplication(probability: real, maxExtra: int, dir: Direction, p: Chunk, now: Pipe)
    requires probability >= 1.0 && WritesInto([Duplication(probability, maxExtra)], dir, [p], now)
    ensures 2 <= |now.delivered| <= 1 + maxExtra && forall c <- now.delivered :: c == p
  {
    LoneFault(Duplication(probability, maxExtra), dir, p, now);
  }

  // ------------------------------------------------------------------
  // A reordering fault

  /** One write into a lone shuffle. */
  lemma {:induction false} ShuffleStep(w: Wrapper, d: seq<Chunk>, p: Chunk, now: Pipe) returns (sent: seq<Chunk>, buf: seq<Chunk>)
    requires w.Shuffle? && Writes(Pipe([w], d), 1, p, now)
    ensures Shuffles(w, buf, p, sent) && now == Pipe([w.(buf := buf)], d + sent)
  {
    hide WritesAll, Shuffles;
    var a := Pipe([w], d);
    var low: Pipe;
    sent, buf, low :| Shuffles(w, buf, p, sent) && |low.wrappers| == |a.wrappers| && WritesAll(a, 0, sent, low)
      && now == low.(wrappers := low.wrappers[0 := w.(buf := buf)]);
    RawWrites(a, sent, low);
    assert [w][0 := w.(buf := buf)] == [w.(buf := buf)];
  }

  lemma {:induction false} LastWrite(a: Pipe, level: nat, written: seq<Chunk>, now: Pipe) returns (mid: Pipe)
    requires level <= |a.wrappers| && WritesAll(a, level, written, now) && written != []
    ensures |mid.wrappers| == |a.wrappers|
    ensures var n := |written| - 1; WritesAll(a, level, written[..n], mid) && Writes(mid, level, written[n], now)
  {
    var n := |written| - 1;
    mid :| |mid.wrappers| == |a.wrappers| && WritesAll(a, level, written[..n], mid) && Writes(mid, level, written[n], now);
  }

  lemma NoWrites(a: Pipe, level: nat, now: Pipe)
    requires level <= |a.wrappers|
    ensures WritesAll(a, level, [], now) <==> now == a
  {
  }

  /** Whatever is drawn: at most one chunk less than the size is held, and nothing is lost or added. */
  lemma {:induction false} ReorderHolds(size: int, probability: real, dir: Direction, written: seq<Chunk>, now: Pipe) returns (buf: seq<Chunk>)
    requires WritesInto([Reorder(size, probability)], dir, written, now)
    ensures now.wrappers == [Shuffle(buf, size, probability)] && (|buf| < size || buf == [])
    ensures |now.delivered| + |buf| == |written|
    decreases |written|
  {
    hide WritesAll, Writes;
    ChainOfOne(Reorder(size, probability), dir);
    var start := Pipe([Shuffle([], size, probability)], []);
    buf := [];
    if written == [] {
      NoWrites(start, 1, now);
    } else {
      var n := |written| - 1;
      var mid := LastWrite(start, 1, written, now);
      var before := ReorderHolds(size, probability, dir, written[..n], mid);
      var sent, after := ShuffleStep(Shuffle(before, size, probability), mid.delivered, written[n], now);
      buf := after;
      SentCount(sent, before, written[n]);
    }
  }

  lemma SentCount(sent: seq<Chunk>, buf: seq<Chunk>, p: Chunk)
    ensures multiset(sent) == multiset(buf + [p]) ==> |sent| == |buf| + 1
  {
    assert |sent| == |multiset(sent)| && |buf + [p]| == |multiset(buf + [p])|;
  }

  /** The same chunks, shuffled within batches of this size only. */
  predicate InBatches(d: seq<Chunk>, w: seq<Chunk>, size: nat) {
    && |d| == |w|
    && (d != [] ==>
          && 0 < size <= |d|
          && var n := |d| - size;
             multiset(d[n..]) == multiset(w[n..]) && InBatches(d[..n], w[..n], size))
  }

  /** A reordering that always fires lets chunks out in full batches of its size, each in some order, and
      holds the rest. */
  lemma {:induction false} SureReorder(size: int, probability: real, dir: Direction, written: seq<Chunk>, now: Pipe)
    requires probability >= 1.0 && size >= 1 && WritesInto([Reorder(size, probability)], dir, written, now)
    ensures |now.delivered| <= |written| && InBatches(now.delivered, written[..|now.delivered|], size)
    ensures now.wrappers == [Shuffle(written[|now.delivered|..], size, probability)]
    ensures |written| - |now.delivered| < size
    decreases |written|
  {
    hide WritesAll, Writes, InBatches;
    ChainOfOne(Reorder(size, probability), dir);
    var start := Pipe([Shuffle([], size, probability)], []);
    if written == [] {
      NoWrites(start, 1, now);
      NoBatches(size);
    } else {
      var n := |written| - 1;
      var mid := LastWrite(start, 1, written, now);
      SureReorder(size, probability, dir, written[..n], mid);
      SureStep(size, probability, written[..n], mid.delivered, written[n], now);
      assert written == written[..n] + [written[n]];
    }
  }

  lemma {:induction false} SureStep(size: int, probability: real, w: seq<Chunk>, d: seq<Chunk>, p: Chunk, now: Pipe)
    requires probability >= 1.0 && size >= 1 && |d| <= |w| && |w| - |d| < size && InBatches(d, w[..|d|], size)
    requires Writes(Pipe([Shuffle(w[|d|..], size, probability)], d), 1, p, now)
    ensures |now.delivered| <= |w| + 1 && |w| + 1 - |now.delivered| < size
    ensures InBatches(now.delivered, (w + [p])[..|now.delivered|], size)
    ensures now.wrappers == [Shuffle((w + [p])[|now.delivered|..], size, probability)]
  {
    hide Writes, InBatches;
    var before, all := w[|d|..], w + [p];
    assert before + [p] == all[|d|..] && w[..|d|] == all[..|d|];
    var sent, after := ShuffleStep(Shuffle(before, size, probability), d, p, now);
    SentCount(sent, before, p);
    if |before| + 1 == size {
      BatchAdded(d, all[..|d|], sent, all[|d|..], size);
      assert all[..|d|] + all[|d|..] == all && all[|all|..] == [] && all[..|now.delivered|] == all;
    } else {
      assert d + sent == d;
    }
  }

  lemma NoBatches(size: nat)
    ensures InBatches([], [], size)
  {
  }

  lemma {:induction false} BatchAdded(d: seq<Chunk>, w: seq<Chunk>, sent: seq<Chunk>, block: seq<Chunk>, size: nat)
    requires InBatches(d, w, size) && |sent| == |block| == size > 0 && multiset(sent) == multiset(block)
    ensures InBatches(d + sent, w + block, size)
  {
    var n := |d + sent| - size;
    assert (d + sent)[n..] == sent && (d + sent)[..n] == d && (w + block)[n..] == block && (w + block)[..n] == w;
  }

  // ------------------------------------------------------------------
  // How many copies any chain can make

  /** How many copies a fault can make of a chunk. */
  function CopiesOf(f: Fault): nat {
    if f.Duplication? && f.probability > 0.0 && f.maxExtra > 0 then 1 + f.maxExtra else 1
  }

  function Product(faults: seq<Fault>): nat {
    if faults == [] then 1 else Times(CopiesOf(faults[|faults| - 1]), Product(faults[..|faults| - 1]))
  }

  function Times(a: nat, b: nat): nat {
    a * b
  }

  function Factor(w: Wrapper): nat {
    if w.Repeat? && w.prob > 0.0 && w.maxCopy > 0 then 1 + w.maxCopy else 1
  }

  function FactorBelow(ws: seq<Wrapper>, level: nat): (r: nat)
    requires level <= |ws|
    ensures r >= 1
  {
    if level == 0 then 1 else TimesPositive(Factor(ws[level - 1]), FactorBelow(ws, level - 1)); Times(Factor(ws[level - 1]), FactorBelow(ws, level - 1))
  }

  lemma TimesPositive(a: nat, b: nat)
    requires a >= 1 && b >= 1
    ensures Times(a, b) >= 1
  {
  }

  lemma TimesAdds(a: nat, b: nat, c: nat)
    ensures Times(a + b, c) == Times(a, c) + Times(b, c) && Times(1, c) == c && Times(0, c) == 0
  {
  }

  lemma TimesMonotone(a: nat, b: nat, c: nat)
    requires a <= b
    ensures Times(a, c) <= Times(b, c)
  {
  }

  lemma TimesAssociates(a: nat, b: nat, c: nat)
    ensures Times(a, Times(b, c)) == Times(Times(a, b), c) && Times(a, b) == Times(b, a)
  {
  }

  /** What the chunks held below `level` can still become. */
  function Weight(ws: seq<Wrapper>, level: nat, c: Chunk): nat
    requires level <= |ws|
  {
    if level == 0 then 0
    else
      var w := ws[level - 1];
      Weight(ws, level - 1, c) + if w.Shuffle? then Times(multiset(w.buf)[c], FactorBelow(ws, level - 1)) else 0
  }

  function Load(p: Pipe, level: nat, c: Chunk): nat
    requires level <= |p.wrappers|
  {
    multiset(p.delivered)[c] + Weight(p.wrappers, level, c)
  }

  lemma {:induction false} FactorSame(a: seq<Wrapper>, b: seq<Wrapper>, level: nat)
    requires SameShape(a, b) && level <= |a|
    ensures FactorBelow(a, level) == FactorBelow(b, level)
  {
    if level > 0 {
      FactorSame(a, b, level - 1);
      assert SameKind(a[level - 1], b[level - 1]);
    }
  }

  /** Wrappers from `level` on play no part. */
  lemma {:induction false} WeightBelow(ws: seq<Wrapper>, level: nat, k: nat, w: Wrapper, c: Chunk)
    requires level <= k < |ws|
    ensures Weight(ws[k := w], level, c) == Weight(ws, level, c) && FactorBelow(ws[k := w], level) == FactorBelow(ws, level)
  {
    if level > 0 {
      WeightBelow(ws, level - 1, k, w, c);
    }
  }

  lemma {:induction false} WritesShape(a: Pipe, level: nat, ps: seq<Chunk>, b: Pipe)
    requires level <= |a.wrappers| && WritesAll(a, level, ps, b)
    ensures SameShape(a.wrappers, b.wrappers) && (forall i :: level <= i < |a.wrappers| ==> a.wrappers[i] == b.wrappers[i])
  {
    hide WritesAll;
    WritesAllObey(a, level, ps, b);
  }

  /** A write adds to the load at most what the wrappers below can make of the chunk. */
  lemma {:induction false} WritesWeigh(a: Pipe, level: nat, p: Chunk, b: Pipe, c: Chunk)
    requires level <= |a.wrappers| && Writes(a, level, p, b)
    ensures level <= |b.wrappers| && Load(b, level, c) <= Load(a, level, c) + Times(multiset{p}[c], FactorBelow(a.wrappers, level))
    decreases level, 0, 1
  {
    hide Times, WritesAll;
    WritesOne(a, level, p, b);
    WritesShape(a, level, [p], b);
    TimesAdds(0, 0, FactorBelow(a.wrappers, level));
    TimesMonotone(0, multiset{p}[c], FactorBelow(a.wrappers, level));
    if level > 0 {
      var w := a.wrappers[level - 1];
      TimesAdds(0, 0, FactorBelow(a.wrappers, level - 1));
      match w {
        case Delay => WritesWeigh(a, level - 1, p, b, c);
        case Blackhole =>
        case Drop(low, high) =>
          if b != a {
            WritesWeigh(a, level - 1, p, b, c);
          }
        case Repeat(_, _) => RepeatWeighs(a, level, p, b, c);
        case Shuffle(_, _, _) => ShuffleWeighs(a, level, p, b, c);
      }
    }
  }

  lemma {:induction false} WritesAllWeigh(a: Pipe, level: nat, ps: seq<Chunk>, b: Pipe, c: Chunk)
    requires level <= |a.wrappers| && WritesAll(a, level, ps, b)
    ensures level <= |b.wrappers| && Load(b, level, c) <= Load(a, level, c) + Times(multiset(ps)[c], FactorBelow(a.wrappers, level))
    decreases level, 1, |ps|
  {
    hide Times, Writes, Weight;
    TimesAdds(0, 0, FactorBelow(a.wrappers, level));
    if ps != [] {
      var n := |ps| - 1;
      var mid: Pipe :| |mid.wrappers| == |a.wrappers| && WritesAll(a, level, ps[..n], mid) && Writes(mid, level, ps[n], b);
      WritesAllWeigh(a, level, ps[..n], mid, c);
      WritesWeigh(mid, level, ps[n], b, c);
      WritesShape(a, level, ps[..n], mid);
      FactorSame(a.wrappers, mid.wrappers, level);
      assert ps == ps[..n] + [ps[n]];
      TimesAdds(multiset(ps[..n])[c], multiset{ps[n]}[c], FactorBelow(a.wrappers, level));
    }
  }

  lemma {:induction false} RepeatWeighs(a: Pipe, level: nat, p: Chunk, b: Pipe, c: Chunk)
    requires 0 < level <= |a.wrappers| && a.wrappers[level - 1].Repeat? && Writes(a, level, p, b)
    ensures level <= |b.wrappers| && Load(b, level, c) <= Load(a, level, c) + Times(multiset{p}[c], FactorBelow(a.wrappers, level))
    decreases level, 0, 0
  {
    hide Times, WritesAll;
    var w, below := a.wrappers[level - 1], FactorBelow(a.wrappers, level - 1);
    var n: nat :| MaySend(w, n) && WritesAll(a, level - 1, Copies(p, n), b);
    WritesAllWeigh(a, level - 1, Copies(p, n), b, c);
    WritesShape(a, level - 1, Copies(p, n), b);
    CopiesCounted(p, n, c);
    var m := multiset{p}[c];
    TimesMonotone(n, Factor(w), m);
    TimesAssociates(n, m, below);
    TimesAssociates(m, Factor(w), below);
    TimesMonotone(Times(n, m), Times(Factor(w), m), below);
    TimesAssociates(Factor(w), m, below);
  }

  lemma {:induction false} CopiesCounted(p: Chunk, n: nat, c: Chunk)
    ensures multiset(Copies(p, n))[c] == Times(n, multiset{p}[c])
  {
    if n == 0 {
      assert Copies(p, n) == [];
    } else {
      CopiesCounted(p, n - 1, c);
      assert Copies(p, n) == Copies(p, n - 1) + [p];
      TimesAdds(n - 1, 1, multiset{p}[c]);
    }
  }

  lemma {:induction false} ShuffleWeighs(a: Pipe, level: nat, p: Chunk, b: Pipe, c: Chunk)
    requires 0 < level <= |a.wrappers| && a.wrappers[level - 1].Shuffle? && Writes(a, level, p, b)
    ensures level <= |b.wrappers| && Load(b, level, c) <= Load(a, level, c) + Times(multiset{p}[c], FactorBelow(a.wrappers, level))
    decreases level, 0, 0
  {
    hide Times, WritesAll, Shuffles;
    var w, below := a.wrappers[level - 1], FactorBelow(a.wrappers, level - 1);
    var sent: seq<Chunk>, buf: seq<Chunk>, low: Pipe :|
      && Shuffles(w, buf, p, sent) && |low.wrappers| == |a.wrappers| && WritesAll(a, level - 1, sent, low)
      && b == low.(wrappers := low.wrappers[level - 1 := w.(buf := buf)]);
    WritesAllWeigh(a, level - 1, sent, low, c);
    WritesShape(a, level - 1, sent, low);
    FactorSame(a.wrappers, low.wrappers, level - 1);
    WeightBelow(low.wrappers, level - 1, level - 1, w.(buf := buf), c);
    ShuffleBalances(w, buf, p, sent, c);
    TimesAdds(multiset(sent)[c], multiset(buf)[c], below);
    TimesAdds(multiset(w.buf)[c], multiset{p}[c], below);
    TimesAdds(0, 0, below);
  }

  /** A shuffle neither makes nor loses a chunk. */
  lemma {:induction false} ShuffleBalances(w: Wrapper, buf: seq<Chunk>, p: Chunk, sent: seq<Chunk>, c: Chunk)
    requires w.Shuffle? && Shuffles(w, buf, p, sent)
    ensures multiset(sent)[c] + multiset(buf)[c] == multiset(w.buf)[c] + multiset{p}[c]
  {
    assert multiset(w.buf + [p]) == multiset(w.buf) + multiset{p} && multiset([p]) == multiset{p};
    assert multiset(sent) + multiset(buf) == multiset(w.buf) + multiset{p};
    assert (multiset(sent) + multiset(buf))[c] == (multiset(w.buf) + multiset{p})[c];
  }

  lemma {:induction false} HeldWithinWeight(ws: seq<Wrapper>, level: nat, c: Chunk)
    requires level <= |ws|
    ensures Held(ws[..level])[c] <= Weight(ws, level, c)
  {
    hide Times;
    if level > 0 {
      HeldWithinWeight(ws, level - 1, c);
      HeldSplit(ws, level);
      var w := ws[level - 1];
      if w.Shuffle? {
        TimesAssociates(multiset(w.buf)[c], FactorBelow(ws, level - 1), 0);
        TimesMonotone(1, FactorBelow(ws, level - 1), multiset(w.buf)[c]);
        TimesAdds(0, 0, multiset(w.buf)[c]);
      }
    }
  }

  lemma {:induction false} NothingWeighs(faults: seq<Fault>, dir: Direction, c: Chunk)
    ensures var ws := WrappersOf(faults, dir); Weight(ws, |ws|, c) == 0 && FactorBelow(ws, |ws|) == Product(faults)
  {
    hide Times;
    if faults != [] {
      var n := |faults| - 1;
      NothingWeighs(faults[..n], dir, c);
      var before, last := WrappersOf(faults[..n], dir), WrapperFor(faults[n], dir);
      WeightOfPrefix(before, last, |before|, c);
      TimesAdds(0, 0, Product(faults[..n]));
      TimesAdds(0, 0, FactorBelow(before + last, |before|));
      assert last == [] ==> before + last == before;
    }
  }

  lemma {:induction false} WeightOfPrefix(a: seq<Wrapper>, b: seq<Wrapper>, level: nat, c: Chunk)
    requires level <= |a|
    ensures Weight(a + b, level, c) == Weight(a, level, c) && FactorBelow(a + b, level) == FactorBelow(a, level)
  {
    if level > 0 {
      WeightOfPrefix(a, b, level - 1, c);
    }
  }

  /** Of any chain and any writes: delivered and held copies of a chunk are at most the written ones times
      the product of what its duplications can make of one. */
  lemma {:induction false} CopyBound(faults: seq<Fault>, dir: Direction, written: seq<Chunk>, now: Pipe, c: Chunk)
    requires WritesInto(faults, dir, written, now)
    ensures multiset(now.delivered)[c] + Held(now.wrappers)[c] <= Product(faults) * multiset(written)[c]
  {
    hide WritesAll, Held, Weight, FactorBelow, Product, WrappersOf;
    var ws := WrappersOf(faults, dir);
    var start, n := Pipe(ws, []), |ws|;
    NothingWeighs(faults, dir, c);
    WritesAllWeigh(start, n, written, now, c);
    WritesShape(start, n, written, now);
    HeldWithinWeight(now.wrappers, n, c);
    assert now.wrappers[..n] == now.wrappers;
  }
}
