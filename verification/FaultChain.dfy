/** Connection faults as a chain of wrappers around a raw connection.

    Every fault contributes at most one wrapper; a write enters at the outermost wrapper and each
    wrapper decides what it hands down.  The raw connection is the sequence of chunks that reached
    it.  Random draws are nondeterministic; waiting takes no part in what is delivered.
 */
module FaultChain {

  datatype Chunk = Chunk(bytes: seq<bv8>)

  datatype Direction = ClientToUpstream | UpstreamToClient

  datatype Fault =
    | Latency(delay: int)
    | Throttle(rate: int, burst: int)
    | Reorder(size: int, probability: real)
    | Duplication(probability: real, maxExtra: int)
    | OneWay(block: Direction)
    | Rst
    | Loss(baseline: real, bursting: real)
    | Dns

  datatype Wrapper =
    | Delay
    | Shuffle(buf: seq<Chunk>, size: int, prob: real)
    | Repeat(prob: real, maxCopy: int)
    | Blackhole
    | Drop(low: real, high: real)

  /** A connection in the making: the wrappers, innermost first, and whether the raw connection was
      told to reset on close. */
  datatype Chain = Chain(wrappers: seq<Wrapper>, reset: bool)

  // ------------------------------------------------------------------
  // Building the chain

  function WrapperFor(f: Fault, dir: Direction): seq<Wrapper> {
    match f
    case Latency(_) => [Delay]
    case Throttle(_, _) => [Delay]
    case Reorder(size, probability) => [Shuffle([], size, probability)]
    case Duplication(probability, maxExtra) => [Repeat(probability, maxExtra)]
    case OneWay(block) => if dir == block then [Blackhole] else []
    case Rst => []
    case Loss(baseline, bursting) => [Drop(baseline, bursting)]
    case Dns => []
  }

  /** `Apply` of one fault.  A reset works on the raw connection only: through any wrapper it is
      silently ignored. */
  function ApplyFault(c: Chain, f: Fault, dir: Direction): Chain {
    Chain(c.wrappers + WrapperFor(f, dir), c.reset || (f.Rst? && c.wrappers == []))
  }

  function Pass(c: Chain, faults: seq<Fault>, rst: bool, dir: Direction): Chain {
    if faults == [] then c
    else
      var rest, last := Pass(c, faults[..|faults| - 1], rst, dir), faults[|faults| - 1];
      if last.Rst? == rst then ApplyFault(rest, last, dir) else rest
  }

  lemma PassNone(c: Chain, rst: bool, dir: Direction)
    ensures Pass(c, [], rst, dir) == c
  {
  }

  lemma PassStep(c: Chain, faults: seq<Fault>, i: nat, rst: bool, dir: Direction)
    requires i < |faults|
    ensures Pass(c, faults[..i + 1], rst, dir) ==
            var rest := Pass(c, faults[..i], rst, dir);
            if faults[i].Rst? == rst then ApplyFault(rest, faults[i], dir) else rest
  {
    assert faults[..i + 1][..i] == faults[..i];
  }


  /** A raw connection, and whether an earlier chain has already told it to reset: nothing undoes that. */
  function Raw(wasReset: bool): Chain {
    Chain([], wasReset)
  }

  /** The chain the registry builds: resets first, then everything else in list order. */
  function Fold(wasReset: bool, faults: seq<Fault>, dir: Direction): Chain {
    Pass(Pass(Raw(wasReset), faults, true, dir), faults, false, dir)
  }

  /** The wrappers of a fault list in list order. */
  function WrappersOf(faults: seq<Fault>, dir: Direction): seq<Wrapper> {
    if faults == [] then []
    else WrappersOf(faults[..|faults| - 1], dir) + WrapperFor(faults[|faults| - 1], dir)
  }

  lemma {:induction false} ResetPass(wasReset: bool, faults: seq<Fault>, dir: Direction)
    ensures Pass(Raw(wasReset), faults, true, dir) == Chain([], wasReset || Rst in faults)
  {
    if faults != [] {
      ResetPass(wasReset, faults[..|faults| - 1], dir);
      assert faults == faults[..|faults| - 1] + [faults[|faults| - 1]];
    }
  }

  lemma {:induction false} OtherPass(c: Chain, faults: seq<Fault>, dir: Direction)
    ensures Pass(c, faults, false, dir) == Chain(c.wrappers + WrappersOf(faults, dir), c.reset)
  {
    if faults != [] {
      OtherPass(c, faults[..|faults| - 1], dir);
    }
  }

  /** Because resets are applied first, a reset anywhere in the list takes effect; it stays from earlier
      chains; and the wrappers come in list order. */
  lemma {:induction false} FoldShape(wasReset: bool, faults: seq<Fault>, dir: Direction)
    ensures Fold(wasReset, faults, dir) == Chain(WrappersOf(faults, dir), wasReset || Rst in faults)
  {
    ResetPass(wasReset, faults, dir);
    OtherPass(Pass(Raw(wasReset), faults, true, dir), faults, dir);
  }

  /** In one pass over the list a reset behind a wrapper would be lost. */
  lemma {:induction false} OnePassLosesReset(delay: int, dir: Direction)
    ensures !ApplyFault(ApplyFault(Raw(false), Latency(delay), dir), Rst, dir).reset
    ensures Fold(false, [Latency(delay), Rst], dir).reset
  {
    FoldShape(false, [Latency(delay), Rst], dir);
  }

  // ------------------------------------------------------------------
  // What writing into a chain does

  datatype Pipe = Pipe(wrappers: seq<Wrapper>, delivered: seq<Chunk>)

  /** The same wrapper up to what it holds back. */
  predicate SameKind(a: Wrapper, b: Wrapper) {
    a == b || (a.Shuffle? && b.Shuffle? && b == a.(buf := b.buf))
  }

  function Held(ws: seq<Wrapper>): multiset<Chunk> {
    if ws == [] then multiset{}
    else
      var last := ws[|ws| - 1];
      Held(ws[..|ws| - 1]) + if last.Shuffle? then multiset(last.buf) else multiset{}
  }

  /** Delivered chunks together with those held back below `level`. */
  function Stock(p: Pipe, level: nat): multiset<Chunk>
    requires level <= |p.wrappers|
  {
    multiset(p.delivered) + Held(p.wrappers[..level])
  }

  /** A draw lies in [0, 1), so a rate of zero never fires and a rate of one always does. */
  predicate CanLose(w: Wrapper) {
    w.Blackhole? || (w.Drop? && (w.low > 0.0 || w.high > 0.0))
  }

  predicate CanRepeat(w: Wrapper) {
    w.Repeat? && w.prob > 0.0
  }

  predicate CanReorder(w: Wrapper) {
    w.Shuffle? && w.prob > 0.0 && w.size > 1
  }

  predicate Kills(w: Wrapper) {
    w.Blackhole? || (w.Drop? && w.low >= 1.0 && w.high >= 1.0)
  }

  predicate Dead(ws: seq<Wrapper>) {
    exists w <- ws :: Kills(w)
  }

  predicate Lossless(ws: seq<Wrapper>) {
    forall w <- ws :: !CanLose(w)
  }

  predicate Repeatless(ws: seq<Wrapper>) {
    forall w <- ws :: !CanRepeat(w)
  }

  predicate Plain(ws: seq<Wrapper>) {
    forall w <- ws :: !CanLose(w) && !CanRepeat(w) && !CanReorder(w)
  }

  ghost predicate SameShape(a: seq<Wrapper>, b: seq<Wrapper>) {
    |a| == |b| && forall i :: 0 <= i < |a| ==> SameKind(a[i], b[i])
  }

  /** Everything the laws say of writing the chunks `ps` in at `level`. */
  ghost predicate Effect(a: Pipe, b: Pipe, level: nat, ps: seq<Chunk>) {
    && level <= |a.wrappers|
    && SameShape(a.wrappers, b.wrappers)
    && (forall i :: level <= i < |a.wrappers| ==> a.wrappers[i] == b.wrappers[i])
    && (forall c <- Stock(b, level) :: c in Stock(a, level) || c in ps)
    && (Dead(a.wrappers[..level]) ==> b.delivered == a.delivered)
    && (Lossless(a.wrappers[..level]) ==> Stock(a, level) + multiset(ps) <= Stock(b, level))
    && (Repeatless(a.wrappers[..level]) ==> Stock(b, level) <= Stock(a, level) + multiset(ps))
    && (Plain(a.wrappers[..level]) ==> b.delivered == a.delivered + ps)
  }

  lemma {:induction false} SameKindSameClass(a: Wrapper, b: Wrapper)
    requires SameKind(a, b)
    ensures CanLose(a) <==> CanLose(b)
    ensures CanRepeat(a) <==> CanRepeat(b)
    ensures CanReorder(a) <==> CanReorder(b)
    ensures Kills(a) <==> Kills(b)
    ensures SameKind(b, a)
  {
  }

  lemma {:induction false} ClassCarries(a: seq<Wrapper>, b: seq<Wrapper>)
    requires SameShape(a, b)
    ensures Dead(a) ==> Dead(b)
    ensures Lossless(a) ==> Lossless(b)
    ensures Repeatless(a) ==> Repeatless(b)
    ensures Plain(a) ==> Plain(b)
  {
    hide SameKind, CanLose, CanRepeat, CanReorder, Kills;
    forall i | 0 <= i < |a|
      ensures CanLose(a[i]) <==> CanLose(b[i])
      ensures CanRepeat(a[i]) <==> CanRepeat(b[i])
      ensures CanReorder(a[i]) <==> CanReorder(b[i])
      ensures Kills(a[i]) ==> Kills(b[i]) && b[i] in b
    {
      SameKindSameClass(a[i], b[i]);
    }
  }

  lemma {:induction false} SameShapeSameClass(a: seq<Wrapper>, b: seq<Wrapper>)
    requires SameShape(a, b)
    ensures Dead(a) <==> Dead(b)
    ensures Lossless(a) <==> Lossless(b)
    ensures Repeatless(a) <==> Repeatless(b)
    ensures Plain(a) <==> Plain(b)
  {
    hide Dead, Lossless, Repeatless, Plain, SameKind;
    ClassCarries(a, b);
    forall i | 0 <= i < |a|
      ensures SameKind(b[i], a[i])
    {
      SameKindSameClass(a[i], b[i]);
    }
    ClassCarries(b, a);
  }

  lemma {:induction false} EffectOfNothing(a: Pipe, level: nat)
    requires level <= |a.wrappers|
    ensures Effect(a, a, level, [])
  {
    assert a.delivered + [] == a.delivered;
  }

  lemma {:induction false} EffectCompose(a: Pipe, b: Pipe, c: Pipe, level: nat, ps: seq<Chunk>, qs: seq<Chunk>)
    requires Effect(a, b, level, ps) && Effect(b, c, level, qs)
    ensures Effect(a, c, level, ps + qs)
  {
    hide Dead, Lossless, Repeatless, Plain, Held;
    SameShapeSameClass(a.wrappers[..level], b.wrappers[..level]);
    forall x | x in Stock(c, level)
      ensures x in Stock(a, level) || x in ps + qs
    {
      assert x in Stock(b, level) || x in qs;
    }
    assert multiset(ps + qs) == multiset(ps) + multiset(qs);
    assert a.delivered + (ps + qs) == a.delivered + ps + qs;
    forall i | 0 <= i < |a.wrappers|
      ensures SameKind(a.wrappers[i], c.wrappers[i])
    {
      assert SameKind(a.wrappers[i], b.wrappers[i]) && SameKind(b.wrappers[i], c.wrappers[i]);
    }
  }

  // ------------------------------------------------------------------
  // From what a wrapper hands down to what was written into it

  lemma {:induction false} HeldSplit(ws: seq<Wrapper>, level: nat)
    requires 0 < level <= |ws|
    ensures var w := ws[level - 1];
            Held(ws[..level]) == Held(ws[..level - 1]) + if w.Shuffle? then multiset(w.buf) else multiset{}
  {
    assert ws[..level][..level - 1] == ws[..level - 1];
  }

  lemma {:induction false} ClassSplit(ws: seq<Wrapper>, level: nat)
    requires 0 < level <= |ws|
    ensures Dead(ws[..level]) <==> Dead(ws[..level - 1]) || Kills(ws[level - 1])
    ensures Lossless(ws[..level]) <==> Lossless(ws[..level - 1]) && !CanLose(ws[level - 1])
    ensures Repeatless(ws[..level]) <==> Repeatless(ws[..level - 1]) && !CanRepeat(ws[level - 1])
    ensures Plain(ws[..level]) <==>
              Plain(ws[..level - 1]) && !CanLose(ws[level - 1]) && !CanRepeat(ws[level - 1]) && !CanReorder(ws[level - 1])
  {
    assert ws[..level] == ws[..level - 1] + [ws[level - 1]];
  }

  lemma {:induction false} CopiesCount(qs: seq<Chunk>, p: Chunk)
    requires forall q <- qs :: q == p
    ensures 1 <= |qs| ==> multiset{p} <= multiset(qs)
    ensures |qs| <= 1 ==> multiset(qs) <= multiset{p}
  {
    if 1 <= |qs| {
      assert qs[0] in qs;
    }
    if |qs| == 1 {
      assert qs == [p];
    }
  }

  /** Bounds on what was handed down carry over to what was written. */
  lemma {:induction false} CarryUp(sa: multiset<Chunk>, sb: multiset<Chunk>, own: multiset<Chunk>, kept: multiset<Chunk>, handed: multiset<Chunk>, written: multiset<Chunk>)
    ensures sa + handed <= sb && own + written <= kept + handed ==> sa + own + written <= sb + kept
    ensures sb <= sa + handed && kept + handed <= own + written ==> sb + kept <= sa + own + written
  {
    if sa + handed <= sb && own + written <= kept + handed {
      forall x
        ensures (sa + own + written)[x] <= (sb + kept)[x]
      {
        assert (sa + handed)[x] <= sb[x] && (own + written)[x] <= (kept + handed)[x];
      }
    }
    if sb <= sa + handed && kept + handed <= own + written {
      forall x
        ensures (sb + kept)[x] <= (sa + own + written)[x]
      {
        assert sb[x] <= (sa + handed)[x] && (kept + handed)[x] <= (own + written)[x];
      }
    }
  }

  /** A wrapper that hands down copies of the chunk: at least one unless it can lose, at most one
      unless it can repeat, none if it kills. */
  lemma {:induction false} HandDown(a: Pipe, b: Pipe, level: nat, qs: seq<Chunk>, p: Chunk)
    requires 0 < level && Effect(a, b, level - 1, qs) && level <= |a.wrappers| && forall q <- qs :: q == p
    requires CanLose(a.wrappers[level - 1]) || 1 <= |qs|
    requires CanRepeat(a.wrappers[level - 1]) || |qs| <= 1
    requires Kills(a.wrappers[level - 1]) ==> b == a
    ensures Effect(a, b, level, [p])
  {
    hide Stock, Dead, Lossless, Repeatless, Plain, CanLose, CanRepeat, CanReorder, Kills, SameKind;
    ClassSplit(a.wrappers, level);
    HandDownStock(a, b, level, qs, p);
    if |qs| == 1 {
      assert qs[0] in qs;
      assert qs == [p];
    }
  }

  lemma {:induction false} HandDownStock(a: Pipe, b: Pipe, level: nat, qs: seq<Chunk>, p: Chunk)
    requires 0 < level && level <= |a.wrappers| == |b.wrappers| && a.wrappers[level - 1] == b.wrappers[level - 1]
    requires forall q <- qs :: q == p
    ensures (forall c <- Stock(b, level - 1) :: c in Stock(a, level - 1) || c in qs) ==>
              forall c <- Stock(b, level) :: c in Stock(a, level) || c in [p]
    ensures 1 <= |qs| && Stock(a, level - 1) + multiset(qs) <= Stock(b, level - 1) ==>
              Stock(a, level) + multiset([p]) <= Stock(b, level)
    ensures |qs| <= 1 && Stock(b, level - 1) <= Stock(a, level - 1) + multiset(qs) ==>
              Stock(b, level) <= Stock(a, level) + multiset([p])
  {
    hide Held;
    HeldSplit(a.wrappers, level);
    HeldSplit(b.wrappers, level);
    var w := a.wrappers[level - 1];
    var own := if w.Shuffle? then multiset(w.buf) else multiset{};
    assert Stock(a, level) == Stock(a, level - 1) + own && Stock(b, level) == Stock(b, level - 1) + own;
    assert multiset([p]) == multiset{p};
    CopiesCount(qs, p);
    CarryUp(Stock(a, level - 1), Stock(b, level - 1), own, own, multiset(qs), multiset{p});
    if forall c <- Stock(b, level - 1) :: c in Stock(a, level - 1) || c in qs {
      forall c | c in Stock(b, level)
        ensures c in Stock(a, level) || c in [p]
      {
        assert c in Stock(b, level - 1) || c in own;
        assert c in qs ==> c == p;
      }
    }
  }

  lemma {:induction false} RawWrite(a: Pipe, p: Chunk)
    ensures Effect(a, a.(delivered := a.delivered + [p]), 0, [p])
  {
    assert multiset(a.delivered + [p]) == multiset(a.delivered) + multiset{p};
  }

  lemma {:induction false} HoldBack(a: Pipe, level: nat, p: Chunk)
    requires 0 < level <= |a.wrappers| && CanReorder(a.wrappers[level - 1])
    ensures var w := a.wrappers[level - 1];
            Effect(a, a.(wrappers := a.wrappers[level - 1 := w.(buf := w.buf + [p])]), level, [p])
  {
    hide Held, Dead, Lossless, Repeatless, Plain;
    var w := a.wrappers[level - 1];
    var b := a.(wrappers := a.wrappers[level - 1 := w.(buf := w.buf + [p])]);
    assert b.wrappers[..level - 1] == a.wrappers[..level - 1];
    HeldSplit(a.wrappers, level);
    HeldSplit(b.wrappers, level);
    ClassSplit(a.wrappers, level);
    assert multiset(w.buf + [p]) == multiset(w.buf) + multiset{p};
    assert multiset([p]) == multiset{p} && Stock(b, level) == Stock(a, level) + multiset{p};
  }

  lemma {:induction false} FlushStock(a: Pipe, b: Pipe, c: Pipe, level: nat)
    requires 0 < level <= |a.wrappers| == |b.wrappers| && a.wrappers[level - 1].Shuffle?
    requires c == b.(wrappers := b.wrappers[level - 1 := a.wrappers[level - 1].(buf := [])])
    ensures Stock(a, level) == Stock(a, level - 1) + multiset(a.wrappers[level - 1].buf)
    ensures Stock(c, level) == Stock(b, level - 1)
  {
    hide Held;
    assert c.wrappers[..level - 1] == b.wrappers[..level - 1];
    HeldSplit(a.wrappers, level);
    HeldSplit(c.wrappers, level);
  }

  lemma CannotLose(w: Wrapper)
    requires w.Shuffle?
    ensures !CanLose(w) && !CanRepeat(w) && !Kills(w)
  {
  }

  /** The buffer and the new chunk are handed down in some order and the buffer is emptied. */
  lemma {:induction false} Flush(a: Pipe, b: Pipe, level: nat, qs: seq<Chunk>, p: Chunk)
    requires 0 < level && Effect(a, b, level - 1, qs) && level <= |a.wrappers| && CanReorder(a.wrappers[level - 1])
    requires multiset(qs) == multiset(a.wrappers[level - 1].buf) + multiset{p}
    ensures Effect(a, b.(wrappers := b.wrappers[level - 1 := a.wrappers[level - 1].(buf := [])]), level, [p])
  {
    hide Held, Stock, Dead, Lossless, Repeatless, Plain, CanLose, CanRepeat;
    var w := a.wrappers[level - 1];
    CannotLose(w);
    var c := b.(wrappers := b.wrappers[level - 1 := w.(buf := [])]);
    FlushStock(a, b, c, level);
    ClassSplit(a.wrappers, level);
    assert multiset([p]) == multiset{p};
    CarryUp(Stock(a, level - 1), Stock(b, level - 1), multiset(w.buf), multiset{}, multiset(qs), multiset{p});
    forall x | x in Stock(c, level)
      ensures x in Stock(a, level) || x in [p]
    {
      assert x in Stock(a, level - 1) || x in multiset(qs);
    }
    forall i | 0 <= i < |a.wrappers|
      ensures SameKind(a.wrappers[i], c.wrappers[i])
    {
      assert SameKind(a.wrappers[i], b.wrappers[i]);
    }
  }

  // ------------------------------------------------------------------
  // The chain at work

  /** A duplicating wrapper that can fire needs at least one extra copy to choose from: drawing from
      an empty range panics. */
  predicate Sound(ws: seq<Wrapper>) {
    forall w <- ws :: w.Repeat? && w.prob > 0.0 ==> w.maxCopy >= 1
  }

  lemma {:induction false} SoundRepeat(ws: seq<Wrapper>, k: nat)
    requires Sound(ws) && k < |ws|
    ensures ws[k].Repeat? && ws[k].prob > 0.0 ==> ws[k].maxCopy >= 1
  {
    assert ws[k] in ws;
  }

  lemma {:induction false} SoundUpdate(ws: seq<Wrapper>, k: nat, buf: seq<Chunk>)
    requires Sound(ws) && k < |ws| && ws[k].Shuffle?
    ensures Sound(ws[k := ws[k].(buf := buf)])
  {
    var b := ws[k := ws[k].(buf := buf)];
    forall i | 0 <= i < |b|
      ensures b[i].Repeat? && b[i].prob > 0.0 ==> b[i].maxCopy >= 1
    {
      SoundRepeat(ws, i);
    }
  }

  lemma {:induction false} SoundCarries(a: seq<Wrapper>, b: seq<Wrapper>)
    requires SameShape(a, b) && Sound(a)
    ensures Sound(b)
  {
    forall i | 0 <= i < |b|
      ensures b[i].Repeat? && b[i].prob > 0.0 ==> b[i].maxCopy >= 1
    {
      SoundRepeat(a, i);
      assert SameKind(a[i], b[i]);
    }
  }

  /** A full buffer is flushed at once. */
  predicate Roomy(w: Wrapper) {
    w.Shuffle? ==> |w.buf| < w.size || w.buf == []
  }

  /** A shuffle that always fires and has room for more than one chunk keeps the next one. */
  predicate MustHold(w: Wrapper) {
    w.Shuffle? && w.prob >= 1.0 && |w.buf| + 1 < w.size
  }

  /** What a shuffle does with a chunk, from buffer to buffer: it hands the chunk down, keeps it, or
      hands everything down in some order once the buffer is full. */
  predicate Shuffles(w: Wrapper, buf: seq<Chunk>, p: Chunk, sent: seq<Chunk>)
    requires w.Shuffle?
  {
    || (sent == [p] && buf == w.buf && (w.prob < 1.0 || |w.buf| >= w.size))
    || (w.prob > 0.0 && |w.buf| + 1 < w.size && sent == [] && buf == w.buf + [p])
    || (w.prob > 0.0 && |w.buf| + 1 == w.size && multiset(sent) == multiset(w.buf + [p]) && buf == [])
  }

  /** How many copies a duplicating wrapper may hand down. */
  predicate MaySend(w: Wrapper, n: nat)
    requires w.Repeat?
  {
    (n == 1 && w.prob < 1.0) || (1 < n <= 1 + w.maxCopy && w.prob > 0.0)
  }

  function Copies(p: Chunk, n: nat): seq<Chunk> {
    seq(n, _ => p)
  }

  /** Exactly what a write of `p` entering below `level` can do, whatever the draws. */
  ghost predicate Writes(a: Pipe, level: nat, p: Chunk, b: Pipe)
    requires level <= |a.wrappers|
    decreases level, 0, 0
  {
    if level == 0 then b == a.(delivered := a.delivered + [p])
    else
      var w := a.wrappers[level - 1];
      match w
      case Delay => Writes(a, level - 1, p, b)
      case Blackhole => b == a
      case Drop(low, high) =>
        || ((low > 0.0 || high > 0.0) && b == a)
        || ((low < 1.0 || high < 1.0) && Writes(a, level - 1, p, b))
      case Repeat(_, _) => exists n: nat :: MaySend(w, n) && WritesAll(a, level - 1, Copies(p, n), b)
      case Shuffle(_, _, _) =>
        exists sent: seq<Chunk>, buf: seq<Chunk>, low: Pipe ::
          && Shuffles(w, buf, p, sent) && |low.wrappers| == |a.wrappers| && WritesAll(a, level - 1, sent, low)
          && b == low.(wrappers := low.wrappers[level - 1 := w.(buf := buf)])
  }

  /** Several writes, one after the other. */
  ghost predicate WritesAll(a: Pipe, level: nat, ps: seq<Chunk>, b: Pipe)
    requires level <= |a.wrappers|
    decreases level, 1, |ps|
  {
    if ps == [] then b == a
    else
      var n := |ps| - 1;
      exists mid: Pipe :: |mid.wrappers| == |a.wrappers| && WritesAll(a, level, ps[..n], mid) && Writes(mid, level, ps[n], b)
  }

  lemma {:induction false} WritesMore(a: Pipe, level: nat, ps: seq<Chunk>, b: Pipe, p: Chunk, c: Pipe)
    requires level <= |a.wrappers| == |b.wrappers| && WritesAll(a, level, ps, b) && Writes(b, level, p, c)
    ensures WritesAll(a, level, ps + [p], c)
  {
    hide Writes;
    assert (ps + [p])[..|ps|] == ps;
  }

  lemma {:induction false} WritesOne(a: Pipe, level: nat, p: Chunk, b: Pipe)
    requires level <= |a.wrappers|
    ensures WritesAll(a, level, [p], b) <==> Writes(a, level, p, b)
  {
    hide Writes;
    assert [p][..0] == [];
    if Writes(a, level, p, b) {
      assert WritesAll(a, level, [p][..0], a);
    }
  }

  /** Every write obeys the laws gathered in `Effect`. */
  lemma {:induction false} WritesObey(a: Pipe, level: nat, p: Chunk, b: Pipe)
    requires level <= |a.wrappers| && Writes(a, level, p, b)
    ensures Effect(a, b, level, [p])
    decreases level, 0, 1
  {
    if level == 0 {
      RawWrite(a, p);
      return;
    }
    hide Effect, Shuffles, MaySend, WritesAll;
    var w := a.wrappers[level - 1];
    match w {
      case Delay =>
        WritesObey(a, level - 1, p, b);
        HandDown(a, b, level, [p], p);
      case Blackhole =>
        EffectOfNothing(a, level - 1);
        HandDown(a, b, level, [], p);
      case Drop(low, high) =>
        if (low > 0.0 || high > 0.0) && b == a {
          EffectOfNothing(a, level - 1);
          HandDown(a, b, level, [], p);
        } else {
          WritesObey(a, level - 1, p, b);
          HandDown(a, b, level, [p], p);
        }
      case Repeat(_, _) =>
        RepeatObeys(a, level, p, b);
      case Shuffle(_, _, _) =>
        ShuffledObeys(a, level, p, b);
    }
  }

  lemma {:induction false} RepeatObeys(a: Pipe, level: nat, p: Chunk, b: Pipe)
    requires 0 < level <= |a.wrappers| && a.wrappers[level - 1].Repeat? && Writes(a, level, p, b)
    ensures Effect(a, b, level, [p])
    decreases level, 0, 0
  {
    hide Effect, WritesAll;
    var w := a.wrappers[level - 1];
    var n: nat :| MaySend(w, n) && WritesAll(a, level - 1, Copies(p, n), b);
    WritesAllObey(a, level - 1, Copies(p, n), b);
    HandDown(a, b, level, Copies(p, n), p);
  }

  lemma {:induction false} ShuffledObeys(a: Pipe, level: nat, p: Chunk, b: Pipe)
    requires 0 < level <= |a.wrappers| && a.wrappers[level - 1].Shuffle? && Writes(a, level, p, b)
    ensures Effect(a, b, level, [p])
    decreases level, 0, 0
  {
    hide Effect, Shuffles;
    var w := a.wrappers[level - 1];
    var sent: seq<Chunk>, buf: seq<Chunk>, low: Pipe :|
      && Shuffles(w, buf, p, sent) && |low.wrappers| == |a.wrappers| && WritesAll(a, level - 1, sent, low)
      && b == low.(wrappers := low.wrappers[level - 1 := w.(buf := buf)]);
    assert sent == [] ==> low == a;
    WritesAllObey(a, level - 1, sent, low);
    ShuffleObeys(a, low, level, p, sent, buf);
  }

  lemma {:induction false} WritesAllObey(a: Pipe, level: nat, ps: seq<Chunk>, b: Pipe)
    requires level <= |a.wrappers| && WritesAll(a, level, ps, b)
    ensures Effect(a, b, level, ps)
    decreases level, 1, |ps|
  {
    hide Effect, Writes;
    if ps == [] {
      EffectOfNothing(a, level);
    } else {
      var n := |ps| - 1;
      var mid: Pipe :| |mid.wrappers| == |a.wrappers| && WritesAll(a, level, ps[..n], mid) && Writes(mid, level, ps[n], b);
      WritesAllObey(a, level, ps[..n], mid);
      WritesObey(mid, level, ps[n], b);
      EffectCompose(a, mid, b, level, ps[..n], [ps[n]]);
      assert ps == ps[..n] + [ps[n]];
    }
  }

  lemma {:induction false} ShuffleObeys(a: Pipe, low: Pipe, level: nat, p: Chunk, sent: seq<Chunk>, buf: seq<Chunk>)
    requires 0 < level <= |a.wrappers| == |low.wrappers| && a.wrappers[level - 1].Shuffle?
    requires Shuffles(a.wrappers[level - 1], buf, p, sent) && Effect(a, low, level - 1, sent)
    requires sent == [] ==> low == a
    ensures Effect(a, low.(wrappers := low.wrappers[level - 1 := a.wrappers[level - 1].(buf := buf)]), level, [p])
  {
    var w := a.wrappers[level - 1];
    var b := low.(wrappers := low.wrappers[level - 1 := w.(buf := buf)]);
    assert low.wrappers[level - 1] == w;
    hide Effect;
    CannotLose(w);
    Alone(sent, p);
    assert [] + [p] == [p];
    if sent == [p] && buf == w.buf {
      assert b == low;
      HandDown(a, low, level, [p], p);
    } else if sent == [] && w.prob > 0.0 && |w.buf| + 1 < w.size {
      HoldBack(a, level, p);
    } else {
      assert multiset(w.buf + [p]) == multiset(w.buf) + multiset{p};
      Flush(a, low, level, sent, p);
    }
  }

  lemma Alone(sent: seq<Chunk>, p: Chunk)
    ensures multiset(sent) == multiset([p]) ==> sent == [p]
  {
    if multiset(sent) == multiset([p]) {
      assert |sent| == |multiset(sent)| == |multiset([p])| == 1;
      assert sent[0] in multiset(sent);
    }
  }

  /** Writes below `level` leave the wrappers from there on alone, and every wrapper its kind. */
  lemma {:induction false} WritesAllKeep(a: Pipe, level: nat, ps: seq<Chunk>, b: Pipe)
    requires level <= |a.wrappers| && WritesAll(a, level, ps, b)
    ensures |b.wrappers| == |a.wrappers| && (forall i :: level <= i < |a.wrappers| ==> a.wrappers[i] == b.wrappers[i])
    ensures Sound(a.wrappers) ==> Sound(b.wrappers)
  {
    hide Sound, WritesAll;
    WritesAllObey(a, level, ps, b);
    if Sound(a.wrappers) {
      SoundCarries(a.wrappers, b.wrappers);
    }
  }

  class WrappedConn {
    var wrappers: seq<Wrapper>
    var delivered: seq<Chunk>
    ghost var written: seq<Chunk>
    ghost const built: seq<Wrapper>

    ghost function View(): Pipe
      reads this
    {
      Pipe(wrappers, delivered)
    }

    /** Since it was built the chain has done nothing but take the chunks in `written`. */
    ghost predicate Valid()
      reads this
    {
      |wrappers| == |built| && WritesAll(Pipe(built, []), |built|, written, View())
    }

    constructor (chain: Chain)
      ensures Valid() && built == wrappers == chain.wrappers && written == [] && delivered == []
    {
      wrappers := chain.wrappers;
      built := chain.wrappers;
      delivered := [];
      written := [];
    }

    /** `ok` is false when the write panics. */
    method Write(p: Chunk) returns (n: nat, ok: bool)
      requires Valid()
      modifies this
      ensures Sound(built) ==> ok
      ensures ok ==> Valid() && written == old(written) + [p] && n == |p.bytes|
      ensures old(wrappers) != [] && MustHold(old(wrappers[|wrappers| - 1])) ==>
                var w := old(wrappers[|wrappers| - 1]);
                ok && delivered == old(delivered) && wrappers == old(wrappers[..|wrappers| - 1]) + [w.(buf := w.buf + [p])]
    {
      hide Writes, WritesAll, Sound, MustHold;
      n := |p.bytes|;
      WritesAllKeep(Pipe(built, []), |built|, written, View());
      ok := WriteAt(|wrappers|, p);
      if ok {
        WritesMore(Pipe(built, []), |built|, written, old(View()), p, View());
        written := written + [p];
        WritesAllKeep(Pipe(built, []), |built|, written, View());
      }
    }

    /** What a connection has delivered and holds, whatever was written into it, in terms of the
        faults it was built from. */
    lemma DeliveryLaws(faults: seq<Fault>, dir: Direction)
      requires Valid() && built == WrappersOf(faults, dir)
      ensures forall c <- delivered :: c in written
      ensures SomeKills(faults, dir) ==> delivered == []
      ensures NoneLoses(faults, dir) && NoneRepeats(faults) ==> multiset(delivered) + Held(wrappers) == multiset(written)
      ensures NoneLoses(faults, dir) && NoneRepeats(faults) && NoneReorders(faults) ==> delivered == written
    {
      hide WritesAll, Held, SomeKills, NoneLoses, NoneRepeats, NoneReorders;
      ChainLaws(faults, dir, View(), written);
    }

    method WriteAt(level: nat, p: Chunk) returns (ok: bool)
      requires level <= |wrappers|
      modifies `wrappers, `delivered
      ensures Sound(old(wrappers)) ==> ok
      ensures ok ==> Writes(old(View()), level, p, View())
      ensures 0 < level && MustHold(old(wrappers[level - 1])) ==>
                var w := old(wrappers[level - 1]);
                ok && delivered == old(delivered) && wrappers == old(wrappers)[level - 1 := w.(buf := w.buf + [p])]
      decreases level, 2
    {
      hide Sound, WritesAll;
      ok := true;
      if level == 0 {
        delivered := delivered + [p];
        return;
      }
      match wrappers[level - 1] {
        case Delay =>
          ok := WriteAt(level - 1, p);
        case Blackhole =>
        case Drop(low, high) =>
          ok := WriteLossy(level, p);
        case Repeat(prob, maxCopy) =>
          ok := WriteRepeated(level, p);
        case Shuffle(buf, size, prob) =>
          ok := WriteShuffled(level, p);
      }
    }

    method WriteLossy(level: nat, p: Chunk) returns (ok: bool)
      requires 0 < level <= |wrappers| && wrappers[level - 1].Drop?
      modifies `wrappers, `delivered
      ensures Sound(old(wrappers)) ==> ok
      ensures ok ==> Writes(old(View()), level, p, View())
      decreases level, 1
    {
      hide Sound, WritesAll;
      var w := wrappers[level - 1];
      var bursting: bool := *;
      var draw := RandomUnit();
      ok := true;
      if draw < if bursting then w.high else w.low {
        return;
      }
      ok := WriteAt(level - 1, p);
    }

    /** Hands the chunk down once, and up to `maxCopy` times more when it duplicates. */
    method WriteRepeated(level: nat, p: Chunk) returns (ok: bool)
      requires 0 < level <= |wrappers| && wrappers[level - 1].Repeat?
      modifies `wrappers, `delivered
      ensures Sound(old(wrappers)) ==> ok
      ensures ok ==> Writes(old(View()), level, p, View())
      decreases level, 1
    {
      hide Sound, WritesAll;
      var w := wrappers[level - 1];
      if Sound(wrappers) {
        SoundRepeat(wrappers, level - 1);
      }
      ok := WriteAt(level - 1, p);
      if !ok {
        return;
      }
      WritesOne(old(View()), level - 1, p, View());
      assert Copies(p, 1) == [p];
      var draw := RandomUnit();
      if draw < w.prob {
        if w.maxCopy < 1 {
          ok := false;
          return;
        }
        var copies :| 1 <= copies <= w.maxCopy;
        for i := 0 to copies
          invariant ok && WritesAll(old(View()), level - 1, Copies(p, i + 1), View())
        {
          ghost var before := View();
          WritesAllKeep(old(View()), level - 1, Copies(p, i + 1), before);
          ok := WriteAt(level - 1, p);
          if !ok {
            return;
          }
          WritesMore(old(View()), level - 1, Copies(p, i + 1), before, p, View());
          assert Copies(p, i + 2) == Copies(p, i + 1) + [p];
        }
        assert MaySend(w, copies + 1);
      } else {
        assert MaySend(w, 1);
      }
    }

    /** Hands the chunk down, keeps it, or flushes the full buffer in some order. */
    method WriteShuffled(level: nat, p: Chunk) returns (ok: bool)
      requires 0 < level <= |wrappers| && wrappers[level - 1].Shuffle?
      modifies `wrappers, `delivered
      ensures Sound(old(wrappers)) ==> ok
      ensures ok ==> Writes(old(View()), level, p, View())
      ensures ok && Roomy(old(wrappers[level - 1])) ==> level <= |wrappers| && Roomy(wrappers[level - 1])
      ensures MustHold(old(wrappers[level - 1])) ==>
                var w := old(wrappers[level - 1]);
                ok && delivered == old(delivered) && wrappers == old(wrappers)[level - 1 := w.(buf := w.buf + [p])]
      decreases level, 1
    {
      hide Sound, WritesAll;
      var w := wrappers[level - 1];
      var draw := RandomUnit();
      ok := true;
      if !(draw < w.prob && |w.buf| < w.size) {
        ok := WriteAt(level - 1, p);
        if ok {
          WritesOne(old(View()), level - 1, p, View());
          WritesAllKeep(old(View()), level - 1, [p], View());
          assert Shuffles(w, w.buf, p, [p]) && wrappers == wrappers[level - 1 := w.(buf := w.buf)];
        }
      } else if |w.buf + [p]| < w.size {
        WritesNone(View(), level - 1);
        assert Shuffles(w, w.buf + [p], p, []);
        wrappers := wrappers[level - 1 := w.(buf := w.buf + [p])];
      } else {
        ok := FlushAll(level, p);
      }
    }

    /** The buffer is full with `p`: everything goes down in some order and the buffer is emptied. */
    method FlushAll(level: nat, p: Chunk) returns (ok: bool)
      requires 0 < level <= |wrappers| && wrappers[level - 1].Shuffle?
      requires var w := wrappers[level - 1]; w.prob > 0.0 && |w.buf| + 1 == w.size
      modifies `wrappers, `delivered
      ensures Sound(old(wrappers)) ==> ok
      ensures ok ==> Writes(old(View()), level, p, View())
      ensures ok ==> level <= |wrappers| && wrappers[level - 1] == old(wrappers[level - 1]).(buf := [])
      decreases level, 0
    {
      hide Sound, WritesAll;
      var w := wrappers[level - 1];
      ok := true;
      var packets :| multiset(packets) == multiset(w.buf + [p]);
      WritesNone(View(), level - 1);
      for i := 0 to |packets|
        invariant ok && WritesAll(old(View()), level - 1, packets[..i], View())
      {
        ghost var before := View();
        WritesAllKeep(old(View()), level - 1, packets[..i], before);
        ok := WriteAt(level - 1, packets[i]);
        if !ok {
          return;
        }
        WritesMore(old(View()), level - 1, packets[..i], before, packets[i], View());
        assert packets[..i + 1] == packets[..i] + [packets[i]];
      }
      assert packets[..|packets|] == packets;
      WritesAllKeep(old(View()), level - 1, packets, View());
      assert Shuffles(w, [], p, packets);
      wrappers := wrappers[level - 1 := w.(buf := [])];
    }
  }

  lemma WritesNone(a: Pipe, level: nat)
    requires level <= |a.wrappers|
    ensures WritesAll(a, level, [], a)
  {
  }

  // ------------------------------------------------------------------
  // The laws of a chain, in terms of the faults it was built from

  predicate FaultLoses(f: Fault, dir: Direction) {
    f == OneWay(dir) || (f.Loss? && (f.baseline > 0.0 || f.bursting > 0.0))
  }

  predicate FaultKills(f: Fault, dir: Direction) {
    f == OneWay(dir) || (f.Loss? && f.baseline >= 1.0 && f.bursting >= 1.0)
  }

  predicate FaultRepeats(f: Fault) {
    f.Duplication? && f.probability > 0.0
  }

  predicate FaultReorders(f: Fault) {
    f.Reorder? && f.probability > 0.0 && f.size > 1
  }

  lemma {:induction false} ClassOfFault(f: Fault, dir: Direction)
    ensures var ws := WrapperFor(f, dir);
            && |ws| <= 1
            && (ws == [] ==> !FaultKills(f, dir) && !FaultLoses(f, dir) && !FaultRepeats(f) && !FaultReorders(f))
            && (ws != [] ==>
                  && (Kills(ws[0]) <==> FaultKills(f, dir)) && (CanLose(ws[0]) <==> FaultLoses(f, dir))
                  && (CanRepeat(ws[0]) <==> FaultRepeats(f)) && (CanReorder(ws[0]) <==> FaultReorders(f))
                  && (ws[0].Shuffle? ==> ws[0].buf == []))
  {
  }

  /** How the class of a chain depends on the last fault. */
  lemma {:induction false} ClassOfLast(before: seq<Wrapper>, f: Fault, dir: Direction)
    ensures var ws := before + WrapperFor(f, dir);
            && (Dead(ws) <==> Dead(before) || FaultKills(f, dir))
            && (Lossless(ws) <==> Lossless(before) && !FaultLoses(f, dir))
            && (Repeatless(ws) <==> Repeatless(before) && !FaultRepeats(f))
            && (Plain(ws) <==> Plain(before) && !FaultLoses(f, dir) && !FaultRepeats(f) && !FaultReorders(f))
            && Held(ws) == Held(before)
  {
    hide Dead, Lossless, Repeatless, Plain, Kills, CanLose, CanRepeat, CanReorder, WrapperFor, FaultKills, FaultLoses, FaultRepeats, FaultReorders;
    ClassOfFault(f, dir);
    var last := WrapperFor(f, dir);
    var ws := before + last;
    if last == [] {
      assert ws == before;
    } else {
      ClassSplit(ws, |ws|);
      HeldSplit(ws, |ws|);
      assert ws[..|ws|] == ws && ws[..|ws| - 1] == before && ws[|ws| - 1] == last[0];
    }
  }

  predicate SomeKills(faults: seq<Fault>, dir: Direction) {
    exists f <- faults :: FaultKills(f, dir)
  }

  predicate NoneLoses(faults: seq<Fault>, dir: Direction) {
    forall f <- faults :: !FaultLoses(f, dir)
  }

  predicate NoneRepeats(faults: seq<Fault>) {
    forall f <- faults :: !FaultRepeats(f)
  }

  predicate NoneReorders(faults: seq<Fault>) {
    forall f <- faults :: !FaultReorders(f)
  }

  lemma {:induction false} FaultsSplit(faults: seq<Fault>, dir: Direction)
    requires faults != []
    ensures var n := |faults| - 1;
            && (SomeKills(faults, dir) <==> SomeKills(faults[..n], dir) || FaultKills(faults[n], dir))
            && (NoneLoses(faults, dir) <==> NoneLoses(faults[..n], dir) && !FaultLoses(faults[n], dir))
            && (NoneRepeats(faults) <==> NoneRepeats(faults[..n]) && !FaultRepeats(faults[n]))
            && (NoneReorders(faults) <==> NoneReorders(faults[..n]) && !FaultReorders(faults[n]))
  {
    hide FaultKills, FaultLoses, FaultRepeats, FaultReorders;
    var n := |faults| - 1;
    assert faults == faults[..n] + [faults[n]];
  }

  /** The classes of a chain are read off the faults it is built from, and a new chain holds nothing. */
  lemma {:induction false} ClassOfFaults(faults: seq<Fault>, dir: Direction)
    ensures Dead(WrappersOf(faults, dir)) <==> SomeKills(faults, dir)
    ensures Lossless(WrappersOf(faults, dir)) <==> NoneLoses(faults, dir)
    ensures Repeatless(WrappersOf(faults, dir)) <==> NoneRepeats(faults)
    ensures Plain(WrappersOf(faults, dir)) <==> NoneLoses(faults, dir) && NoneRepeats(faults) && NoneReorders(faults)
    ensures Held(WrappersOf(faults, dir)) == multiset{}
  {
    if faults != [] {
      hide FaultKills, FaultLoses, FaultRepeats, FaultReorders;
      hide Dead, Lossless, Repeatless, Plain, Held, SomeKills, NoneLoses, NoneRepeats, NoneReorders;
      var n := |faults| - 1;
      ClassOfFaults(faults[..n], dir);
      FaultsSplit(faults, dir);
      ClassOfLast(WrappersOf(faults[..n], dir), faults[n], dir);
    }
  }

  /** Of any sequence of writes into a chain built by the registry: only written chunks arrive; none
      arrives if some fault blocks this direction, wherever it sits; without loss nothing written is
      missing and without duplication nothing arrives twice, counting what a shuffle still holds;
      without any of these, chunks arrive in order. */
  lemma {:induction false} ChainLaws(faults: seq<Fault>, dir: Direction, now: Pipe, written: seq<Chunk>)
    requires var built := WrappersOf(faults, dir); WritesAll(Pipe(built, []), |built|, written, now)
    ensures forall c <- now.delivered :: c in written
    ensures SomeKills(faults, dir) ==> now.delivered == []
    ensures NoneLoses(faults, dir) ==> multiset(written) <= multiset(now.delivered) + Held(now.wrappers)
    ensures NoneRepeats(faults) ==> multiset(now.delivered) + Held(now.wrappers) <= multiset(written)
    ensures NoneLoses(faults, dir) && NoneRepeats(faults) ==> multiset(now.delivered) + Held(now.wrappers) == multiset(written)
    ensures NoneLoses(faults, dir) && NoneRepeats(faults) && NoneReorders(faults) ==> now.delivered == written
  {
    hide Held, Dead, Lossless, Repeatless, Plain, WrappersOf, WritesAll, SomeKills, NoneLoses, NoneRepeats, NoneReorders;
    ClassOfFaults(faults, dir);
    var built := WrappersOf(faults, dir);
    var start, n := Pipe(built, []), |built|;
    WritesAllObey(start, n, written, now);
    assert built[..n] == built && now.wrappers[..n] == now.wrappers;
    assert Stock(start, n) == multiset{} && Stock(now, n) == multiset(now.delivered) + Held(now.wrappers);
    forall c | c in now.delivered
      ensures c in written
    {
      assert c in multiset(now.delivered) && c in Stock(now, n);
    }
    assert [] + written == written;
  }

  lemma Cancels(a: multiset<Chunk>, b: multiset<Chunk>)
    ensures a + b == a <==> b == multiset{}
  {
    if a + b == a {
      forall c
        ensures b[c] == 0
      {
        assert (a + b)[c] == a[c] + b[c];
      }
    }
  }

  lemma {:induction false} HoldsNothing(faults: seq<Fault>, dir: Direction, now: Pipe, written: seq<Chunk>)
    requires NoneLoses(faults, dir) && NoneRepeats(faults) && NoneReorders(faults)
    requires var built := WrappersOf(faults, dir); WritesAll(Pipe(built, []), |built|, written, now)
    ensures Held(now.wrappers) == multiset{}
  {
    hide WritesAll, Held, WrappersOf, NoneLoses, NoneRepeats, NoneReorders;
    ChainLaws(faults, dir, now, written);
    Cancels(multiset(now.delivered), Held(now.wrappers));
  }

  /** A chain of these faults never holds anything back, whatever is written and drawn, exactly when no
      fault reorders with a positive probability and room for more than one chunk. */
  lemma {:induction false} HoldsNothingExactly(faults: seq<Fault>, dir: Direction)
    requires NoneLoses(faults, dir) && NoneRepeats(faults)
    ensures var built := WrappersOf(faults, dir);
            (forall written, now :: WritesAll(Pipe(built, []), |built|, written, now) ==> Held(now.wrappers) == multiset{})
            <==> NoneReorders(faults)
  {
    hide WritesAll, Held, WrappersOf, NoneLoses, NoneRepeats, NoneReorders, Lossless, Repeatless, Plain, Dead;
    var built := WrappersOf(faults, dir);
    var start, n := Pipe(built, []), |built|;
    if NoneReorders(faults) {
      forall written, now | WritesAll(start, n, written, now)
        ensures Held(now.wrappers) == multiset{}
      {
        HoldsNothing(faults, dir, now, written);
      }
    } else {
      ClassOfFaults(faults, dir);
      assert built[..n] == built;
      var p := Chunk([]);
      NewBuffersEmpty(faults, dir);
      SomeReorders(built);
      var now, k := CanHold(start, n, p);
      WritesOne(start, n, p, now);
      HeldHas(now.wrappers, k, p);
    }
  }

  lemma SomeReorders(ws: seq<Wrapper>)
    requires Lossless(ws) && Repeatless(ws) && !Plain(ws)
    ensures exists i :: 0 <= i < |ws| && CanReorder(ws[i])
  {
  }

  predicate Unused(ws: seq<Wrapper>) {
    forall w <- ws :: w.Shuffle? ==> w.buf == []
  }

  lemma {:induction false} NewBuffersEmpty(faults: seq<Fault>, dir: Direction)
    ensures Unused(WrappersOf(faults, dir))
  {
    if faults != [] {
      NewBuffersEmpty(faults[..|faults| - 1], dir);
    }
  }

  lemma {:induction false} HeldHas(ws: seq<Wrapper>, k: nat, c: Chunk)
    requires k < |ws| && ws[k].Shuffle? && c in ws[k].buf
    ensures c in Held(ws)
  {
    if k < |ws| - 1 {
      HeldHas(ws[..|ws| - 1], k, c);
    }
  }

  /** In an unused chain that neither loses nor repeats, the outermost reordering wrapper can hold the
      first chunk: the wrappers outside it can only hand it down. */
  lemma {:induction false} CanHold(a: Pipe, level: nat, p: Chunk) returns (b: Pipe, k: nat)
    requires level <= |a.wrappers| && Unused(a.wrappers) && Lossless(a.wrappers[..level]) && Repeatless(a.wrappers[..level])
    requires exists i :: 0 <= i < level && CanReorder(a.wrappers[i])
    ensures Writes(a, level, p, b)
    ensures k < |b.wrappers| && b.wrappers[k].Shuffle? && p in b.wrappers[k].buf
    decreases level
  {
    hide Writes, WritesAll, CanReorder, CanLose, CanRepeat, Lossless, Repeatless, Shuffles;
    var w := a.wrappers[level - 1];
    assert w in a.wrappers;
    ClassSplit(a.wrappers, level);
    if CanReorder(w) {
      OnlyShufflesReorder(w);
      HoldsFirst(a, level, p);
      b, k := a.(wrappers := a.wrappers[level - 1 := w.(buf := [p])]), level - 1;
    } else {
      b, k := CanHold(a, level - 1, p);
      WritesOne(a, level - 1, p, b);
      WritesAllKeep(a, level - 1, [p], b);
      HandsDown(a, level, p, b);
    }
  }

  lemma OnlyShufflesReorder(w: Wrapper)
    requires CanReorder(w)
    ensures w.Shuffle?
  {
  }

  lemma {:induction false} HoldsFirst(a: Pipe, level: nat, p: Chunk)
    requires 0 < level <= |a.wrappers| && CanReorder(a.wrappers[level - 1]) && a.wrappers[level - 1].buf == []
    ensures Writes(a, level, p, a.(wrappers := a.wrappers[level - 1 := a.wrappers[level - 1].(buf := [p])]))
  {
    var w := a.wrappers[level - 1];
    WritesNone(a, level - 1);
    assert [] + [p] == [p];
    hide WritesAll;
    assert Shuffles(w, [p], p, []);
  }

  /** A wrapper that neither loses, repeats nor reorders can hand a chunk down. */
  lemma {:induction false} HandsDown(a: Pipe, level: nat, p: Chunk, b: Pipe)
    requires 0 < level <= |a.wrappers| == |b.wrappers| && a.wrappers[level - 1] == b.wrappers[level - 1]
    requires Writes(a, level - 1, p, b) && WritesAll(a, level - 1, [p], b)
    requires var w := a.wrappers[level - 1];
             !CanLose(w) && !CanRepeat(w) && !CanReorder(w) && (w.Shuffle? ==> w.buf == [])
    ensures Writes(a, level, p, b)
  {
    hide WritesAll;
    var w := a.wrappers[level - 1];
    match w
    case Delay => assert Writes(a, level, p, b);
    case Drop(low, high) => assert Writes(a, level, p, b);
    case Repeat(_, _) =>
      assert MaySend(w, 1) && Copies(p, 1) == [p];
      assert WritesAll(a, level - 1, Copies(p, 1), b);
      assert Writes(a, level, p, b);
    case Shuffle(_, _, _) =>
      assert [] + [p] == [p];
      assert Shuffles(w, [], p, [p]);
      assert b == b.(wrappers := b.wrappers[level - 1 := w.(buf := [])]);
      assert Writes(a, level, p, b);
    case Blackhole =>
  }

  /** The chains of a lone reordering fault and of no fault at all. */
  lemma {:induction false} ReorderOnly(dir: Direction)
    ensures WrappersOf([Reorder(2, 1.0)], dir) == [Shuffle([], 2, 1.0)]
    ensures WrappersOf([], dir) == [] && WrappersOf([Rst], dir) == []
    ensures Sound([]) && MustHold(Shuffle([], 2, 1.0))
  {
    assert [Reorder(2, 1.0)][..0] == [] && [Rst][..0] == [];
  }

  lemma HeldByOne(w: Wrapper)
    requires w.Shuffle?
    ensures Held([w]) == multiset(w.buf)
  {
    assert [w][..0] == [];
  }

  /** A draw from the unit interval. */
  method RandomUnit() returns (draw: real)
    ensures 0.0 <= draw < 1.0
  {
    assert 0.0 <= 0.0 < 1.0;
    draw :| 0.0 <= draw < 1.0;
  }
}
