/** The token bucket of the bandwidth throttle, over real-valued time.

    A taker with too few tokens empties the bucket and waits for the deficit at the nominal rate, but
    the refill clock stays where it was, so the time of the wait is credited once more.  Each of `m`
    writers can therefore gain the nominal rate on top of the bucket's own.
 */
module Throttle {
  import opened Options

  datatype Bucket = Bucket(rate: real, burst: real, tokens: real, lastRefill: real) {
    predicate Ok() {
      rate > 0.0 && burst >= 0.0 && 0.0 <= tokens <= burst
    }
  }

  function Full(rate: real, burst: real, now: real): Bucket {
    Bucket(rate, burst, burst, now)
  }

  /** What flows in `time` seconds at `rate`. */
  function Flow(rate: real, time: real): real {
    rate * time
  }

  function Refilled(b: Bucket, now: real): real {
    var tokens := b.tokens + Flow(b.rate, now - b.lastRefill);
    if tokens > b.burst then b.burst else tokens
  }

  /** The bucket after a take of `n` bytes, and how long the taker has to wait. */
  function Take(b: Bucket, n: nat, now: real): (Bucket, real)
    requires b.rate != 0.0
  {
    var tokens := Refilled(b, now);
    if tokens >= n as real
    then (b.(tokens := tokens - n as real, lastRefill := now), 0.0)
    else (b.(tokens := 0.0, lastRefill := now), (n as real - tokens) / b.rate)
  }

  /** The tokens a take uses up. */
  function Spend(b: Bucket, n: nat, now: real): real {
    var tokens := Refilled(b, now);
    if tokens >= n as real then n as real else tokens
  }

  lemma FlowMonotone(rate: real, a: real, b: real)
    requires rate >= 0.0 && a <= b
    ensures Flow(rate, a) <= Flow(rate, b)
  {
  }

  lemma FlowAdds(rate: real, a: real, b: real)
    ensures Flow(rate, a + b) == Flow(rate, a) + Flow(rate, b)
    ensures Flow(rate, 0.0) == 0.0
  {
  }

  lemma FlowOfOne(rate: real)
    ensures Flow(rate, 1.0) == rate
  {
  }

  /** Waiting for a deficit lets exactly the deficit flow. */
  lemma DeficitFlows(d: real, rate: real)
    requires rate > 0.0
    ensures Flow(rate, d / rate) == d
    ensures d >= 0.0 ==> d / rate >= 0.0
  {
  }

  /** One take: the tokens stay in range, the bytes are paid by tokens and by waiting, and what is
      left and spent was there before or has been refilled. */
  lemma TakeLaws(b: Bucket, n: nat, now: real)
    requires b.Ok() && b.lastRefill <= now
    ensures var (b', wait) := Take(b, n, now);
            && b'.Ok() && b'.rate == b.rate && b'.burst == b.burst && b'.lastRefill == now
            && wait >= 0.0
            && n as real == Spend(b, n, now) + Flow(b.rate, wait)
            && Spend(b, n, now) >= 0.0
            && Spend(b, n, now) + b'.tokens <= b.tokens + Flow(b.rate, now - b.lastRefill)
  {
    hide Flow;
    FlowAdds(b.rate, 0.0, 0.0);
    FlowMonotone(b.rate, 0.0, now - b.lastRefill);
    DeficitFlows(n as real - Refilled(b, now), b.rate);
  }

  /** A take can be split: two takes at one moment leave the bucket, and cost together the wait, of one
      take of both. */
  lemma {:induction false} TakeSplits(b: Bucket, m: nat, n: nat, now: real)
    requires b.Ok() && b.lastRefill <= now
    ensures var (b1, w1) := Take(b, m, now);
            var (b2, w2) := Take(b1, n, now);
            var (b3, w3) := Take(b, m + n, now);
            b2 == b3 && Flow(b.rate, w1 + w2) == Flow(b.rate, w3)
  {
    hide Flow;
    var tokens := Refilled(b, now);
    FlowAdds(b.rate, 0.0, 0.0);
    var (b1, w1) := Take(b, m, now);
    var (b2, w2) := Take(b1, n, now);
    assert now - b1.lastRefill == 0.0 && Refilled(b1, now) == b1.tokens by {
      TakeLaws(b, m, now);
    }
    DeficitFlows(m as real - tokens, b.rate);
    DeficitFlows(n as real - b1.tokens, b.rate);
    DeficitFlows((m + n) as real - tokens, b.rate);
    assert (m + n) as real == m as real + n as real;
    FlowAdds(b.rate, w1, w2);
  }

  /** Tokens run in at the rate until the bucket is full: after a long enough pause a write of at most the
      burst goes out at once, and leaves what it does not use. */
  lemma {:induction false} PauseRefills(b: Bucket, n: nat, now: real)
    requires b.Ok() && b.lastRefill <= now && b.burst - b.tokens <= Flow(b.rate, now - b.lastRefill)
    ensures n as real <= b.burst ==> Take(b, n, now) == (b.(tokens := b.burst - n as real, lastRefill := now), 0.0)
    ensures n as real > b.burst ==> Take(b, n, now).0.tokens == 0.0 && Flow(b.rate, Take(b, n, now).1) == n as real - b.burst
  {
    hide Flow;
    DeficitFlows(n as real - b.burst, b.rate);
  }

  // ------------------------------------------------------------------
  // Many writers on one bucket

  /** One write: the writer takes tokens at time `at`, waits, and then the bytes go out. */
  datatype Write = Write(writer: nat, bytes: nat, at: real)

  function After(b: Bucket, ws: seq<Write>): Bucket
    requires b.rate > 0.0
    ensures After(b, ws).rate == b.rate
  {
    if ws == [] then b
    else
      var last := ws[|ws| - 1];
      Take(After(b, ws[..|ws| - 1]), last.bytes, last.at).0
  }

  /** How long the last write waits, what it spends, and when its bytes go out. */
  function LastWait(b: Bucket, ws: seq<Write>): real
    requires b.rate > 0.0 && ws != []
  {
    var last := ws[|ws| - 1];
    Take(After(b, ws[..|ws| - 1]), last.bytes, last.at).1
  }

  function LastSpend(b: Bucket, ws: seq<Write>): real
    requires b.rate > 0.0 && ws != []
  {
    Spend(After(b, ws[..|ws| - 1]), ws[|ws| - 1].bytes, ws[|ws| - 1].at)
  }

  function LastRelease(b: Bucket, ws: seq<Write>): real
    requires b.rate > 0.0 && ws != []
  {
    ws[|ws| - 1].at + LastWait(b, ws)
  }

  /** When writer `w` is ready for its next write. */
  function Ready(b: Bucket, ws: seq<Write>, w: nat): real
    requires b.rate > 0.0
  {
    if ws == [] then b.lastRefill
    else if ws[|ws| - 1].writer == w then LastRelease(b, ws)
    else Ready(b, ws[..|ws| - 1], w)
  }

  /** Time does not run backwards, and each of the `m` writers starts a write only after its previous
      one has gone out. */
  predicate Orderly(b: Bucket, ws: seq<Write>, m: nat)
    requires b.rate > 0.0
  {
    ws == [] ||
    var before, last := ws[..|ws| - 1], ws[|ws| - 1];
    && Orderly(b, before, m)
    && last.writer < m
    && After(b, before).lastRefill <= last.at
    && Ready(b, before, last.writer) <= last.at
  }

  /** The bytes that have gone out by time `t`. */
  function Released(b: Bucket, ws: seq<Write>, t: real): nat
    requires b.rate > 0.0
  {
    if ws == [] then 0
    else Released(b, ws[..|ws| - 1], t) + if LastRelease(b, ws) <= t then ws[|ws| - 1].bytes else 0
  }

  // ------------------------------------------------------------------
  // Paid by tokens, paid by waiting

  function Spent(b: Bucket, ws: seq<Write>): real
    requires b.rate > 0.0
  {
    if ws == [] then 0.0 else Spent(b, ws[..|ws| - 1]) + LastSpend(b, ws)
  }

  function SpentBy(b: Bucket, ws: seq<Write>, t: real): real
    requires b.rate > 0.0
  {
    if ws == [] then 0.0
    else SpentBy(b, ws[..|ws| - 1], t) + if LastRelease(b, ws) <= t then LastSpend(b, ws) else 0.0
  }

  function WaitedBy(b: Bucket, ws: seq<Write>, t: real, w: nat): real
    requires b.rate > 0.0
  {
    if ws == [] then 0.0
    else
      WaitedBy(b, ws[..|ws| - 1], t, w)
      + if LastRelease(b, ws) <= t && ws[|ws| - 1].writer == w then LastWait(b, ws) else 0.0
  }

  function Waited(b: Bucket, ws: seq<Write>, t: real, m: nat): real
    requires b.rate > 0.0
  {
    if m == 0 then 0.0 else Waited(b, ws, t, m - 1) + WaitedBy(b, ws, t, m - 1)
  }

  /** The bucket stays in range, and tokens spent so far were in it at the start or were refilled. */
  lemma {:induction false} BucketStaysOk(b: Bucket, ws: seq<Write>, m: nat)
    requires b.Ok() && Orderly(b, ws, m)
    ensures After(b, ws).Ok() && After(b, ws).burst == b.burst && b.lastRefill <= After(b, ws).lastRefill
    ensures Spent(b, ws) + After(b, ws).tokens <= b.tokens + Flow(b.rate, After(b, ws).lastRefill - b.lastRefill)
    ensures ws != [] ==> After(b, ws).lastRefill == ws[|ws| - 1].at
    ensures 0.0 <= Spent(b, ws)
  {
    hide Flow, Take, Spend;
    FlowAdds(b.rate, 0.0, 0.0);
    if ws != [] {
      var before, last := ws[..|ws| - 1], ws[|ws| - 1];
      BucketStaysOk(b, before, m);
      TakeLaws(After(b, before), last.bytes, last.at);
      FlowAdds(b.rate, After(b, before).lastRefill - b.lastRefill, last.at - After(b, before).lastRefill);
    }
  }

  lemma {:induction false} LastWaitPositive(b: Bucket, ws: seq<Write>, m: nat)
    requires b.Ok() && Orderly(b, ws, m) && ws != []
    ensures LastWait(b, ws) >= 0.0 && LastSpend(b, ws) >= 0.0
    ensures ws[|ws| - 1].bytes as real == LastSpend(b, ws) + Flow(b.rate, LastWait(b, ws))
  {
    hide Flow, Take, Spend;
    BucketStaysOk(b, ws[..|ws| - 1], m);
    TakeLaws(After(b, ws[..|ws| - 1]), ws[|ws| - 1].bytes, ws[|ws| - 1].at);
  }

  lemma {:induction false} SpentByAtMostSpent(b: Bucket, ws: seq<Write>, m: nat, t: real)
    requires b.Ok() && Orderly(b, ws, m)
    ensures SpentBy(b, ws, t) <= Spent(b, ws)
  {
    if ws != [] {
      SpentByAtMostSpent(b, ws[..|ws| - 1], m, t);
      LastWaitPositive(b, ws, m);
    }
  }

  lemma {:induction false} SpentByBound(b: Bucket, ws: seq<Write>, m: nat, t: real)
    requires b.Ok() && Orderly(b, ws, m) && b.lastRefill <= t
    ensures SpentBy(b, ws, t) <= b.burst + Flow(b.rate, t - b.lastRefill)
  {
    hide Flow, Take, Spend;
    FlowAdds(b.rate, 0.0, 0.0);
    FlowMonotone(b.rate, 0.0, t - b.lastRefill);
    if ws != [] {
      LastWaitPositive(b, ws, m);
      if ws[|ws| - 1].at > t {
        SpentByBound(b, ws[..|ws| - 1], m, t);
      } else {
        BucketStaysOk(b, ws, m);
        SpentByAtMostSpent(b, ws, m, t);
        FlowMonotone(b.rate, After(b, ws).lastRefill - b.lastRefill, t - b.lastRefill);
      }
    }
  }

  /** One writer's waits do not overlap. */
  lemma {:induction false} WaitedByBound(b: Bucket, ws: seq<Write>, m: nat, t: real, w: nat)
    requires b.Ok() && Orderly(b, ws, m) && b.lastRefill <= t
    ensures b.lastRefill <= Ready(b, ws, w)
    ensures WaitedBy(b, ws, t, w) <= (if t < Ready(b, ws, w) then t else Ready(b, ws, w)) - b.lastRefill
  {
    if ws != [] {
      WaitedByBound(b, ws[..|ws| - 1], m, t, w);
      LastWaitPositive(b, ws, m);
    }
  }

  lemma {:induction false} WaitedBound(b: Bucket, ws: seq<Write>, m: nat, t: real, k: nat)
    requires b.Ok() && Orderly(b, ws, m) && b.lastRefill <= t
    ensures Waited(b, ws, t, k) <= Flow(t - b.lastRefill, k as real)
  {
    hide Flow, Take, Spend;
    FlowAdds(t - b.lastRefill, 0.0, 0.0);
    if k > 0 {
      WaitedBound(b, ws, m, t, k - 1);
      WaitedByBound(b, ws, m, t, k - 1);
      FlowAdds(t - b.lastRefill, (k - 1) as real, 1.0);
      FlowOfOne(t - b.lastRefill);
    }
  }

  lemma {:induction false} WaitedGrows(b: Bucket, ws: seq<Write>, t: real, k: nat)
    requires b.rate > 0.0 && ws != []
    ensures Waited(b, ws, t, k) == Waited(b, ws[..|ws| - 1], t, k)
              + if LastRelease(b, ws) <= t && ws[|ws| - 1].writer < k then LastWait(b, ws) else 0.0
  {
    if k > 0 {
      WaitedGrows(b, ws, t, k - 1);
    }
  }

  lemma {:induction false} NobodyWaited(b: Bucket, t: real, k: nat)
    requires b.rate > 0.0
    ensures Waited(b, [], t, k) == 0.0
  {
    if k > 0 {
      NobodyWaited(b, t, k - 1);
    }
  }

  /** Every released byte was paid by a token or by waiting. */
  lemma {:induction false} ReleasedIsPaid(b: Bucket, ws: seq<Write>, m: nat, t: real)
    requires b.Ok() && Orderly(b, ws, m)
    ensures Released(b, ws, t) as real == SpentBy(b, ws, t) + Flow(b.rate, Waited(b, ws, t, m))
  {
    hide Flow, Take, Spend;
    FlowAdds(b.rate, 0.0, 0.0);
    if ws == [] {
      NobodyWaited(b, t, m);
    } else {
      ReleasedIsPaid(b, ws[..|ws| - 1], m, t);
      LastWaitPositive(b, ws, m);
      WaitedGrows(b, ws, t, m);
      FlowAdds(b.rate, Waited(b, ws[..|ws| - 1], t, m), LastWait(b, ws));
    }
  }

  /** For `m` sequential writers on a bucket that started full: the bytes out by time `t` are at most
      burst + (m + 1) * rate * elapsed, and the tokens never leave [0, burst]. */
  lemma {:induction false} ThrottleBound(rate: real, burst: real, start: real, ws: seq<Write>, m: nat, t: real)
    requires rate > 0.0 && burst >= 0.0 && start <= t && Orderly(Full(rate, burst, start), ws, m)
    ensures Released(Full(rate, burst, start), ws, t) as real <= burst + (m + 1) as real * (rate * (t - start))
    ensures 0.0 <= After(Full(rate, burst, start), ws).tokens <= burst
  {
    hide Flow, Take, Spend;
    var b := Full(rate, burst, start);
    BucketStaysOk(b, ws, m);
    ReleasedIsPaid(b, ws, m, t);
    SpentByBound(b, ws, m, t);
    WaitedBound(b, ws, m, t, m);
    FlowMonotone(rate, Waited(b, ws, t, m), Flow(t - start, m as real));
    var time := t - start;
    assert Released(b, ws, t) as real <= burst + (Flow(rate, time) + Flow(rate, Flow(time, m as real)));
    BoundAdds(rate, time, m);
  }

  lemma BoundAdds(rate: real, time: real, m: nat)
    ensures Flow(rate, time) + Flow(rate, Flow(time, m as real)) == (m + 1) as real * (rate * time)
  {
    assert (m + 1) as real == m as real + 1.0;
  }

  /** The nominal bound burst + rate * elapsed fails: two writes of two bytes on a bucket of one
      token at one byte per second are both out after two seconds, one byte too many. */
  lemma {:induction false} NominalBoundFails()
    ensures var b, ws := Full(1.0, 1.0, 0.0), [Write(0, 2, 0.0), Write(0, 2, 1.0)];
            Orderly(b, ws, 1) && Released(b, ws, 2.0) == 4 && 4.0 > 1.0 + 1.0 * 2.0
  {
    var b := Full(1.0, 1.0, 0.0);
    var one, two := [Write(0, 2, 0.0)], [Write(0, 2, 0.0), Write(0, 2, 1.0)];
    assert one[..0] == [] && two[..1] == one;
    assert After(b, []) == b;
    assert LastWait(b, one) == 1.0 && After(b, one) == Bucket(1.0, 1.0, 0.0, 0.0);
    assert LastRelease(b, one) == 1.0;
    assert Orderly(b, [], 1) && Orderly(b, one, 1);
    assert Ready(b, one, 0) == 1.0;
    assert Refilled(After(b, one), 1.0) == 1.0;
    assert LastWait(b, two) == 1.0 && LastRelease(b, two) == 2.0;
    assert Released(b, [], 2.0) == 0 && Released(b, one, 2.0) == 2;
  }

  function Bytes(ws: seq<Write>): nat {
    if ws == [] then 0 else Bytes(ws[..|ws| - 1]) + ws[|ws| - 1].bytes
  }

  /** At every write the bytes so far are covered by what the bucket had and what has run in since, and
      the bucket was not so full that some of that ran over. */
  predicate Frugal(b: Bucket, ws: seq<Write>) {
    ws == [] ||
    var before, last := ws[..|ws| - 1], ws[|ws| - 1];
    var had := b.tokens + Flow(b.rate, last.at - b.lastRefill);
    Frugal(b, before) && Bytes(ws) as real <= had && had - Bytes(before) as real <= b.burst
  }

  /** Writers that keep within the rate are not held up: no write waits, and the bucket holds exactly what
      has run in and was not taken. */
  lemma {:induction false} FrugalNeverWaits(b: Bucket, ws: seq<Write>, m: nat)
    requires b.Ok() && Orderly(b, ws, m) && Frugal(b, ws)
    ensures After(b, ws).tokens == b.tokens + Flow(b.rate, After(b, ws).lastRefill - b.lastRefill) - Bytes(ws) as real
    ensures ws != [] ==> LastWait(b, ws) == 0.0 && LastRelease(b, ws) == ws[|ws| - 1].at
  {
    hide Flow;
    FlowAdds(b.rate, 0.0, 0.0);
    if ws != [] {
      var before, last := ws[..|ws| - 1], ws[|ws| - 1];
      FrugalNeverWaits(b, before, m);
      BucketStaysOk(b, before, m);
      FlowAdds(b.rate, After(b, before).lastRefill - b.lastRefill, last.at - After(b, before).lastRefill);
      assert Bytes(ws) as real == Bytes(before) as real + last.bytes as real;
      assert Refilled(After(b, before), last.at) == b.tokens + Flow(b.rate, last.at - b.lastRefill) - Bytes(before) as real;
    }
  }

  predicate Nominal(b: Bucket, ws: seq<Write>, t: real)
    requires b.rate > 0.0
  {
    Released(b, ws, t) as real <= b.burst + Flow(b.rate, t - b.lastRefill)
  }

  /** Without a bucket every byte is paid by waiting. */
  lemma {:induction false} NothingSpent(b: Bucket, ws: seq<Write>, m: nat, t: real)
    requires b.Ok() && b.burst == 0.0 && Orderly(b, ws, m)
    ensures SpentBy(b, ws, t) == 0.0
  {
    hide Flow, Take;
    if ws != [] {
      var before := ws[..|ws| - 1];
      NothingSpent(b, before, m, t);
      BucketStaysOk(b, before, m);
      LastWaitPositive(b, ws, m);
      assert LastSpend(b, ws) <= Refilled(After(b, before), ws[|ws| - 1].at) <= b.burst;
    }
  }

  lemma {:induction false} NominalWithoutBucket(b: Bucket, ws: seq<Write>, t: real)
    requires b.Ok() && b.burst == 0.0 && Orderly(b, ws, 1) && b.lastRefill <= t
    ensures Nominal(b, ws, t)
  {
    hide Flow, Take, Spend;
    ReleasedIsPaid(b, ws, 1, t);
    NothingSpent(b, ws, 1, t);
    WaitedByBound(b, ws, 1, t, 0);
    assert Waited(b, ws, t, 1) == Waited(b, ws, t, 0) + WaitedBy(b, ws, t, 0);
    FlowMonotone(b.rate, Waited(b, ws, t, 1), t - b.lastRefill);
  }

  /** One writer on a bucket of any size: two writes of at least twice the burst, back to back. */
  lemma {:induction false} OneWriterExceeds(rate: real, burst: real, start: real) returns (ws: seq<Write>, t: real)
    requires rate > 0.0 && burst > 0.0
    ensures var b := Full(rate, burst, start); start <= t && Orderly(b, ws, 1) && !Nominal(b, ws, t)
  {
    hide Flow;
    var b := Full(rate, burst, start);
    var n: nat := 2 * (burst.Floor + 1);
    var d := (n as real - burst) / rate;
    DeficitFlows(n as real - burst, rate);
    FlowAdds(rate, d, d);
    var one := [Write(0, n, start)];
    var two := one + [Write(0, n, start + d)];
    assert one[..0] == [] && two[..1] == one;
    assert After(b, []) == b && Ready(b, [], 0) == start && Orderly(b, [], 1);
    assert start - b.lastRefill == 0.0;
    assert LastWait(b, one) == d && After(b, one) == b.(tokens := 0.0);
    assert Ready(b, one, 0) == start + d && Orderly(b, one, 1);
    assert start + d - start == d;
    assert Refilled(After(b, one), start + d) == burst;
    ws, t := two, start + (d + d);
    assert LastWait(b, two) == d && LastRelease(b, two) == t && Orderly(b, two, 1);
    assert Released(b, [], t) == 0 && Released(b, one, t) == n;
    assert Released(b, two, t) == n + n;
    assert t - start == d + d;
  }

  /** Two writers without a bucket: each waits at the full rate, at the same time. */
  lemma {:induction false} TwoWritersExceed(rate: real, start: real) returns (ws: seq<Write>, t: real)
    requires rate > 0.0
    ensures var b := Full(rate, 0.0, start); start <= t && Orderly(b, ws, 2) && !Nominal(b, ws, t)
  {
    hide Flow;
    var b := Full(rate, 0.0, start);
    var d := 1.0 / rate;
    DeficitFlows(1.0, rate);
    FlowAdds(rate, 0.0, 0.0);
    var one := [Write(0, 1, start)];
    var two := one + [Write(1, 1, start)];
    assert one[..0] == [] && two[..1] == one;
    assert After(b, []) == b && Ready(b, [], 0) == start && Ready(b, [], 1) == start && Orderly(b, [], 2);
    assert start - b.lastRefill == 0.0;
    assert LastWait(b, one) == d && After(b, one) == b && Orderly(b, one, 2);
    assert Ready(b, one, 1) == start;
    ws, t := two, start + d;
    assert LastWait(b, two) == d && LastRelease(b, two) == t && Orderly(b, two, 2);
    assert Released(b, [], t) == 0 && Released(b, one, t) == 1;
    assert Released(b, two, t) == 2;
    assert t - start == d;
  }

  lemma {:induction false} MoreWritersAllowed(b: Bucket, ws: seq<Write>, m: nat, m': nat)
    requires b.rate > 0.0 && m <= m' && Orderly(b, ws, m)
    ensures Orderly(b, ws, m')
  {
    if ws != [] {
      MoreWritersAllowed(b, ws[..|ws| - 1], m, m');
    }
  }

  /** The nominal bound burst + rate * elapsed holds of every schedule of `m` writers exactly when
      there is no writer at all, or a single writer and a burst of zero. */
  lemma {:induction false} NominalBoundExactly(rate: real, burst: real, start: real, m: nat)
    requires rate > 0.0 && burst >= 0.0
    ensures var b := Full(rate, burst, start);
            (forall ws, t :: start <= t && Orderly(b, ws, m) ==> Nominal(b, ws, t)) <==> m == 0 || (m == 1 && burst == 0.0)
  {
    hide Flow, Take, Spend, Nominal;
    var b := Full(rate, burst, start);
    if m == 0 {
      forall ws, t | start <= t && Orderly(b, ws, m)
        ensures Nominal(b, ws, t)
      {
        NoWriters(b, ws, t);
      }
    } else if burst > 0.0 {
      var ws, t := OneWriterExceeds(rate, burst, start);
      MoreWritersAllowed(b, ws, 1, m);
    } else if m > 1 {
      var ws, t := TwoWritersExceed(rate, start);
      MoreWritersAllowed(b, ws, 2, m);
    } else {
      forall ws, t | start <= t && Orderly(b, ws, m)
        ensures Nominal(b, ws, t)
      {
        NominalWithoutBucket(b, ws, t);
      }
    }
  }

  lemma NoWriters(b: Bucket, ws: seq<Write>, t: real)
    requires b.Ok() && Orderly(b, ws, 0) && b.lastRefill <= t
    ensures Nominal(b, ws, t)
  {
    hide Flow;
    FlowAdds(b.rate, 0.0, 0.0);
    FlowMonotone(b.rate, 0.0, t - b.lastRefill);
  }

  // ------------------------------------------------------------------
  // The bucket in place

  class BandwidthThrottle {
    const rate: real
    const burst: real
    var tokens: real
    var lastRefill: real

    ghost function View(): Bucket
      reads this
    {
      Bucket(rate, burst, tokens, lastRefill)
    }

    constructor (rate: real, burst: real, now: real)
      ensures View() == Full(rate, burst, now)
    {
      this.rate := rate;
      this.burst := burst;
      tokens := burst;
      lastRefill := now;
    }

    /** Without a rate a deficit is never made up: the quotient is infinite and there is no wait to
        speak of. */
    method TakeTokens(n: nat, now: real) returns (wait: Option<real>)
      modifies this
      ensures rate != 0.0 ==> wait.Some? && (View(), wait.value) == Take(old(View()), n, now)
      ensures rate == 0.0 ==>
                var left := if old(tokens) > burst then burst else old(tokens);
                && wait == (if left >= n as real then Some(0.0) else None)
                && View() == old(View()).(tokens := if left >= n as real then left - n as real else 0.0, lastRefill := now)
    {
      var elapsed := now - lastRefill;
      lastRefill := now;
      tokens := tokens + Flow(rate, elapsed);
      if tokens > burst {
        tokens := burst;
      }
      if tokens >= n as real {
        tokens := tokens - n as real;
        return Some(0.0);
      }
      var deficit := n as real - tokens;
      tokens := 0.0;
      wait := if rate == 0.0 then None else Some(deficit / rate);
    }
  }
}
