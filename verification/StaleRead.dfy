/** The stale-read fault and the reply leg of the pump that feeds it. */
module StaleRead {
  import opened Options

  type Bytes = seq<bv8>

  /** One call: the query, the live reply, the clock when the age is checked and when the reply is
      cached, and the outcome of the random draw. */
  datatype Call = Call(query: Bytes, live: Bytes, checkedAt: int, cachedAt: int, draw: bool)

  datatype Entry = Entry(data: Bytes, at: int)

  type Hash = Bytes -> string

  function Serve(cache: map<string, Entry>, hash: Hash, maxAge: int, c: Call): Bytes {
    var key := hash(c.query);
    if key in cache && c.checkedAt - cache[key].at < maxAge && c.draw then cache[key].data else c.live
  }

  function Refresh(cache: map<string, Entry>, hash: Hash, c: Call): map<string, Entry> {
    cache[hash(c.query) := Entry(c.live, c.cachedAt)]
  }

  function CacheAfter(calls: seq<Call>, hash: Hash): map<string, Entry> {
    if calls == [] then map[] else Refresh(CacheAfter(calls[..|calls| - 1], hash), hash, calls[|calls| - 1])
  }

  /** What call `k` of a run is answered. */
  function Reply(calls: seq<Call>, hash: Hash, maxAge: int, k: nat): Bytes
    requires k < |calls|
  {
    Serve(CacheAfter(calls[..k], hash), hash, maxAge, calls[k])
  }

  /** The latest call before `k` with the key of call `k`. */
  predicate Precedes(calls: seq<Call>, hash: Hash, j: nat, k: nat)
    requires k < |calls|
  {
    && j < k && hash(calls[j].query) == hash(calls[k].query)
    && forall m :: j < m < k ==> hash(calls[m].query) != hash(calls[k].query)
  }

  /** The cache holds, for each key, the live reply of the latest call with that key. */
  lemma {:induction false} CacheIsLatest(calls: seq<Call>, hash: Hash, key: string) returns (j: Option<nat>)
    ensures key in CacheAfter(calls, hash) <==> j.Some?
    ensures j.None? ==> forall m :: 0 <= m < |calls| ==> hash(calls[m].query) != key
    ensures j.Some? ==> j.value < |calls| && hash(calls[j.value].query) == key
                        && CacheAfter(calls, hash)[key] == Entry(calls[j.value].live, calls[j.value].cachedAt)
                        && forall m :: j.value < m < |calls| ==> hash(calls[m].query) != key
  {
    if calls == [] {
      j := None;
    } else {
      var n := |calls| - 1;
      if hash(calls[n].query) == key {
        j := Some(n);
      } else {
        j := CacheIsLatest(calls[..n], hash, key);
        assert forall m :: 0 <= m < n ==> calls[..n][m] == calls[m];
      }
    }
  }

  /** Staleness depth one: a reply is this call's live reply, or the live reply of the immediately
      preceding call with the same key, and the latter exactly when it is young enough and the draw
      says so. */
  lemma {:induction false} DepthOne(calls: seq<Call>, hash: Hash, maxAge: int, k: nat)
    requires k < |calls|
    ensures forall j: nat :: Precedes(calls, hash, j, k) ==>
              Reply(calls, hash, maxAge, k) ==
                if calls[k].checkedAt - calls[j].cachedAt < maxAge && calls[k].draw then calls[j].live else calls[k].live
    ensures (forall j :: 0 <= j < k ==> !Precedes(calls, hash, j, k)) ==> Reply(calls, hash, maxAge, k) == calls[k].live
    ensures Reply(calls, hash, maxAge, k) == calls[k].live
            || exists j: nat :: Precedes(calls, hash, j, k) && Reply(calls, hash, maxAge, k) == calls[j].live
  {
    var found := CacheIsLatest(calls[..k], hash, hash(calls[k].query));
    assert forall m :: 0 <= m < k ==> calls[..k][m] == calls[m];
    if found.Some? {
      assert Precedes(calls, hash, found.value, k);
      OnePredecessor(calls, hash, k, found.value);
    }
  }

  lemma OnePredecessor(calls: seq<Call>, hash: Hash, k: nat, i: nat)
    requires k < |calls| && Precedes(calls, hash, i, k)
    ensures forall j: nat :: Precedes(calls, hash, j, k) ==> j == i
  {
    forall j: nat | Precedes(calls, hash, j, k)
      ensures j == i
    {
      assert !(i < j < k) && !(j < i < k);
    }
  }

  /** What the clients get for the calls from `start` on: every reply that is not empty. */
  function SentSince(calls: seq<Call>, hash: Hash, maxAge: int, start: nat): seq<Bytes> {
    if |calls| <= start then []
    else
      var n := |calls| - 1;
      var reply := Reply(calls, hash, maxAge, n);
      SentSince(calls[..n], hash, maxAge, start) + if reply != [] then [reply] else []
  }

  lemma {:induction false} OneMoreCall(calls: seq<Call>, c: Call, hash: Hash, maxAge: int)
    ensures CacheAfter(calls + [c], hash) == Refresh(CacheAfter(calls, hash), hash, c)
    ensures Reply(calls + [c], hash, maxAge, |calls|) == Serve(CacheAfter(calls, hash), hash, maxAge, c)
    ensures forall start: nat :: start <= |calls| ==>
              SentSince(calls + [c], hash, maxAge, start) ==
                SentSince(calls, hash, maxAge, start) + SentSince(calls + [c], hash, maxAge, |calls|)
  {
    assert (calls + [c])[..|calls|] == calls;
    assert SentSince(calls, hash, maxAge, |calls|) == [];
  }

  lemma SentLast(calls: seq<Call>, c: Call, hash: Hash, maxAge: int)
    ensures var reply := Reply(calls + [c], hash, maxAge, |calls|);
            SentSince(calls + [c], hash, maxAge, |calls|) == if reply != [] then [reply] else []
  {
    assert (calls + [c])[..|calls|] == calls;
    assert SentSince(calls, hash, maxAge, |calls|) == [];
  }

  function Replies(calls: seq<Call>, hash: Hash, maxAge: int, start: nat): seq<Bytes>
    requires start <= |calls|
  {
    seq(|calls| - start, i requires 0 <= i < |calls| - start => Reply(calls, hash, maxAge, start + i))
  }

  function NonEmpty(xs: seq<Bytes>): seq<Bytes> {
    if xs == [] then [] else NonEmpty(xs[..|xs| - 1]) + if xs[|xs| - 1] != [] then [xs[|xs| - 1]] else []
  }

  /** Dropping empty replies keeps all others, in order. */
  lemma {:induction false} NonEmptyInOrder(xs: seq<Bytes>, ys: seq<Bytes>)
    ensures NonEmpty(xs + ys) == NonEmpty(xs) + NonEmpty(ys)
  {
    if ys == [] {
      assert xs + ys == xs;
    } else {
      NonEmptyInOrder(xs, ys[..|ys| - 1]);
      assert (xs + ys)[..|xs + ys| - 1] == xs + ys[..|ys| - 1];
    }
  }

  lemma NonEmptyOfOne(x: Bytes)
    ensures NonEmpty([x]) == if x != [] then [x] else []
  {
    assert [x][..0] == [];
  }

  lemma {:induction false} RepliesGrow(calls: seq<Call>, hash: Hash, maxAge: int, start: nat)
    requires start < |calls|
    ensures var n := |calls| - 1;
            Replies(calls, hash, maxAge, start) == Replies(calls[..n], hash, maxAge, start) + [Reply(calls, hash, maxAge, n)]
  {
    hide Serve, CacheAfter;
    var n := |calls| - 1;
    forall k | 0 <= k < n
      ensures Reply(calls[..n], hash, maxAge, k) == Reply(calls, hash, maxAge, k)
    {
      assert calls[..n][..k] == calls[..k];
    }
  }

  /** Every reply that is not empty is sent, once each and in order. */
  lemma {:induction false} NothingWithheld(calls: seq<Call>, hash: Hash, maxAge: int, start: nat)
    requires start <= |calls|
    ensures SentSince(calls, hash, maxAge, start) == NonEmpty(Replies(calls, hash, maxAge, start))
  {
    hide Reply;
    if start < |calls| {
      var n := |calls| - 1;
      NothingWithheld(calls[..n], hash, maxAge, start);
      RepliesGrow(calls, hash, maxAge, start);
      var before := Replies(calls[..n], hash, maxAge, start);
      assert Replies(calls, hash, maxAge, start)[..|before|] == before;
    }
  }

  /** A client gets nothing but what the server answered to this key, now or one call ago. */
  lemma {:induction false} SentIsFresh(calls: seq<Call>, hash: Hash, maxAge: int, start: nat, x: Bytes) returns (k: nat, j: nat)
    requires x in SentSince(calls, hash, maxAge, start)
    ensures start <= k < |calls| && x == Reply(calls, hash, maxAge, k) && x != []
    ensures j <= k && x == calls[j].live && (j == k || Precedes(calls, hash, j, k))
  {
    var n := |calls| - 1;
    if x in SentSince(calls[..n], hash, maxAge, start) {
      k, j := SentIsFresh(calls[..n], hash, maxAge, start, x);
      assert calls[..n][..k] == calls[..k];
      assert forall m :: 0 <= m < n ==> calls[..n][m] == calls[m];
    } else {
      k, j := n, n;
      DepthOne(calls, hash, maxAge, n);
      if x != calls[n].live {
        j :| Precedes(calls, hash, j, n) && x == calls[j].live;
      }
    }
  }

  // ------------------------------------------------------------------
  // The fault and the pump, with their buffers

  datatype Slot = Slot(data: array<bv8>, at: int)

  class StaleReadFault {
    const maxAge: int
    const hash: Hash
    var cache: map<string, Slot>
    ghost var calls: seq<Call>

    constructor (maxAge: int, hash: Hash)
      ensures Valid() && this.maxAge == maxAge && this.hash == hash && calls == [] && Buffers() == {}
    {
      this.maxAge, this.hash, cache, calls := maxAge, hash, map[], [];
      new;
      assert View() == map[];
    }

    /** The buffers the cache points into. */
    ghost function Buffers(): set<array<bv8>>
      reads this
    {
      set key <- cache :: cache[key].data
    }

    ghost function View(): map<string, Entry>
      reads this, Buffers()
    {
      map key <- cache :: Entry(cache[key].data[..], cache[key].at)
    }

    /** The bytes in the cache are those the calls so far left there. */
    ghost predicate Valid()
      reads this, Buffers()
    {
      View() == CacheAfter(calls, hash)
    }

    /** Caches the live buffer itself, and hands out it or the buffer cached before. */
    method MaybeServeStale(query: Bytes, live: array<bv8>, checkedAt: int, cachedAt: int, draw: bool)
      returns (reply: array<bv8>)
      requires Valid()
      modifies `cache, `calls
      ensures Valid() && calls == old(calls) + [Call(query, live[..], checkedAt, cachedAt, draw)]
      ensures cache == old(cache)[hash(query) := Slot(live, cachedAt)] && Buffers() <= old(Buffers()) + {live}
      ensures reply[..] == Reply(calls, hash, maxAge, |calls| - 1)
    {
      hide CacheAfter, SentSince, Reply;
      var key := hash(query);
      var serveStale := key in cache && checkedAt - cache[key].at < maxAge && draw;
      reply := live;
      if serveStale {
        reply := cache[key].data;
      }
      ghost var c := Call(query, live[..], checkedAt, cachedAt, draw);
      OneMoreCall(calls, c, hash, maxAge);
      assert reply[..] == Serve(View(), hash, maxAge, c);
      cache := cache[key := Slot(live, cachedAt)];
      calls := calls + [c];
      assert View() == Refresh(old(View()), hash, c);
    }
  }

  method Copied(bytes: Bytes) returns (copy: array<bv8>)
    ensures fresh(copy) && copy[..] == bytes
  {
    copy := new bv8[|bytes|];
    for i := 0 to |bytes|
      invariant copy[..i] == bytes[..i]
    {
      copy[i] := bytes[i];
    }
  }

  /** One read on the reply leg; `faults` is what the packet faults make of a chunk, empty when they
      drop it. */
  datatype Arrival = Arrival(input: Bytes, faults: Bytes -> Bytes, query: Bytes, checkedAt: int, cachedAt: int, draw: bool)

  function AsCall(a: Arrival): Call {
    Call(a.query, a.faults(a.input), a.checkedAt, a.cachedAt, a.draw)
  }

  function AsCalls(arrivals: seq<Arrival>): seq<Call> {
    if arrivals == [] then [] else AsCalls(arrivals[..|arrivals| - 1]) + [AsCall(arrivals[|arrivals| - 1])]
  }

  /** The upstream-to-client pump of one session.  Other sessions may share its hook. */
  class ReplyLeg {
    const buf: array<bv8>
    const hook: StaleReadFault
    var sent: seq<Bytes>

    /** The cache never points into the pump's buffer. */
    ghost predicate Valid()
      reads this, hook, hook.Buffers()
    {
      hook.Valid() && buf !in hook.Buffers()
    }

    constructor (size: nat, hook: StaleReadFault)
      requires hook.Valid()
      ensures Valid() && this.hook == hook && fresh(buf) && buf.Length == size && sent == []
    {
      buf := new bv8[size];
      this.hook := hook;
      sent := [];
    }

    /** Reading overwrites the front of the buffer and leaves every cached reply as it was. */
    method Read(input: Bytes)
      requires Valid() && |input| <= buf.Length
      modifies buf
      ensures Valid() && buf[..|input|] == input
      ensures hook.View() == old(hook.View())
    {
      hide CacheAfter;
      for i := 0 to |input|
        invariant buf[..i] == input[..i]
      {
        buf[i] := input[i];
      }
      assert forall b <- hook.Buffers() :: b[..] == old(b[..]);
      assert hook.View() == old(hook.View());
    }

    /** Reads, copies, asks the hook and writes a reply that is not empty.  The cache gains no buffer
        but a new one, so no other session's buffer either. */
    method Handle(a: Arrival)
      requires Valid() && |a.input| <= buf.Length
      modifies `sent, hook`cache, hook`calls, buf
      ensures Valid() && hook.calls == old(hook.calls) + [AsCall(a)]
      ensures forall b <- hook.Buffers() :: b in old(hook.Buffers()) || fresh(b)
      ensures sent == old(sent) + SentSince(hook.calls, hook.hash, hook.maxAge, |old(hook.calls)|)
    {
      hide CacheAfter, Reply, SentSince;
      Read(a.input);
      var chunk := Copied(a.faults(buf[..|a.input|]));
      var reply := hook.MaybeServeStale(a.query, chunk, a.checkedAt, a.cachedAt, a.draw);
      SentLast(old(hook.calls), AsCall(a), hook.hash, hook.maxAge);
      if reply.Length > 0 {
        sent := sent + [reply[..]];
      }
    }

    /** The pump's loop over what it reads until the session ends. */
    method Pump(arrivals: seq<Arrival>)
      requires Valid() && forall a <- arrivals :: |a.input| <= buf.Length
      modifies `sent, hook`cache, hook`calls, buf
      ensures Valid() && hook.calls == old(hook.calls) + AsCalls(arrivals)
      ensures forall b <- hook.Buffers() :: b in old(hook.Buffers()) || fresh(b)
      ensures sent == old(sent) + SentSince(hook.calls, hook.hash, hook.maxAge, |old(hook.calls)|)
    {
      hide Valid, AsCall, CacheAfter, Reply;
      for n := 0 to |arrivals|
        invariant Valid() && hook.calls == old(hook.calls) + AsCalls(arrivals[..n])
        invariant forall b <- hook.Buffers() :: b in old(hook.Buffers()) || fresh(b)
        invariant sent == old(sent) + SentSince(hook.calls, hook.hash, hook.maxAge, |old(hook.calls)|)
      {
        assert arrivals[n] in arrivals && arrivals[..n + 1][..n] == arrivals[..n];
        OneMoreCall(hook.calls, AsCall(arrivals[n]), hook.hash, hook.maxAge);
        Handle(arrivals[n]);
      }
      assert arrivals[..|arrivals|] == arrivals;
    }
  }

  /** Why the pump copies: had it handed over its buffer, the next read would change the cached reply
      into something the server never answered to that query. */
  method UncopiedReplyChanges(fault: StaleReadFault, query: Bytes, buf: array<bv8>, next: bv8, now: int, draw: bool)
    requires fault.Valid() && buf.Length > 0 && next != buf[0]
    modifies fault`cache, fault`calls, buf
    ensures fault.hash(query) in fault.View()
    ensures fault.View()[fault.hash(query)].data == [next] + old(buf[1..])
    ensures !fault.Valid()
  {
    hide Reply, SentSince, CacheAfter;
    var reply := fault.MaybeServeStale(query, buf, now, now, draw);
    assert fault.cache[fault.hash(query)].data == buf;
    assert fault.View()[fault.hash(query)].data == old(buf[..]);
    assert fault.View() == CacheAfter(fault.calls, fault.hash);
    buf[0] := next;
    assert fault.View()[fault.hash(query)].data[0] == next;
  }
}
