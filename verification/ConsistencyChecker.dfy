/** The in-memory consistency checker, which judges every read as it arrives, compared with
    specifications over the whole history of writes and reads. */
module ConsistencyChecker {
  import opened Options

  type Value = string

  datatype Stamped = Stamped(value: Value, at: int)

  datatype Violation =
    | ReadYourWrites(client: string, key: string, expected: int, at: int)
    | MonotonicRead(client: string, key: string, previous: int, current: int, at: int)

  datatype Event =
    | Wrote(client: string, key: string, value: Value, at: int)
    | Saw(client: string, key: string, value: Value, at: int)

  datatype State = State(writes: map<string, seq<Stamped>>, seen: map<string, seq<Stamped>>, violations: seq<Violation>)

  function At(m: map<string, seq<Stamped>>, k: string): seq<Stamped> {
    if k in m then m[k] else []
  }

  /** The key under which a client's reads are kept. */
  function ReadKey(client: string, key: string): string {
    client + ":" + key
  }

  /** The first write of a value, or -1. */
  function IndexOf(ws: seq<Stamped>, v: Value): int {
    if ws == [] then -1
    else
      var i := IndexOf(ws[..|ws| - 1], v);
      if i < 0 && ws[|ws| - 1].value == v then |ws| - 1 else i
  }

  /** The latest write not after `at`; among equally late ones the first recorded. */
  function LastBefore(ws: seq<Stamped>, at: int): (r: Option<nat>)
    ensures r.Some? ==> r.value < |ws|
  {
    if ws == [] then None
    else
      var n := |ws| - 1;
      var last := LastBefore(ws[..n], at);
      if ws[n].at <= at && (last.None? || ws[n].at > ws[last.value].at) then Some(n) else last
  }

  /** The violations a read adds. */
  function Judge(s: State, client: string, key: string, value: Value, at: int): seq<Violation> {
    var ws, rs := At(s.writes, key), At(s.seen, ReadKey(client, key));
    var last := LastBefore(ws, at);
    var stale :=
      if last.Some? && value != ws[last.value].value
      then [ReadYourWrites(client, key, ws[last.value].at, at)] else [];
    var back :=
      if rs == [] then []
      else
        var previous, current := IndexOf(ws, rs[|rs| - 1].value), IndexOf(ws, value);
        if previous >= 0 && current >= 0 && current < previous
        then [MonotonicRead(client, key, previous, current, at)] else [];
    stale + back
  }

  function Record(s: State, e: Event): State {
    match e
    case Wrote(_, key, value, at) => s.(writes := s.writes[key := At(s.writes, key) + [Stamped(value, at)]])
    case Saw(client, key, value, at) =>
      var ck := ReadKey(client, key);
      s.(seen := s.seen[ck := At(s.seen, ck) + [Stamped(value, at)]],
         violations := s.violations + Judge(s, client, key, value, at))
  }

  const EMPTY := State(map[], map[], [])

  function After(h: seq<Event>): State {
    if h == [] then EMPTY else Record(After(h[..|h| - 1]), h[|h| - 1])
  }

  // ------------------------------------------------------------------
  // The history, independently of the checker

  function WritesIn(h: seq<Event>, key: string): seq<Stamped> {
    if h == [] then []
    else
      var e := h[|h| - 1];
      WritesIn(h[..|h| - 1], key) + if e.Wrote? && e.key == key then [Stamped(e.value, e.at)] else []
  }

  function ReadsIn(h: seq<Event>, client: string, key: string): seq<Stamped> {
    if h == [] then []
    else
      var e := h[|h| - 1];
      ReadsIn(h[..|h| - 1], client, key) + if e.Saw? && e.client == client && e.key == key then [Stamped(e.value, e.at)] else []
  }

  /** A history grows one of the two lists, or neither. */
  lemma HistoryGrows(h: seq<Event>, client: string, key: string)
    requires h != []
    ensures var before, e := h[..|h| - 1], h[|h| - 1];
            && WritesIn(h, key) == (if e.Wrote? && e.key == key then WritesIn(before, key) + [Stamped(e.value, e.at)] else WritesIn(before, key))
            && ReadsIn(h, client, key) == (if e.Saw? && e.client == client && e.key == key
                                           then ReadsIn(before, client, key) + [Stamped(e.value, e.at)] else ReadsIn(before, client, key))
  {
  }

  function Indices(rs: seq<Stamped>, ws: seq<Stamped>): seq<int> {
    seq(|rs|, i requires 0 <= i < |rs| => IndexOf(ws, rs[i].value))
  }

  function Descents(xs: seq<int>): nat {
    if |xs| < 2 then 0
    else Descents(xs[..|xs| - 1]) + if xs[|xs| - 1] < xs[|xs| - 2] then 1 else 0
  }

  function Count(vs: seq<Violation>, client: string, key: string): nat {
    if vs == [] then 0
    else
      var v := vs[|vs| - 1];
      Count(vs[..|vs| - 1], client, key) + if v.MonotonicRead? && v.client == client && v.key == key then 1 else 0
  }

  lemma {:induction false} WritesAgree(h: seq<Event>, key: string)
    ensures At(After(h).writes, key) == WritesIn(h, key)
  {
    if h != [] {
      WritesAgree(h[..|h| - 1], key);
    }
  }

  /** One client name is the other followed by ':' and anything. */
  predicate Entangled(c: string, d: string) {
    c != d && (c + ":" <= d || d + ":" <= c)
  }

  lemma KeyPrefix(c: string, k: string)
    ensures |ReadKey(c, k)| == |c| + 1 + |k| && c + ":" == ReadKey(c, k)[..|c| + 1] && k == ReadKey(c, k)[|c| + 1..]
  {
  }

  lemma SameLengthSameClient(c: string, k: string, d: string, l: string)
    requires ReadKey(c, k) == ReadKey(d, l)
    ensures |c| == |d| ==> c == d && k == l
  {
    KeyPrefix(c, k);
    KeyPrefix(d, l);
    assert c == (c + ":")[..|c|] && d == (d + ":")[..|d|];
  }

  /** A shorter client of a shared key is followed by ':' in the longer one. */
  lemma {:induction false} SharedKeyExtends(c: string, k: string, d: string, l: string)
    requires ReadKey(c, k) == ReadKey(d, l) && |c| < |d|
    ensures c + ":" <= d
  {
    var x := ReadKey(c, k);
    KeyPrefix(c, k);
    KeyPrefix(d, l);
    assert d == x[..|d|] && c + ":" == x[..|d|][..|c| + 1];
  }

  /** Reads of two clients can share a read key exactly when one client's name is the other's followed
      by ':' and anything; then they can for every key of the longer one. */
  lemma {:induction false} ReadKeysCollide(c: string, d: string)
    ensures (exists k, l :: (c, k) != (d, l) && ReadKey(c, k) == ReadKey(d, l)) <==> Entangled(c, d)
    ensures c + ":" <= d ==> forall l :: ReadKey(c, d[|c| + 1..] + ":" + l) == ReadKey(d, l)
  {
    forall k, l | (c, k) != (d, l) && ReadKey(c, k) == ReadKey(d, l)
      ensures Entangled(c, d)
    {
      KeyPrefix(c, k);
      KeyPrefix(d, l);
      if |c| < |d| {
        SharedKeyExtends(c, k, d, l);
      } else if |d| < |c| {
        SharedKeyExtends(d, l, c, k);
      }
      SameLengthSameClient(c, k, d, l);
    }
    forall l
      ensures c + ":" <= d ==> ReadKey(c, d[|c| + 1..] + ":" + l) == ReadKey(d, l)
      ensures d + ":" <= c ==> ReadKey(d, c[|d| + 1..] + ":" + l) == ReadKey(c, l)
    {
      if c + ":" <= d {
        Rejoin(c, d, l);
      }
      if d + ":" <= c {
        Rejoin(d, c, l);
      }
    }
    if Entangled(c, d) {
      if c + ":" <= d {
        assert (c, d[|c| + 1..] + ":" + "") != (d, "") && ReadKey(c, d[|c| + 1..] + ":" + "") == ReadKey(d, "");
      } else {
        assert (c, "") != (d, c[|d| + 1..] + ":" + "") && ReadKey(c, "") == ReadKey(d, c[|d| + 1..] + ":" + "");
      }
    }
  }

  lemma Rejoin(c: string, d: string, l: string)
    requires c + ":" <= d
    ensures ReadKey(c, d[|c| + 1..] + ":" + l) == ReadKey(d, l)
  {
    assert d == c + ":" + d[|c| + 1..];
  }

  predicate NoColon(client: string) {
    ':' !in client
  }

  /** Without ':' in client names a read key names one client and one key. */
  lemma {:induction false} ReadKeyInjective(c: string, k: string, d: string, l: string)
    requires NoColon(c) && NoColon(d) && ReadKey(c, k) == ReadKey(d, l)
    ensures c == d && k == l
  {
    hide ReadKey;
    ReadKeysCollide(c, d);
    NotEntangled(c, d);
  }

  lemma NotEntangled(c: string, d: string)
    requires NoColon(c) && NoColon(d)
    ensures !Entangled(c, d)
  {
    ExtensionHasColon(c, d);
    ExtensionHasColon(d, c);
  }

  lemma ExtensionHasColon(c: string, d: string)
    ensures c + ":" <= d ==> ':' in d
  {
    if c + ":" <= d {
      assert d[|c|] == (c + ":")[|c|] == ':';
    }
  }

  /** Every read kept under this client's key is a read of this client and key. */
  predicate KeysApart(h: seq<Event>, client: string, key: string) {
    forall e <- h :: e.Saw? && ReadKey(e.client, e.key) == ReadKey(client, key) ==> e.client == client && e.key == key
  }

  /** So it is, whatever the keys, when no client of the history is entangled with this one. */
  lemma {:induction false} KeysApartUnlessEntangled(h: seq<Event>, client: string, key: string)
    requires forall e <- h :: !Entangled(e.client, client)
    ensures KeysApart(h, client, key)
  {
    hide ReadKey, Entangled;
    forall e | e in h && e.Saw? && ReadKey(e.client, e.key) == ReadKey(client, key)
      ensures e.client == client && e.key == key
    {
      ReadKeysCollide(e.client, client);
    }
  }

  /** In particular for client names without ':'. */
  lemma {:induction false} KeysApartWithoutColon(h: seq<Event>, client: string, key: string)
    requires NoColon(client) && forall e <- h :: NoColon(e.client)
    ensures KeysApart(h, client, key)
  {
    hide KeysApart, Entangled;
    forall e | e in h
      ensures !Entangled(e.client, client)
    {
      NotEntangled(e.client, client);
    }
    KeysApartUnlessEntangled(h, client, key);
  }

  lemma {:induction false} ReadsAgree(h: seq<Event>, client: string, key: string)
    requires KeysApart(h, client, key)
    ensures At(After(h).seen, ReadKey(client, key)) == ReadsIn(h, client, key)
  {
    if h != [] {
      var before, e := h[..|h| - 1], h[|h| - 1];
      assert forall x <- before :: x in h;
      ReadsAgree(before, client, key);
      assert e in h;
    }
  }

  /** Every read returns a value that was written to its key before. */
  predicate WellRead(h: seq<Event>) {
    h == [] ||
    var before, e := h[..|h| - 1], h[|h| - 1];
    WellRead(before) && (e.Saw? ==> IndexOf(WritesIn(before, e.key), e.value) >= 0)
  }

  lemma {:induction false} IndexOfBounds(ws: seq<Stamped>, v: Value)
    ensures -1 <= IndexOf(ws, v) < |ws|
    ensures 0 <= IndexOf(ws, v) ==> ws[IndexOf(ws, v)].value == v
    ensures forall i :: 0 <= i < |ws| && ws[i].value == v ==> 0 <= IndexOf(ws, v) <= i
  {
    if ws != [] {
      IndexOfBounds(ws[..|ws| - 1], v);
    }
  }

  /** Whatever is written later, the first write of a value stays where it is. */
  lemma IndexOfStable(ws: seq<Stamped>, w: Stamped, v: Value)
    requires IndexOf(ws, v) >= 0
    ensures IndexOf(ws + [w], v) == IndexOf(ws, v)
  {
    assert (ws + [w])[..|ws|] == ws;
  }

  lemma {:induction false} IndicesStable(rs: seq<Stamped>, ws: seq<Stamped>, w: Stamped)
    requires forall r <- rs :: IndexOf(ws, r.value) >= 0
    ensures Indices(rs, ws + [w]) == Indices(rs, ws)
  {
    forall i | 0 <= i < |rs|
      ensures IndexOf(ws + [w], rs[i].value) == IndexOf(ws, rs[i].value)
    {
      assert rs[i] in rs;
      IndexOfStable(ws, w, rs[i].value);
    }
  }

  lemma {:induction false} ReadsWereWritten(h: seq<Event>, client: string, key: string)
    requires WellRead(h)
    ensures forall r <- ReadsIn(h, client, key) :: IndexOf(WritesIn(h, key), r.value) >= 0
  {
    if h != [] {
      var before, e := h[..|h| - 1], h[|h| - 1];
      ReadsWereWritten(before, client, key);
      var rs, ws := ReadsIn(before, client, key), WritesIn(before, key);
      HistoryGrows(h, client, key);
      forall r | r in ReadsIn(h, client, key)
        ensures IndexOf(WritesIn(h, key), r.value) >= 0
      {
        if e.Wrote? && e.key == key {
          IndexOfStable(ws, Stamped(e.value, e.at), r.value);
        } else if r !in rs {
          assert ReadsIn(h, client, key) == rs + [Stamped(e.value, e.at)];
          assert r == Stamped(e.value, e.at) && WritesIn(h, key) == ws;
        }
      }
    }
  }

  lemma {:induction false} CountOfConcat(vs: seq<Violation>, ws: seq<Violation>, client: string, key: string)
    ensures Count(vs + ws, client, key) == Count(vs, client, key) + Count(ws, client, key)
  {
    if ws == [] {
      assert vs + ws == vs;
    } else {
      CountOfConcat(vs, ws[..|ws| - 1], client, key);
      assert (vs + ws)[..|vs + ws| - 1] == vs + ws[..|ws| - 1];
    }
  }

  /** How many monotonic_read flags one read adds. */
  lemma {:induction false} CountOfJudge(s: State, e: Event, client: string, key: string)
    requires e.Saw?
    ensures var ws, rs := At(s.writes, e.key), At(s.seen, ReadKey(e.client, e.key));
            Count(Judge(s, e.client, e.key, e.value, e.at), client, key) ==
              if e.client == client && e.key == key && rs != []
                 && IndexOf(ws, rs[|rs| - 1].value) >= 0 && IndexOf(ws, e.value) >= 0
                 && IndexOf(ws, e.value) < IndexOf(ws, rs[|rs| - 1].value)
              then 1 else 0
  {
    var ws, rs := At(s.writes, e.key), At(s.seen, ReadKey(e.client, e.key));
    var last := LastBefore(ws, e.at);
    var stale := if last.Some? && e.value != ws[last.value].value
                 then [ReadYourWrites(e.client, e.key, ws[last.value].at, e.at)] else [];
    var all := Judge(s, e.client, e.key, e.value, e.at);
    CountOfConcat(stale, all[|stale|..], client, key);
    assert all == stale + all[|stale|..];
  }

  lemma NoDescents()
    ensures Descents(Indices([], [])) == 0
  {
  }

  /** One more index adds a descent exactly when it is below the one before it. */
  lemma {:induction false} DescentsGrow(rs: seq<Stamped>, r: Stamped, ws: seq<Stamped>)
    ensures Descents(Indices(rs + [r], ws)) ==
            Descents(Indices(rs, ws)) + if rs != [] && IndexOf(ws, r.value) < IndexOf(ws, rs[|rs| - 1].value) then 1 else 0
  {
    hide IndexOf;
    var xs := Indices(rs + [r], ws);
    assert xs[..|xs| - 1] == Indices(rs, ws);
  }

  /** What one event does to the flags of a client and key, and to its descents. */
  lemma {:induction false} ReadAddsDescent(before: seq<Event>, e: Event, client: string, key: string)
    requires KeysApart(before, client, key) && WellRead(before)
    requires e == Saw(client, key, e.value, e.at) && IndexOf(WritesIn(before, key), e.value) >= 0
    ensures var rs, ws := ReadsIn(before, client, key), WritesIn(before, key);
            Count(Judge(After(before), client, key, e.value, e.at), client, key) ==
              Descents(Indices(rs + [Stamped(e.value, e.at)], ws)) - Descents(Indices(rs, ws))
  {
    hide IndexOf, After, Judge, ReadKey, Indices, Descents;
    var rs, ws := ReadsIn(before, client, key), WritesIn(before, key);
    CountOfJudge(After(before), e, client, key);
    WritesAgree(before, key);
    ReadsAgree(before, client, key);
    DescentsGrow(rs, Stamped(e.value, e.at), ws);
    ReadsWereWritten(before, client, key);
    if rs != [] {
      assert rs[|rs| - 1] in rs;
    }
  }

  /** If no other client shares its read key and reads return values already written, the
      monotonic_read flags of a client and key are the descents of its reads, taken as first-write
      indices in the final list of writes: nothing written later changes the verdict. */
  lemma {:induction false} FlagsAreDescents(h: seq<Event>, client: string, key: string)
    requires KeysApart(h, client, key) && WellRead(h)
    ensures Count(After(h).violations, client, key) == Descents(Indices(ReadsIn(h, client, key), WritesIn(h, key)))
  {
    hide IndexOf, Judge, ReadKey, Indices, Descents;
    if h == [] {
      NoDescents();
      return;
    }
    var before, e := h[..|h| - 1], h[|h| - 1];
    assert forall x <- before :: x in h;
    FlagsAreDescents(before, client, key);
    var rs, ws := ReadsIn(before, client, key), WritesIn(before, key);
    HistoryGrows(h, client, key);
    if e.Wrote? {
      if e.key == key {
        ReadsWereWritten(before, client, key);
        IndicesStable(rs, ws, Stamped(e.value, e.at));
      }
    } else {
      CountOfConcat(After(before).violations, Judge(After(before), e.client, e.key, e.value, e.at), client, key);
      if e.client == client && e.key == key {
        ReadAddsDescent(before, e, client, key);
      } else {
        CountOfJudge(After(before), e, client, key);
      }
    }
  }

  lemma AfterMore(h: seq<Event>, e: Event)
    ensures After(h + [e]) == Record(After(h), e)
  {
    assert (h + [e])[..|h|] == h;
  }

  const SHARED_WRITES := [Wrote("w", "b:c", "1", 1)] + [Wrote("w", "b:c", "2", 2)] + [Wrote("w", "c", "2", 3)]

  lemma {:induction false} SharedWrites()
    ensures var s := After(SHARED_WRITES);
            At(s.writes, "b:c") == [Stamped("1", 1), Stamped("2", 2)] && At(s.writes, "c") == [Stamped("2", 3)]
            && s.seen == map[] && s.violations == []
  {
    hide After;
    var a := [Wrote("w", "b:c", "1", 1)];
    assert [] + a == a;
    AfterNone();
    AfterMore([], a[0]);
    AfterMore(a, Wrote("w", "b:c", "2", 2));
    AfterMore(a + [Wrote("w", "b:c", "2", 2)], Wrote("w", "c", "2", 3));
    assert "b:c"[0] != "c"[0];
  }

  lemma AfterNone()
    ensures After([]) == EMPTY
  {
  }

  /** Two clients that share a read key: after "a:b" has read "c", the only read of "a" is flagged as
      going backwards. */
  lemma {:induction false} SharedKeyMisjudges()
    ensures var h := SHARED_WRITES + [Saw("a:b", "c", "2", 4)] + [Saw("a", "b:c", "1", 5)];
            MonotonicRead("a", "b:c", 1, 0, 5) in After(h).violations && |ReadsIn(h, "a", "b:c")| == 1
  {
    hide After, Judge, LastBefore;
    var first, second := Saw("a:b", "c", "2", 4), Saw("a", "b:c", "1", 5);
    var h := SHARED_WRITES + [first];
    SharedWrites();
    AfterMore(SHARED_WRITES, first);
    AfterMore(h, second);
    assert ReadKey("a:b", "c") == ReadKey("a", "b:c");
    var s := After(h);
    assert At(s.writes, "b:c") == [Stamped("1", 1), Stamped("2", 2)];
    assert At(s.seen, ReadKey("a", "b:c")) == [Stamped("2", 4)];
    SecondOfTwo();
    JudgedBackwards(s, "a", "b:c", "1", 5);
    OnlyRead(first, second);
  }

  lemma SecondOfTwo()
    ensures IndexOf([Stamped("1", 1), Stamped("2", 2)], "1") == 0 && IndexOf([Stamped("1", 1), Stamped("2", 2)], "2") == 1
  {
    var ws := [Stamped("1", 1), Stamped("2", 2)];
    assert ws[..1] == [ws[0]] && [ws[0]][..0] == [];
    assert "1"[0] != "2"[0];
    assert IndexOf([ws[0]], "1") == 0 && IndexOf([ws[0]], "2") == -1;
  }

  lemma {:induction false} JudgedBackwards(s: State, client: string, key: string, value: Value, at: int)
    requires var ws, rs := At(s.writes, key), At(s.seen, ReadKey(client, key));
             rs != [] && 0 <= IndexOf(ws, value) < IndexOf(ws, rs[|rs| - 1].value)
    ensures var ws, rs := At(s.writes, key), At(s.seen, ReadKey(client, key));
            MonotonicRead(client, key, IndexOf(ws, rs[|rs| - 1].value), IndexOf(ws, value), at) in Judge(s, client, key, value, at)
  {
    hide IndexOf, LastBefore, At;
  }

  lemma {:induction false} OnlyRead(first: Event, second: Event)
    requires first.Saw? && first.client == "a:b" && second.Saw? && second.client == "a" && second.key == "b:c"
    ensures |ReadsIn(SHARED_WRITES + [first] + [second], "a", "b:c")| == 1
  {
    var h := SHARED_WRITES + [first] + [second];
    assert h[..4] == SHARED_WRITES + [first] && h[..4][..3] == SHARED_WRITES;
    assert "a:b" != "a" by {
      assert |"a:b"| == 3 && |"a"| == 1;
    }
    NoReads(SHARED_WRITES, "a", "b:c");
  }

  lemma {:induction false} NoReads(h: seq<Event>, client: string, key: string)
    requires forall e <- h :: e.Wrote?
    ensures ReadsIn(h, client, key) == []
  {
    if h != [] {
      NoReads(h[..|h| - 1], client, key);
      assert h[|h| - 1] in h;
    }
  }

  // ------------------------------------------------------------------
  // Read-your-writes implies monotonic reads

  predicate TimeOrdered(h: seq<Event>) {
    forall i, j :: 0 <= i < j < |h| ==> h[i].at < h[j].at
  }

  predicate DistinctWrites(h: seq<Event>) {
    forall i, j :: 0 <= i < j < |h| && h[i].Wrote? && h[j].Wrote? && h[i].key == h[j].key ==> h[i].value != h[j].value
  }

  /** A write in the list comes from an event. */
  lemma {:induction false} WriteComesFrom(h: seq<Event>, key: string, i: nat) returns (j: nat)
    requires i < |WritesIn(h, key)|
    ensures j < |h| && h[j].Wrote? && h[j].key == key && WritesIn(h, key)[i] == Stamped(h[j].value, h[j].at)
    ensures i == |WritesIn(h, key)| - 1 ==> WritesIn(h[..j], key) == WritesIn(h, key)[..i]
    ensures i < |WritesIn(h, key)| - 1 ==> j < |h| - 1
  {
    var n := |h| - 1;
    var before := WritesIn(h[..n], key);
    if i < |before| {
      j := WriteComesFrom(h[..n], key, i);
      assert h[..n][..j] == h[..j];
    } else {
      j := n;
    }
  }

  /** In such a history a key's writes have increasing times and different values. */
  lemma {:induction false} WritesAreOrdered(h: seq<Event>, key: string)
    requires TimeOrdered(h) && DistinctWrites(h)
    ensures var ws := WritesIn(h, key);
            && (forall i, j :: 0 <= i < j < |ws| ==> ws[i].at < ws[j].at && ws[i].value != ws[j].value)
            && (forall i :: 0 <= i < |ws| ==> ws[i].at <= h[|h| - 1].at)
  {
    if h != [] {
      var n := |h| - 1;
      WritesAreOrdered(h[..n], key);
      var before := WritesIn(h[..n], key);
      forall i | 0 <= i < |before|
        ensures before[i].at < h[n].at && (h[n].Wrote? && h[n].key == key ==> before[i].value != h[n].value)
      {
        var j := WriteComesFrom(h[..n], key, i);
        assert h[..n][j] == h[j];
      }
    }
  }

  lemma {:induction false} LatestIsLast(ws: seq<Stamped>, at: int)
    requires ws != [] && (forall i, j :: 0 <= i < j < |ws| ==> ws[i].at < ws[j].at) && ws[|ws| - 1].at <= at
    ensures LastBefore(ws, at) == Some(|ws| - 1)
  {
  }

  predicate Clean(vs: seq<Violation>) {
    forall v <- vs :: !v.ReadYourWrites?
  }

  /** In a strictly time-ordered history with distinct values per key, a checker that flags no
      read_your_writes flags nothing at all. */
  lemma {:induction false} CleanMeansMonotonic(h: seq<Event>)
    requires TimeOrdered(h) && DistinctWrites(h) && Clean(After(h).violations)
    ensures After(h).violations == []
  {
    hide Judge, WritesIn, LastBefore, IndexOf, ReadKey, At;
    if h != [] {
      var before, e := h[..|h| - 1], h[|h| - 1];
      var s := After(before);
      if e.Wrote? {
        assert After(h).violations == s.violations;
        CleanMeansMonotonic(before);
      } else {
        var added := Judge(s, e.client, e.key, e.value, e.at);
        assert After(h).violations == s.violations + added;
        CleanParts(s.violations, added);
        CleanMeansMonotonic(before);
        WritesAreOrdered(before, e.key);
        assert h == before + [e];
        WritesPrecede(before, e);
        CleanReadIsLatest(before, e);
      }
    }
  }

  lemma CleanParts(vs: seq<Violation>, ws: seq<Violation>)
    requires Clean(vs + ws)
    ensures Clean(vs) && Clean(ws)
  {
    assert forall v <- vs :: v in vs + ws;
    assert forall v <- ws :: v in vs + ws;
  }

  /** An event that is no earlier than its history is no earlier than any write in it. */
  lemma WritesPrecede(before: seq<Event>, e: Event)
    requires TimeOrdered(before + [e])
    ensures forall i :: 0 <= i < |WritesIn(before, e.key)| ==> WritesIn(before, e.key)[i].at <= e.at
  {
    forall i | 0 <= i < |WritesIn(before, e.key)|
      ensures WritesIn(before, e.key)[i].at <= e.at
    {
      var j := WriteComesFrom(before, e.key, i);
      assert (before + [e])[j] == before[j] && (before + [e])[|before|] == e;
    }
  }

  lemma {:induction false} CleanReadIsLatest(before: seq<Event>, e: Event)
    requires e.Saw? && Clean(Judge(After(before), e.client, e.key, e.value, e.at))
    requires var ws := WritesIn(before, e.key);
             && (forall i, j :: 0 <= i < j < |ws| ==> ws[i].at < ws[j].at && ws[i].value != ws[j].value)
             && (forall i :: 0 <= i < |ws| ==> ws[i].at <= e.at)
    ensures Judge(After(before), e.client, e.key, e.value, e.at) == []
  {
    var s := After(before);
    WritesAgree(before, e.key);
    var ws, rs := At(s.writes, e.key), At(s.seen, ReadKey(e.client, e.key));
    IndexOfBounds(ws, e.value);
    if ws != [] {
      LatestIsLast(ws, e.at);
      var vs := Judge(s, e.client, e.key, e.value, e.at);
      assert vs != [] ==> vs[0] in vs;
      if rs != [] {
        IndexOfBounds(ws, rs[|rs| - 1].value);
      }
    }
  }

  /** Which write a read is held to: the newest not after it, and the first of several equally new. */
  lemma {:induction false} LastBeforeLaws(ws: seq<Stamped>, at: int)
    ensures var r := LastBefore(ws, at);
            && (r.None? <==> forall w <- ws :: w.at > at)
            && (r.Some? ==> ws[r.value].at <= at && forall i :: 0 <= i < |ws| && ws[i].at <= at ==>
                 ws[i].at <= ws[r.value].at && (ws[i].at == ws[r.value].at ==> r.value <= i))
  {
    if ws != [] {
      var n := |ws| - 1;
      LastBeforeLaws(ws[..n], at);
      assert ws == ws[..n] + [ws[n]];
    }
  }

  predicate SameButWriters(h: seq<Event>, g: seq<Event>) {
    |h| == |g| && forall i :: 0 <= i < |h| ==> if h[i].Wrote? then g[i].Wrote? && g[i] == h[i].(client := g[i].client) else g[i] == h[i]
  }

  /** The read_your_writes check never asks who wrote. */
  lemma {:induction false} WritersAreIgnored(h: seq<Event>, g: seq<Event>)
    requires SameButWriters(h, g)
    ensures After(h) == After(g)
  {
    if h != [] {
      WritersAreIgnored(h[..|h| - 1], g[..|g| - 1]);
    }
  }

  // ------------------------------------------------------------------
  // When asking about everybody's writes is asking about one's own

  function OwnWrites(h: seq<Event>, client: string, key: string): seq<Stamped> {
    if h == [] then []
    else
      var e := h[|h| - 1];
      OwnWrites(h[..|h| - 1], client, key)
      + if e.Wrote? && e.client == client && e.key == key then [Stamped(e.value, e.at)] else []
  }

  /** Among these writes there is one not after `at`, and the value is not that of the newest. */
  predicate Outdated(ws: seq<Stamped>, value: Value, at: int) {
    var last := LastBefore(ws, at);
    last.Some? && value != ws[last.value].value
  }

  /** A read is flagged for read_your_writes exactly when it is outdated among everybody's writes. */
  lemma {:induction false} FlaggedWhenOutdated(h: seq<Event>, client: string, key: string, value: Value, at: int)
    ensures (exists v <- Judge(After(h), client, key, value, at) :: v.ReadYourWrites?) <==> Outdated(WritesIn(h, key), value, at)
  {
    WritesAgree(h, key);
    var vs := Judge(After(h), client, key, value, at);
    if Outdated(WritesIn(h, key), value, at) {
      assert vs[0] in vs && vs[0].ReadYourWrites?;
    }
  }

  /** What a flag says: the time of the write the read was held to, or the two first-write indices, later
      one first; at most one flag of each kind, the first kind first. */
  lemma {:induction false} FlagsSayWhy(h: seq<Event>, client: string, key: string, value: Value, at: int)
    ensures var ws, rs := WritesIn(h, key), At(After(h).seen, ReadKey(client, key));
            var vs, last := Judge(After(h), client, key, value, at), LastBefore(WritesIn(h, key), at);
            && |vs| <= 2
            && (forall k :: 0 <= k < |vs| ==> vs[k].client == client && vs[k].key == key && vs[k].at == at)
            && (forall k :: 0 <= k < |vs| && vs[k].ReadYourWrites? ==> k == 0 && last.Some? && vs[k].expected == ws[last.value].at)
            && (forall k :: 0 <= k < |vs| && vs[k].MonotonicRead? ==>
                  && k == |vs| - 1 && rs != []
                  && vs[k].previous == IndexOf(ws, rs[|rs| - 1].value) && vs[k].current == IndexOf(ws, value)
                  && 0 <= vs[k].current < vs[k].previous)
  {
    hide LastBefore, IndexOf;
    WritesAgree(h, key);
  }

  lemma {:induction false} OwnAmongAll(h: seq<Event>, client: string, key: string, w: Stamped)
    ensures w in OwnWrites(h, client, key) ==> w in WritesIn(h, key)
  {
    if h != [] {
      OwnAmongAll(h[..|h| - 1], client, key, w);
    }
  }

  /** For every value a read may return, the check judges as if it looked at the client's own writes
      only, exactly when there is no write of the key to be held to, or the newest own write has the
      same value as the newest of all. */
  lemma {:induction false} OwnWritesSuffice(h: seq<Event>, client: string, key: string, at: int)
    ensures var ws, own := WritesIn(h, key), OwnWrites(h, client, key);
            var all, mine := LastBefore(ws, at), LastBefore(own, at);
            (forall value: Value :: Outdated(ws, value, at) <==> Outdated(own, value, at)) <==>
            all.None? || (mine.Some? && own[mine.value].value == ws[all.value].value)
  {
    hide WritesIn, OwnWrites;
    var ws, own := WritesIn(h, key), OwnWrites(h, client, key);
    var all, mine := LastBefore(ws, at), LastBefore(own, at);
    LastBeforeLaws(ws, at);
    LastBeforeLaws(own, at);
    if mine.Some? {
      OwnAmongAll(h, client, key, own[mine.value]);
      assert own[mine.value] in ws;
    } else if all.Some? {
      var other: Value := ws[all.value].value + "'";
      assert |other| > |ws[all.value].value|;
      assert Outdated(ws, other, at) && !Outdated(own, other, at);
    }
    if all.Some? && mine.Some? && own[mine.value].value != ws[all.value].value {
      assert !Outdated(ws, ws[all.value].value, at) && Outdated(own, ws[all.value].value, at);
    }
  }

  /** So a client that never wrote is flagged like the writer itself. */
  lemma StrangersAreFlagged()
    ensures After([Wrote("a", "k", "x", 1), Saw("b", "k", "y", 2)]).violations == [ReadYourWrites("b", "k", 1, 2)]
  {
    var h := [Wrote("a", "k", "x", 1), Saw("b", "k", "y", 2)];
    assert h[..1] == [h[0]] && h[..1][..0] == [];
    var s := After(h[..1]);
    assert s == Record(After([]), h[0]) && After([]) == EMPTY;
    assert At(s.writes, "k") == [Stamped("x", 1)] && At(s.seen, ReadKey("b", "k")) == [];
    assert [Stamped("x", 1)][..0] == [];
    assert LastBefore([], 2) == None && LastBefore([Stamped("x", 1)], 2) == Some(0);
    assert "x"[0] != "y"[0];
  }

  // ------------------------------------------------------------------
  // The checker in place

  class InMemoryChecker {
    var writes: map<string, seq<Stamped>>
    var clientReads: map<string, seq<Stamped>>
    var violations: seq<Violation>

    ghost function View(): State
      reads this
    {
      State(writes, clientReads, violations)
    }

    constructor ()
      ensures View() == EMPTY
    {
      writes, clientReads, violations := map[], map[], [];
    }

    method RecordWrite(client: string, key: string, value: Value, at: int)
      modifies `writes
      ensures View() == Record(old(View()), Wrote(client, key, value, at))
    {
      writes := writes[key := At(writes, key) + [Stamped(value, at)]];
    }

    method LastWriteBefore(key: string, at: int) returns (last: Option<nat>)
      ensures last == LastBefore(At(writes, key), at)
    {
      var ws := At(writes, key);
      last := None;
      for i := 0 to |ws|
        invariant last == LastBefore(ws[..i], at)
      {
        assert ws[..i + 1][..i] == ws[..i];
        if ws[i].at <= at {
          if last == None || ws[i].at > ws[last.value].at {
            last := Some(i);
          }
        }
      }
      assert ws[..|ws|] == ws;
    }

    method WriteIndexOf(key: string, value: Value) returns (index: int)
      ensures index == IndexOf(At(writes, key), value)
    {
      var ws := At(writes, key);
      for i := 0 to |ws|
        invariant forall j :: 0 <= j < i ==> ws[j].value != value
      {
        if ws[i].value == value {
          IndexOfBounds(ws, value);
          return i;
        }
      }
      IndexOfBounds(ws, value);
      index := -1;
    }

    method RecordRead(client: string, key: string, value: Value, at: int)
      modifies `clientReads, `violations
      ensures View() == Record(old(View()), Saw(client, key, value, at))
    {
      var ws := At(writes, key);
      var lastWrite := LastWriteBefore(key, at);
      if lastWrite != None {
        if value != ws[lastWrite.value].value {
          violations := violations + [ReadYourWrites(client, key, ws[lastWrite.value].at, at)];
        }
      }
      var ck := ReadKey(client, key);
      var prevReads := At(clientReads, ck);
      if |prevReads| > 0 {
        var prevIdx := WriteIndexOf(key, prevReads[|prevReads| - 1].value);
        var curIdx := WriteIndexOf(key, value);
        if prevIdx >= 0 && curIdx >= 0 && curIdx < prevIdx {
          violations := violations + [MonotonicRead(client, key, prevIdx, curIdx, at)];
        }
      }
      clientReads := clientReads[ck := prevReads + [Stamped(value, at)]];
      assert violations == old(violations) + Judge(old(View()), client, key, value, at);
    }
  }
}
