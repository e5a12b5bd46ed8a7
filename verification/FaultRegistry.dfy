/** The live faults of one proxy: four ordered maps from names to faults, a generation counter, and
    one ticker for every time-varying connection fault. */
module FaultRegistry {
  import opened Options
  import opened FaultChain

  datatype Entry<+T> = Entry(name: string, fault: T)

  // ------------------------------------------------------------------
  // A list used as an ordered map

  function Names<T>(list: seq<Entry<T>>): seq<string> {
    seq(|list|, i requires 0 <= i < |list| => list[i].name)
  }

  predicate Unique<T>(list: seq<Entry<T>>) {
    forall i, j :: 0 <= i < j < |list| ==> list[i].name != list[j].name
  }

  function Put<T>(list: seq<Entry<T>>, e: Entry<T>): seq<Entry<T>> {
    if list == [] then [e]
    else if list[0].name == e.name then [e] + list[1..]
    else [list[0]] + Put(list[1..], e)
  }

  function Without<T>(list: seq<Entry<T>>, name: string): seq<Entry<T>> {
    if list == [] then []
    else
      var last := list[|list| - 1];
      Without(list[..|list| - 1], name) + if last.name == name then [] else [last]
  }

  function Lookup<T>(list: seq<Entry<T>>, name: string): Option<T> {
    if list == [] then None
    else if list[0].name == name then Some(list[0].fault)
    else Lookup(list[1..], name)
  }

  predicate Has<T>(list: seq<Entry<T>>, name: string) {
    exists i :: 0 <= i < |list| && list[i].name == name
  }

  lemma {:induction false} LookupHas<T>(list: seq<Entry<T>>, name: string)
    ensures Lookup(list, name).Some? <==> Has(list, name)
    ensures Has(list, name) <==> name in Names(list)
  {
    if list != [] {
      LookupHas(list[1..], name);
      assert list == [list[0]] + list[1..];
      assert Names(list) == [list[0].name] + Names(list[1..]);
    }
  }

  lemma PutStep<T>(list: seq<Entry<T>>, i: nat, e: Entry<T>)
    requires i < |list|
    ensures Put(list[i..], e) == if list[i].name == e.name then [e] + list[i + 1..] else [list[i]] + Put(list[i + 1..], e)
  {
    assert list[i..][1..] == list[i + 1..];
  }

  lemma PutLast<T>(e: Entry<T>)
    ensures Put([], e) == [e]
  {
  }

  lemma {:induction false} PutNames<T>(list: seq<Entry<T>>, e: Entry<T>)
    ensures Names(Put(list, e)) == if e.name in Names(list) then Names(list) else Names(list) + [e.name]
  {
    if list != [] {
      var rest := list[1..];
      assert Names(list) == [list[0].name] + Names(rest);
      if list[0].name == e.name {
        assert Names(Put(list, e)) == [e.name] + Names(rest);
      } else {
        PutNames(rest, e);
        assert Names(Put(list, e)) == [list[0].name] + Names(Put(rest, e));
      }
    }
  }

  lemma {:induction false} PutLookup<T>(list: seq<Entry<T>>, e: Entry<T>, name: string)
    ensures Lookup(Put(list, e), name) == if name == e.name then Some(e.fault) else Lookup(list, name)
  {
    if list != [] {
      if list[0].name == e.name {
        assert Put(list, e)[1..] == list[1..];
      } else {
        PutLookup(list[1..], e, name);
        assert Put(list, e)[1..] == Put(list[1..], e);
      }
    }
  }

  /** Installing a fault keeps the order of names, appends a new name at the end, and changes the
      look-up of that name only. */
  lemma {:induction false} PutLaws<T>(list: seq<Entry<T>>, e: Entry<T>, name: string)
    ensures Names(Put(list, e)) == if e.name in Names(list) then Names(list) else Names(list) + [e.name]
    ensures Lookup(Put(list, e), name) == if name == e.name then Some(e.fault) else Lookup(list, name)
    ensures Unique(list) ==> Unique(Put(list, e))
  {
    hide Names, Put, Lookup, Unique;
    PutNames(list, e);
    PutLookup(list, e, name);
    UniqueByNames(list, Put(list, e), e.name);
  }

  lemma {:induction false} UniqueByNames<T>(list: seq<Entry<T>>, list': seq<Entry<T>>, name: string)
    requires Names(list') == Names(list) || (name !in Names(list) && Names(list') == Names(list) + [name])
    ensures Unique(list) ==> Unique(list')
  {
    if Unique(list) {
      forall i, j | 0 <= i < j < |list'|
        ensures list'[i].name != list'[j].name
      {
        assert list'[i].name == Names(list')[i] && list'[j].name == Names(list')[j];
        assert j < |list| ==> Names(list)[j] == list[j].name;
        assert i < |list| ==> Names(list)[i] == list[i].name;
      }
    }
  }

  lemma {:induction false} WithoutMembers<T>(list: seq<Entry<T>>, gone: string, e: Entry<T>)
    ensures e in Without(list, gone) <==> e in list && e.name != gone
  {
    if list != [] {
      var n := |list| - 1;
      WithoutMembers(list[..n], gone, e);
      assert list == list[..n] + [list[n]];
    }
  }

  lemma {:induction false} WithoutUnique<T>(list: seq<Entry<T>>, gone: string)
    requires Unique(list)
    ensures Unique(Without(list, gone))
  {
    if list != [] {
      var n := |list| - 1;
      WithoutUnique(list[..n], gone);
      forall i | 0 <= i < |Without(list[..n], gone)|
        ensures Without(list[..n], gone)[i].name != list[n].name
      {
        WithoutMembers(list[..n], gone, Without(list[..n], gone)[i]);
      }
    }
  }

  lemma {:induction false} WithoutAbsent<T>(list: seq<Entry<T>>, gone: string)
    requires !Has(list, gone)
    ensures Without(list, gone) == list
  {
    if list != [] {
      var n := |list| - 1;
      assert !Has(list[..n], gone);
      WithoutAbsent(list[..n], gone);
      assert list == list[..n] + [list[n]];
    }
  }

  /** Removing a name keeps everything else as it was. */
  lemma {:induction false} WithoutLaws<T>(list: seq<Entry<T>>, gone: string)
    ensures forall e :: e in Without(list, gone) <==> e in list && e.name != gone
    ensures Unique(list) ==> Unique(Without(list, gone))
    ensures !Has(list, gone) ==> Without(list, gone) == list
    ensures !Has(Without(list, gone), gone)
  {
    hide Without, Unique;
    forall e
      ensures e in Without(list, gone) <==> e in list && e.name != gone
    {
      WithoutMembers(list, gone, e);
    }
    if Unique(list) {
      WithoutUnique(list, gone);
    }
    if !Has(list, gone) {
      WithoutAbsent(list, gone);
    }
    forall i | 0 <= i < |Without(list, gone)|
      ensures Without(list, gone)[i].name != gone
    {
      WithoutMembers(list, gone, Without(list, gone)[i]);
    }
  }

  /** What stays keeps its order, entry by entry. */
  lemma {:induction false} WithoutInOrder<T>(a: seq<Entry<T>>, b: seq<Entry<T>>, gone: string)
    ensures Without(a + b, gone) == Without(a, gone) + Without(b, gone)
  {
    if b == [] {
      assert a + b == a;
    } else {
      WithoutInOrder(a, b[..|b| - 1], gone);
      assert (a + b)[..|a + b| - 1] == a + b[..|b| - 1];
    }
  }

  lemma WithoutOfOne<T>(e: Entry<T>, gone: string)
    ensures Without([e], gone) == if e.name == gone then [] else [e]
  {
    assert [e][..0] == [];
  }

  lemma {:induction false} LookupOfMember<T>(list: seq<Entry<T>>, e: Entry<T>)
    requires Unique(list) && e in list
    ensures Lookup(list, e.name) == Some(e.fault)
  {
    if list[0] != e {
      assert list == [list[0]] + list[1..];
      LookupOfMember(list[1..], e);
      var i :| 0 <= i < |list| && list[i] == e;
    }
  }

  lemma {:induction false} LookupFinds<T>(list: seq<Entry<T>>, name: string)
    requires Lookup(list, name).Some?
    ensures Entry(name, Lookup(list, name).value) in list
  {
    if list[0].name != name {
      LookupFinds(list[1..], name);
    }
  }

  /** After removing `gone`, the look-up of every other name is as before. */
  lemma {:induction false} WithoutLookup<T>(list: seq<Entry<T>>, gone: string, name: string)
    requires Unique(list)
    ensures Lookup(Without(list, gone), name) == if name == gone then None else Lookup(list, name)
  {
    WithoutLaws(list, gone);
    LookupHas(list, name);
    LookupHas(Without(list, gone), name);
    if name != gone && Lookup(list, name).Some? {
      LookupFinds(list, name);
      LookupOfMember(Without(list, gone), Entry(name, Lookup(list, name).value));
    } else if name != gone {
      forall i | 0 <= i < |Without(list, gone)|
        ensures Without(list, gone)[i].name != name
      {
        WithoutMembers(list, gone, Without(list, gone)[i]);
      }
    }
  }

  // ------------------------------------------------------------------
  // The registry as a value

  /** Packet faults, dial faults and read hooks are told apart by an instance number. */
  datatype State = State(
    gen: nat,
    conn: seq<Entry<Fault>>,
    packet: seq<Entry<nat>>,
    dial: seq<Entry<nat>>,
    hooks: seq<Entry<nat>>)

  datatype Operation =
    | RegisterConn(f: Entry<Fault>)
    | RegisterPacket(p: Entry<nat>)
    | RegisterDial(d: Entry<nat>)
    | RegisterHook(h: Entry<nat>)
    | Unregister(name: string)
    | Clear

  predicate Present(s: State, name: string) {
    Has(s.conn, name) || Has(s.packet, name) || Has(s.dial, name) || Has(s.hooks, name)
  }

  function Perform(s: State, op: Operation): State {
    match op
    case RegisterConn(f) => s.(gen := s.gen + 1, conn := Put(s.conn, f))
    case RegisterPacket(p) => s.(gen := s.gen + 1, packet := Put(s.packet, p))
    case RegisterDial(d) => s.(gen := s.gen + 1, dial := Put(s.dial, d))
    case RegisterHook(h) => s.(gen := s.gen + 1, hooks := Put(s.hooks, h))
    case Unregister(name) =>
      s.(gen := if Present(s, name) then s.gen + 1 else s.gen,
         conn := Without(s.conn, name), packet := Without(s.packet, name),
         dial := Without(s.dial, name), hooks := Without(s.hooks, name))
    case Clear => State(s.gen + 1, [], [], [], [])
  }

  function Faults(list: seq<Entry<Fault>>): seq<Fault> {
    seq(|list|, i requires 0 <= i < |list| => list[i].fault)
  }

  predicate TimeVarying(f: Fault) {
    f.Latency? || f.Loss?
  }

  /** The names that need a ticker. */
  function Ticking(list: seq<Entry<Fault>>): set<string> {
    set e | e in list && TimeVarying(e.fault) :: e.name
  }

  predicate AllUnique(s: State) {
    Unique(s.conn) && Unique(s.packet) && Unique(s.dial) && Unique(s.hooks)
  }

  /** No operation makes a name appear twice in a list, and an operation that leaves the generation
      alone leaves everything alone. */
  lemma {:induction false} PerformLaws(s: State, op: Operation)
    ensures AllUnique(s) ==> AllUnique(Perform(s, op))
    ensures s.gen <= Perform(s, op).gen
    ensures Perform(s, op).gen == s.gen ==> Perform(s, op) == s
  {
    match op {
      case RegisterConn(f) => PutLaws(s.conn, f, f.name);
      case RegisterPacket(p) => PutLaws(s.packet, p, p.name);
      case RegisterDial(d) => PutLaws(s.dial, d, d.name);
      case RegisterHook(h) => PutLaws(s.hooks, h, h.name);
      case Unregister(name) =>
        WithoutLaws(s.conn, name);
        WithoutLaws(s.packet, name);
        WithoutLaws(s.dial, name);
        WithoutLaws(s.hooks, name);
      case Clear =>
    }
  }

  /** The generation moves on by one with every registration and every clearing, and with an
      unregistration that finds something. */
  lemma GenerationCounts(s: State, op: Operation)
    ensures Perform(s, op).gen == s.gen + if op.Unregister? && !Present(s, op.name) then 0 else 1
  {
  }

  lemma {:induction false} TickingAfterPut(list: seq<Entry<Fault>>, f: Entry<Fault>)
    requires Unique(list)
    ensures Ticking(Put(list, f)) == Ticking(list) - {f.name} + if TimeVarying(f.fault) then {f.name} else {}
  {
    PutLaws(list, f, f.name);
    forall name
      ensures name in Ticking(Put(list, f)) <==>
                (name != f.name && name in Ticking(list)) || (name == f.name && TimeVarying(f.fault))
    {
      PutLaws(list, f, name);
      TickingByLookup(list, name);
      TickingByLookup(Put(list, f), name);
    }
  }

  lemma {:induction false} TickingByLookup(list: seq<Entry<Fault>>, name: string)
    requires Unique(list)
    ensures name in Ticking(list) <==> Lookup(list, name).Some? && TimeVarying(Lookup(list, name).value)
  {
    if name in Ticking(list) {
      var e :| e in list && e.name == name && TimeVarying(e.fault);
      LookupOfMember(list, e);
    }
    if Lookup(list, name).Some? {
      LookupFinds(list, name);
    }
  }

  lemma {:induction false} TickingAfterWithout(list: seq<Entry<Fault>>, name: string)
    ensures Ticking(Without(list, name)) == Ticking(list) - {name}
  {
    WithoutLaws(list, name);
  }

  // ------------------------------------------------------------------
  // Whole operation sequences

  const EMPTY := State(0, [], [], [], [])

  function PerformAll(ops: seq<Operation>): State {
    if ops == [] then EMPTY else Perform(PerformAll(ops[..|ops| - 1]), ops[|ops| - 1])
  }

  /** What an operation means for one of the lists. */
  datatype Change<+T> = Install(e: Entry<T>) | Remove(name: string) | RemoveAll | Nothing

  function OnConn(op: Operation): Change<Fault> {
    match op
    case RegisterConn(f) => Install(f)
    case Unregister(name) => Remove(name)
    case Clear => RemoveAll
    case _ => Nothing
  }

  function OnPacket(op: Operation): Change<nat> {
    match op
    case RegisterPacket(p) => Install(p)
    case Unregister(name) => Remove(name)
    case Clear => RemoveAll
    case _ => Nothing
  }

  function OnDial(op: Operation): Change<nat> {
    match op
    case RegisterDial(d) => Install(d)
    case Unregister(name) => Remove(name)
    case Clear => RemoveAll
    case _ => Nothing
  }

  function OnHooks(op: Operation): Change<nat> {
    match op
    case RegisterHook(h) => Install(h)
    case Unregister(name) => Remove(name)
    case Clear => RemoveAll
    case _ => Nothing
  }

  /** What a name stands for in a list, read off the operations alone: the last fault registered under
      the name unless it was unregistered or everything was cleared since. */
  function Latest<T>(ops: seq<Operation>, on: Operation -> Change<T>, name: string): Option<T> {
    if ops == [] then None
    else
      match on(ops[|ops| - 1])
      case Install(e) => if e.name == name then Some(e.fault) else Latest(ops[..|ops| - 1], on, name)
      case Remove(gone) => if gone == name then None else Latest(ops[..|ops| - 1], on, name)
      case RemoveAll => None
      case Nothing => Latest(ops[..|ops| - 1], on, name)
  }

  function Amended<T>(list: seq<Entry<T>>, c: Change<T>): seq<Entry<T>> {
    match c
    case Install(e) => Put(list, e)
    case Remove(gone) => Without(list, gone)
    case RemoveAll => []
    case Nothing => list
  }

  lemma PerformAmends(s: State, op: Operation)
    ensures var t := Perform(s, op);
            && t.conn == Amended(s.conn, OnConn(op)) && t.packet == Amended(s.packet, OnPacket(op))
            && t.dial == Amended(s.dial, OnDial(op)) && t.hooks == Amended(s.hooks, OnHooks(op))
  {
  }

  lemma {:induction false} AmendedLookup<T>(list: seq<Entry<T>>, ops: seq<Operation>, on: Operation -> Change<T>, name: string)
    requires ops != [] && Unique(list) && Lookup(list, name) == Latest(ops[..|ops| - 1], on, name)
    ensures Lookup(Amended(list, on(ops[|ops| - 1])), name) == Latest(ops, on, name)
  {
    hide Put, Without, Lookup, Unique;
    match on(ops[|ops| - 1])
    case Install(e) => PutLaws(list, e, name);
    case Remove(gone) => WithoutLookup(list, gone, name);
    case RemoveAll => EmptyLookup<T>(name);
    case Nothing =>
  }

  lemma EmptyLookup<T>(name: string)
    ensures Lookup<T>([], name) == None
  {
  }

  /** After any operation sequence names are unique in every list, and a look-up in any of them finds
      what the operations say. */
  lemma {:induction false} RegistryIsAMap(ops: seq<Operation>, name: string)
    ensures AllUnique(PerformAll(ops))
    ensures Lookup(PerformAll(ops).conn, name) == Latest(ops, OnConn, name)
    ensures Lookup(PerformAll(ops).packet, name) == Latest(ops, OnPacket, name)
    ensures Lookup(PerformAll(ops).dial, name) == Latest(ops, OnDial, name)
    ensures Lookup(PerformAll(ops).hooks, name) == Latest(ops, OnHooks, name)
  {
    if ops != [] {
      hide Perform, Lookup, Latest, Amended, OnConn, OnPacket, OnDial, OnHooks, Unique;
      var before, last := PerformAll(ops[..|ops| - 1]), ops[|ops| - 1];
      RegistryIsAMap(ops[..|ops| - 1], name);
      PerformLaws(before, last);
      PerformAmends(before, last);
      AmendedLookup(before.conn, ops, OnConn, name);
      AmendedLookup(before.packet, ops, OnPacket, name);
      AmendedLookup(before.dial, ops, OnDial, name);
      AmendedLookup(before.hooks, ops, OnHooks, name);
    }
  }

  /** The change decides what the name stands for. */
  predicate Touches<T>(c: Change<T>, name: string) {
    c.RemoveAll? || (c.Install? && c.e.name == name) || (c.Remove? && c.name == name)
  }

  /** Operation `j` installed `fault` under the name, and nothing has touched the name since. */
  predicate Installed<T(==)>(ops: seq<Operation>, on: Operation -> Change<T>, j: nat, name: string, fault: T) {
    && j < |ops| && on(ops[j]) == Install(Entry(name, fault))
    && forall m :: j < m < |ops| ==> !Touches(on(ops[m]), name)
  }

  lemma {:induction false} LatestWasInstalled<T>(ops: seq<Operation>, on: Operation -> Change<T>, name: string, fault: T)
    ensures Latest(ops, on, name) == Some(fault) <==> exists j: nat :: Installed(ops, on, j, name, fault)
  {
    if ops != [] {
      var n := |ops| - 1;
      LatestWasInstalled(ops[..n], on, name, fault);
      if Touches(on(ops[n]), name) {
        if on(ops[n]) == Install(Entry(name, fault)) {
          assert Installed(ops, on, n, name, fault);
        } else {
          assert forall j: nat :: Installed(ops, on, j, name, fault) ==> j == n;
        }
      } else {
        forall j: nat
          ensures Installed(ops, on, j, name, fault) <==> Installed(ops[..n], on, j, name, fault)
        {
          assert Installed(ops[..n], on, j, name, fault) ==> forall m :: j < m < n ==> ops[..n][m] == ops[m];
          assert Installed(ops, on, j, name, fault) ==> j != n;
        }
      }
    }
  }

  /** The name is in use exactly when some registration of it still stands, and only one can. */
  lemma {:induction false} OneInstance<T>(ops: seq<Operation>, on: Operation -> Change<T>, name: string)
    ensures Latest(ops, on, name).Some? <==> exists j: nat, fault: T :: Installed(ops, on, j, name, fault)
    ensures forall j: nat, k: nat, x: T, y: T :: Installed(ops, on, j, name, x) && Installed(ops, on, k, name, y) ==> j == k
  {
    var found := Latest(ops, on, name);
    if found.Some? {
      LatestWasInstalled(ops, on, name, found.value);
    }
    forall j: nat, fault: T | Installed(ops, on, j, name, fault)
      ensures found == Some(fault)
    {
      LatestWasInstalled(ops, on, name, fault);
    }
  }

  /** A timer armed by the registration at `i` unregisters by name when it fires, whatever stands under
      the name by then.  It finds another instance than its own in that list exactly when one was
      registered there later and still stands, even one with the same parameters. */
  lemma {:induction false} TimerFinds<T>(ops: seq<Operation>, on: Operation -> Change<T>, i: nat, e: Entry<T>)
    requires i < |ops| && on(ops[i]) == Install(e)
    ensures Latest(ops, on, e.name).Some? && !Installed(ops, on, i, e.name, e.fault) <==>
            exists j: nat, other: T :: i < j && Installed(ops, on, j, e.name, other)
  {
    hide Latest;
    OneInstance(ops, on, e.name);
    assert Touches(on(ops[i]), e.name);
    if Latest(ops, on, e.name).Some? {
      var j: nat, fault: T :| Installed(ops, on, j, e.name, fault);
      assert i <= j;
    }
  }

  /** When the timer of a connection fault fires, the name is gone from all four lists.  It has taken
      another instance with it exactly when a connection fault was registered under the name later and
      still stood, or when a fault of another list stood under the name. */
  lemma {:induction false} ExpiryLaw(ops: seq<Operation>, i: nat, e: Entry<Fault>)
    requires i < |ops| && ops[i] == RegisterConn(e)
    ensures !Present(PerformAll(ops + [Unregister(e.name)]), e.name)
    ensures var s := PerformAll(ops);
            && (Has(s.conn, e.name) && !Installed(ops, OnConn, i, e.name, e.fault) <==>
                 exists j: nat, other: Fault :: i < j && Installed(ops, OnConn, j, e.name, other))
            && (Has(s.packet, e.name) <==> exists j: nat, p: nat :: Installed(ops, OnPacket, j, e.name, p))
            && (Has(s.dial, e.name) <==> exists j: nat, d: nat :: Installed(ops, OnDial, j, e.name, d))
            && (Has(s.hooks, e.name) <==> exists j: nat, h: nat :: Installed(ops, OnHooks, j, e.name, h))
  {
    hide Lookup, Latest, AllUnique, Has, Installed, Touches, PerformAll;
    var s := PerformAll(ops);
    RegistryIsAMap(ops, e.name);
    LookupHas(s.conn, e.name);
    LookupHas(s.packet, e.name);
    LookupHas(s.dial, e.name);
    LookupHas(s.hooks, e.name);
    TimerFinds(ops, OnConn, i, e);
    OneInstance(ops, OnPacket, e.name);
    OneInstance(ops, OnDial, e.name);
    OneInstance(ops, OnHooks, e.name);
    RemovalIsComplete(ops, e.name);
  }

  lemma {:induction false} RemovalIsComplete(ops: seq<Operation>, name: string)
    ensures !Present(PerformAll(ops + [Unregister(name)]), name)
  {
    hide Has, Without;
    var s := PerformAll(ops);
    assert (ops + [Unregister(name)])[..|ops|] == ops;
    WithoutLaws(s.conn, name);
    WithoutLaws(s.packet, name);
    WithoutLaws(s.dial, name);
    WithoutLaws(s.hooks, name);
  }

  /** Injecting the same latency again to extend its window: the first timer ends the second instance. */
  lemma {:induction false} ExpiryEndsExtension(delay: int)
    ensures var e := Entry("latency", Latency(delay));
            var ops := [RegisterConn(e), RegisterConn(e)];
            && Installed(ops, OnConn, 1, e.name, e.fault) && !Installed(ops, OnConn, 0, e.name, e.fault)
            && Has(PerformAll(ops).conn, e.name) && !Present(PerformAll(ops + [Unregister(e.name)]), e.name)
  {
    hide PerformAll, Has, Present;
    var e := Entry("latency", Latency(delay));
    var ops := [RegisterConn(e), RegisterConn(e)];
    assert Touches(OnConn(ops[1]), e.name);
    assert Installed(ops, OnConn, 1, e.name, e.fault);
    ExpiryLaw(ops, 0, e);
  }

  // ------------------------------------------------------------------
  // The registry in place

  class Registry {
    var gen: nat
    var connFaults: seq<Entry<Fault>>
    var packetFaults: seq<Entry<nat>>
    var dialFaults: seq<Entry<nat>>
    var readHooks: seq<Entry<nat>>

    /** The stop channel of every running ticker; channels are numbered as they are made. */
    var tickers: map<string, nat>
    var channels: nat
    ghost var closed: set<nat>

    ghost function View(): State
      reads this
    {
      State(gen, connFaults, packetFaults, dialFaults, readHooks)
    }

    ghost predicate ChannelsOk()
      reads this
    {
      && (forall n <- tickers :: tickers[n] < channels && tickers[n] !in closed)
      && (forall m <- tickers, n <- tickers :: tickers[m] == tickers[n] ==> m == n)
      && (forall c <- closed :: c < channels)
    }

    /** Unique names, and live tickers for exactly the time-varying connection faults. */
    ghost predicate Valid()
      reads this
    {
      AllUnique(View()) && ChannelsOk() && tickers.Keys == Ticking(connFaults)
    }

    constructor ()
      ensures Valid() && View() == State(0, [], [], [], [])
    {
      gen := 0;
      connFaults, packetFaults, dialFaults, readHooks := [], [], [], [];
      tickers, channels, closed := map[], 0, {};
    }

    /** Closing a closed channel panics. */
    method CloseChannel(channel: nat)
      requires channel !in closed
      modifies `closed
      ensures closed == old(closed) + {channel}
    {
      closed := closed + {channel};
    }

    method StopTicker(name: string)
      requires ChannelsOk()
      modifies `tickers, `closed
      ensures ChannelsOk() && tickers == old(tickers) - {name}
    {
      if name in tickers {
        CloseChannel(tickers[name]);
        tickers := tickers - {name};
      }
      assert tickers == old(tickers) - {name};
    }

    method StartTicker(name: string)
      requires ChannelsOk() && name !in tickers
      modifies `tickers, `channels
      ensures ChannelsOk() && tickers == old(tickers)[name := old(channels)] && channels == old(channels) + 1
    {
      tickers := tickers[name := channels];
      channels := channels + 1;
    }

    static method ReplaceOrAppend<T>(list: seq<Entry<T>>, e: Entry<T>) returns (out: seq<Entry<T>>)
      ensures out == Put(list, e)
    {
      hide Put;
      assert list[0..] == list;
      for i := 0 to |list|
        invariant Put(list, e) == list[..i] + Put(list[i..], e)
      {
        PutStep(list, i, e);
        if list[i].name == e.name {
          return list[i := e];
        }
        assert list[..i + 1] == list[..i] + [list[i]];
      }
      PutLast(e);
      assert list[..|list|] == list && list[|list|..] == [];
      out := list + [e];
    }

    static method Filter<T>(list: seq<Entry<T>>, name: string, found: bool) returns (out: seq<Entry<T>>, found': bool)
      ensures out == Without(list, name)
      ensures found' <==> found || Has(list, name)
    {
      out, found' := [], found;
      for i := 0 to |list|
        invariant out == Without(list[..i], name)
        invariant found' <==> found || Has(list[..i], name)
      {
        assert list[..i + 1][..i] == list[..i] && list[..i + 1] == list[..i] + [list[i]];
        if list[i].name == name {
          found' := true;
        } else {
          out := out + [list[i]];
        }
      }
      assert list[..|list|] == list;
    }

    method RegisterConnFault(f: Entry<Fault>)
      requires Valid()
      modifies this
      ensures Valid() && View() == Perform(old(View()), RegisterConn(f))
      ensures var others := old(tickers) - {f.name};
              tickers == if f.fault.Latency? || f.fault.Loss? then others[f.name := old(channels)] else others
    {
      hide Put, Ticking, Unique, Names, Lookup;
      StopTicker(f.name);
      TickingAfterPut(connFaults, f);
      PutLaws(connFaults, f, f.name);
      connFaults := ReplaceOrAppend(connFaults, f);
      gen := gen + 1;
      if TimeVarying(f.fault) {
        StartTicker(f.name);
      }
    }

    method RegisterPacketFault(p: Entry<nat>)
      requires Valid()
      modifies this
      ensures Valid() && View() == Perform(old(View()), RegisterPacket(p))
    {
      PutLaws(packetFaults, p, p.name);
      packetFaults := ReplaceOrAppend(packetFaults, p);
      gen := gen + 1;
    }

    method RegisterDialFault(d: Entry<nat>)
      requires Valid()
      modifies this
      ensures Valid() && View() == Perform(old(View()), RegisterDial(d))
    {
      PutLaws(dialFaults, d, d.name);
      dialFaults := ReplaceOrAppend(dialFaults, d);
      gen := gen + 1;
    }

    method RegisterReadHook(h: Entry<nat>)
      requires Valid()
      modifies this
      ensures Valid() && View() == Perform(old(View()), RegisterHook(h))
    {
      PutLaws(readHooks, h, h.name);
      readHooks := ReplaceOrAppend(readHooks, h);
      gen := gen + 1;
    }

    method UnregisterFault(name: string) returns (found: bool)
      requires Valid()
      modifies this
      ensures Valid() && View() == Perform(old(View()), Unregister(name))
      ensures found <==> Present(old(View()), name)
    {
      hide Without, Ticking, AllUnique, Has;
      PerformLaws(View(), Unregister(name));
      TickingAfterWithout(connFaults, name);
      found := false;
      connFaults, found := Filter(connFaults, name, found);
      packetFaults, found := Filter(packetFaults, name, found);
      dialFaults, found := Filter(dialFaults, name, found);
      readHooks, found := Filter(readHooks, name, found);
      StopTicker(name);
      if found {
        gen := gen + 1;
      }
    }

    method ClearAll()
      requires Valid()
      modifies this
      ensures Valid() && View() == Perform(old(View()), Clear) && tickers == map[]
    {
      connFaults, packetFaults, dialFaults, readHooks := [], [], [], [];
      while tickers != map[]
        invariant ChannelsOk() && View() == State(old(gen), [], [], [], [])
        decreases tickers.Keys
      {
        var name :| name in tickers;
        StopTicker(name);
      }
      gen := gen + 1;
    }

    method Get(name: string) returns (f: Option<Fault>)
      ensures f == Lookup(connFaults, name)
    {
      for i := 0 to |connFaults|
        invariant Lookup(connFaults, name) == Lookup(connFaults[i..], name)
      {
        if connFaults[i].name == name {
          return Some(connFaults[i].fault);
        }
        assert connFaults[i..][1..] == connFaults[i + 1..];
      }
      f := None;
    }

    /** Folds the connection faults over a raw connection: resets first, the rest in list order. */
    method Wrap(wasReset: bool, dir: Direction) returns (chain: Chain, atGen: nat)
      ensures chain == Fold(wasReset, Faults(connFaults), dir) && atGen == gen
    {
      hide ApplyFault, Pass;
      var faults := Faults(connFaults);
      chain := Raw(wasReset);
      PassNone(Raw(wasReset), true, dir);
      for i := 0 to |connFaults|
        invariant chain == Pass(Raw(wasReset), faults[..i], true, dir)
      {
        PassStep(Raw(wasReset), faults, i, true, dir);
        if connFaults[i].fault.Rst? {
          chain := ApplyFault(chain, connFaults[i].fault, dir);
        }
      }
      assert faults[..|faults|] == faults;
      ghost var first := chain;
      PassNone(first, false, dir);
      for i := 0 to |connFaults|
        invariant chain == Pass(first, faults[..i], false, dir)
      {
        PassStep(first, faults, i, false, dir);
        if !connFaults[i].fault.Rst? {
          chain := ApplyFault(chain, connFaults[i].fault, dir);
        }
      }
      atGen := gen;
    }
  }
}
