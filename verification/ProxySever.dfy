/** How a partition or a crash tears down live connections.

    Sessions, `SetPartitioned`/`SetCrashed` calls and severs interleave freely; a section that runs
    under one lock is one step.  A session tracks its connections before it re-checks the flags, and
    a call sets its flag before it severs, so no session slips through.
 */
module ProxySever {

  datatype Side = Client | Upstream

  /** A connection, named by its session and its side. */
  datatype Conn = Conn(session: nat, side: Side)

  datatype Flag = Partitioned | Crashed

  /** Where the goroutine running `handle` stands. */
  datatype Stage =
    | Arrived           // client connection open, first check of the accept loop ahead
    | Unflagged         // flags were clear, topology not yet looked at
    | Accepted          // allowed by the accept loop
    | Dialed            // upstream connection open as well
    | ClientTracked
    | BothTracked       // about to re-check
    | Rechecking        // flags were clear again, topology not yet looked at
    | Checked           // past the re-check, not yet counted as active
    | Running           // counted, pumping
    | Ended             // both pumps have ended, still counted
    | Leaving           // the other deferred calls run from here on
    | UpstreamUntracked
    | BothUntracked
    | UpstreamClosed
    | Done
  {
    predicate BeforeDial() {
      Arrived? || Unflagged? || Accepted?
    }

    predicate BeforeCheck() {
      BeforeDial() || Dialed? || ClientTracked? || BothTracked? || Rechecking?
    }

    predicate TracksUpstream() {
      BothTracked? || Rechecking? || Checked? || Active() || Leaving?
    }

    predicate TracksClient() {
      ClientTracked? || TracksUpstream() || UpstreamUntracked?
    }

    predicate Active() {
      Running? || Ended?
    }

    predicate Unwinds() {
      Leaving? || UpstreamUntracked? || BothUntracked? || UpstreamClosed?
    }
  }

  /** `passed` records that the re-check succeeded. */
  datatype Session = Session(stage: Stage, passed: bool)

  /** A call that sets a flag: the flag is set, then the tracked connections are severed. */
  datatype Call = Severing(flag: Flag) | Returned(flag: Flag)

  datatype Proxy = Proxy(
    flags: set<Flag>,
    reachable: bool,
    sessions: map<nat, Session>,
    conns: set<Conn>,
    open: set<Conn>,
    calls: map<nat, Call>,
    active: int)

  datatype Step =
    | Accept(id: nat)
    | Dial(id: nat)
    | DialFails(id: nat)
    | Track(id: nat)
    | ReadFlags(id: nat)
    | ReadTopology(id: nat)
    | CountIn(id: nat)
    | PumpsEnd(id: nat)
    | CountOut(id: nat)
    | Unwind(id: nat)
    | SetFlag(call: nat, flag: Flag)
    | SeverAndReturn(call: nat)
    | ClearFlags(cleared: set<Flag>)
    | Sever
    | TopologyChanges(reachable: bool)

  predicate At(p: Proxy, id: nat, stage: Stage) {
    id in p.sessions && p.sessions[id].stage == stage
  }

  function Move(p: Proxy, id: nat, stage: Stage): Proxy
    requires id in p.sessions
  {
    p.(sessions := p.sessions[id := p.sessions[id].(stage := stage)])
  }

  function Severed(p: Proxy): Proxy {
    p.(open := p.open - p.conns)
  }

  predicate Enabled(p: Proxy, s: Step) {
    match s
    case Accept(id) => id !in p.sessions
    case Dial(id) => At(p, id, Accepted)
    case DialFails(id) => At(p, id, Accepted)
    case Track(id) => At(p, id, Dialed) || At(p, id, ClientTracked)
    case ReadFlags(id) => At(p, id, Arrived) || At(p, id, BothTracked)
    case ReadTopology(id) => At(p, id, Unflagged) || At(p, id, Rechecking)
    case CountIn(id) => At(p, id, Checked)
    case PumpsEnd(id) => At(p, id, Running)
    case CountOut(id) => At(p, id, Ended)
    case Unwind(id) =>
      id in p.sessions && p.sessions[id].stage.Unwinds()
    case SetFlag(call, _) => call !in p.calls
    case SeverAndReturn(call) => call in p.calls && p.calls[call].Severing?
    case _ => true
  }

  /** The deferred calls, last first: untrack upstream and client, close upstream and client. */
  function UnwindOne(p: Proxy, id: nat): Proxy
    requires id in p.sessions
  {
    match p.sessions[id].stage
    case Leaving => Move(p, id, UpstreamUntracked).(conns := p.conns - {Conn(id, Upstream)})
    case UpstreamUntracked => Move(p, id, BothUntracked).(conns := p.conns - {Conn(id, Client)})
    case BothUntracked => Move(p, id, UpstreamClosed).(open := p.open - {Conn(id, Upstream)})
    case _ => Move(p, id, Done).(open := p.open - {Conn(id, Client)})
  }

  function Next(p: Proxy, s: Step): Proxy
    requires Enabled(p, s)
  {
    match s
    case Accept(id) =>
      p.(sessions := p.sessions[id := Session(Arrived, false)], open := p.open + {Conn(id, Client)})
    case Dial(id) => Move(p, id, Dialed).(open := p.open + {Conn(id, Upstream)})
    case DialFails(id) => Move(p, id, UpstreamClosed)
    case Track(id) =>
      if At(p, id, Dialed) then Move(p, id, ClientTracked).(conns := p.conns + {Conn(id, Client)})
      else Move(p, id, BothTracked).(conns := p.conns + {Conn(id, Upstream)})
    case ReadFlags(id) =>
      if At(p, id, Arrived) then Move(p, id, if p.flags == {} then Unflagged else UpstreamClosed)
      else Move(p, id, if p.flags == {} then Rechecking else Leaving)
    case ReadTopology(id) =>
      if At(p, id, Unflagged) then Move(p, id, if p.reachable then Accepted else UpstreamClosed)
      else if p.reachable then p.(sessions := p.sessions[id := Session(Checked, true)])
      else Move(p, id, Leaving)
    case CountIn(id) => Move(p, id, Running).(active := p.active + 1)
    case PumpsEnd(id) => Move(p, id, Ended)
    case CountOut(id) => Move(p, id, Leaving).(active := p.active - 1)
    case Unwind(id) => UnwindOne(p, id)
    case SetFlag(call, flag) => p.(flags := p.flags + {flag}, calls := p.calls[call := Severing(flag)])
    case SeverAndReturn(call) => Severed(p).(calls := p.calls[call := Returned(p.calls[call].flag)])
    case ClearFlags(cleared) => p.(flags := p.flags - cleared)
    case Sever => Severed(p)
    case TopologyChanges(reachable) => p.(reachable := reachable)
  }

  const IDLE := Proxy({}, true, map[], {}, {}, map[], 0)

  ghost predicate IsRun(ps: seq<Proxy>, ss: seq<Step>) {
    && |ps| == |ss| + 1
    && ps[0] == IDLE
    && forall k {:trigger ss[k]} :: 0 <= k < |ss| ==> Enabled(ps[k], ss[k]) && ps[k + 1] == Next(ps[k], ss[k])
  }

  // ------------------------------------------------------------------
  // What every step keeps

  /** What a session at a given stage holds. */
  ghost predicate Holds(p: Proxy, id: nat)
    requires id in p.sessions
  {
    var Session(stage, passed) := p.sessions[id];
    var client, upstream := Conn(id, Client), Conn(id, Upstream);
    && (passed ==> !stage.BeforeCheck())
    && (stage.Checked? || stage.Active() ==> passed)
    && (client in p.conns <==> stage.TracksClient())
    && (upstream in p.conns <==> stage.TracksUpstream())
    && (client in p.open ==> !stage.Done?)
    && (upstream in p.open ==> !stage.BeforeDial() && !stage.UpstreamClosed? && !stage.Done?)
  }

  /** The sessions between their two visits to the counter. */
  function Counted(p: Proxy): set<nat> {
    set id | id in p.sessions && p.sessions[id].stage.Active()
  }

  ghost predicate Consistent(p: Proxy) {
    && (forall id <- p.sessions :: Holds(p, id))
    && (forall c <- p.conns + p.open :: c.session in p.sessions)
    && p.active == |Counted(p)|
  }

  /** The session a step belongs to, if any. */
  predicate StepOf(s: Step, id: nat) {
    match s
    case Accept(i) => i == id
    case Dial(i) => i == id
    case DialFails(i) => i == id
    case Track(i) => i == id
    case ReadFlags(i) => i == id
    case ReadTopology(i) => i == id
    case CountIn(i) => i == id
    case PumpsEnd(i) => i == id
    case CountOut(i) => i == id
    case Unwind(i) => i == id
    case _ => false
  }

  /** Other steps leave a session alone, except that a sever may close its connections. */
  lemma OtherStepKeepsHolds(p: Proxy, s: Step, id: nat)
    requires Enabled(p, s) && id in p.sessions && Holds(p, id) && !StepOf(s, id)
    ensures id in Next(p, s).sessions && Holds(Next(p, s), id)
  {
    var q := Next(p, s);
    assert q.sessions[id] == p.sessions[id];
    forall side
      ensures Conn(id, side) in q.conns <==> Conn(id, side) in p.conns
      ensures Conn(id, side) in q.open ==> Conn(id, side) in p.open
    {
    }
  }

  lemma UnwindKeepsHolds(p: Proxy, id: nat)
    requires id in p.sessions && p.sessions[id].stage.Unwinds() && Holds(p, id)
    ensures Holds(UnwindOne(p, id), id)
  {
  }

  lemma NextKeepsHolds(p: Proxy, s: Step, id: nat)
    requires Enabled(p, s) && id in Next(p, s).sessions
    requires id in p.sessions ==> Holds(p, id)
    requires id !in p.sessions ==> forall c <- p.conns + p.open :: c.session != id
    ensures Holds(Next(p, s), id)
  {
    hide UnwindOne;
    if s == Unwind(id) {
      UnwindKeepsHolds(p, id);
    } else if !StepOf(s, id) {
      assert id in p.sessions by {
        if s.Unwind? {
          UnwindKeepsSessions(p, s.id);
        }
      }
      OtherStepKeepsHolds(p, s, id);
    }
  }

  lemma UnwindKeepsSessions(p: Proxy, id: nat)
    requires id in p.sessions
    ensures UnwindOne(p, id).sessions.Keys == p.sessions.Keys
  {
  }

  lemma NextKeepsOwners(p: Proxy, s: Step)
    requires Enabled(p, s) && forall c <- p.conns + p.open :: c.session in p.sessions
    ensures var q := Next(p, s); forall c <- q.conns + q.open :: c.session in q.sessions
  {
  }

  lemma NextActive(p: Proxy, s: Step)
    requires Enabled(p, s)
    ensures Next(p, s).active == p.active + if s.CountIn? then 1 else if s.CountOut? then -1 else 0
  {
  }

  /** Only the two visits to the counter change who is counted. */
  lemma NextCounted(p: Proxy, s: Step, id: nat)
    requires Enabled(p, s)
    ensures id in Counted(Next(p, s)) <==>
            (s.CountIn? && id == s.id) || (id in Counted(p) && !(s.CountOut? && id == s.id))
    ensures s.CountIn? ==> s.id !in Counted(p)
    ensures s.CountOut? ==> s.id in Counted(p)
  {
  }

  lemma NextKeepsCount(p: Proxy, s: Step)
    requires Enabled(p, s) && p.active == |Counted(p)|
    ensures Next(p, s).active == |Counted(Next(p, s))|
  {
    hide Next, Counted, Enabled;
    NextActive(p, s);
    forall id
      ensures id in Counted(Next(p, s)) <==>
              (s.CountIn? && id == s.id) || (id in Counted(p) && !(s.CountOut? && id == s.id))
    {
      NextCounted(p, s, id);
    }
    var q := Counted(Next(p, s));
    if s.CountIn? {
      NextCounted(p, s, s.id);
      assert q == Counted(p) + {s.id};
    } else if s.CountOut? {
      NextCounted(p, s, s.id);
      assert q == Counted(p) - {s.id};
    } else {
      assert q == Counted(p);
    }
  }

  lemma IdleIsConsistent()
    ensures Consistent(IDLE)
  {
    assert Counted(IDLE) == {};
  }

  lemma {:induction false} RunIsConsistent(ps: seq<Proxy>, ss: seq<Step>, k: nat)
    requires IsRun(ps, ss) && k <= |ss|
    ensures Consistent(ps[k])
  {
    hide Next, Holds, Counted;
    if k > 0 {
      RunIsConsistent(ps, ss, k - 1);
      var p, s := ps[k - 1], ss[k - 1];
      forall id | id in Next(p, s).sessions
        ensures Holds(Next(p, s), id)
      {
        NextKeepsHolds(p, s, id);
      }
      NextKeepsCount(p, s);
      NextKeepsOwners(p, s);
    } else {
      IdleIsConsistent();
    }
  }

  // ------------------------------------------------------------------
  // Nothing slips through

  /** No session that has found the flags clear on its re-check has an open tracked connection. */
  ghost predicate TornDown(p: Proxy) {
    forall c <- p.conns * p.open ::
      c.session in p.sessions && !p.sessions[c.session].passed && !p.sessions[c.session].stage.Rechecking?
  }

  /** A connection becomes both tracked and open only when its session tracks it. */
  lemma {:induction false} OnlyTrackingExposes(p: Proxy, s: Step, c: Conn)
    requires Consistent(p) && Enabled(p, s) && c in Next(p, s).conns * Next(p, s).open
    ensures c.session in p.sessions
    ensures c in p.conns * p.open || s == Track(c.session)
  {
    if c.session in p.sessions {
      assert Holds(p, c.session);
    }
  }

  /** While a flag is set, no session gets past the first half of the re-check. */
  lemma {:induction false} FlagStopsRecheck(p: Proxy, s: Step, id: nat)
    requires Enabled(p, s) && p.flags != {} && id in p.sessions
    requires !p.sessions[id].passed && !p.sessions[id].stage.Rechecking?
    ensures var q := Next(p, s); id in q.sessions && !q.sessions[id].passed && !q.sessions[id].stage.Rechecking?
  {
  }

  /** While the flag stays set no session passes the re-check, so what is torn down stays so. */
  lemma {:induction false} NextKeepsTornDown(p: Proxy, s: Step, flag: Flag)
    requires Consistent(p) && Enabled(p, s) && flag in p.flags && TornDown(p)
    ensures TornDown(Next(p, s))
  {
    hide Next;
    var q := Next(p, s);
    forall c | c in q.conns * q.open
      ensures c.session in q.sessions && !q.sessions[c.session].passed && !q.sessions[c.session].stage.Rechecking?
    {
      OnlyTrackingExposes(p, s, c);
      if s == Track(c.session) {
        assert Holds(p, c.session);
      }
      FlagStopsRecheck(p, s, c.session);
    }
  }

  lemma CallBegins(p: Proxy, x: nat, flag: Flag)
    requires Enabled(p, SetFlag(x, flag))
    ensures var q := Next(p, SetFlag(x, flag)); x in q.calls && q.calls[x] == Severing(flag)
  {
  }

  /** A call returns only by severing. */
  lemma NextKeepsCall(p: Proxy, s: Step, x: nat)
    requires Enabled(p, s) && x in p.calls
    ensures var q := Next(p, s);
            && x in q.calls && q.calls[x].flag == p.calls[x].flag
            && (q.calls[x].Returned? ==> p.calls[x].Returned? || TornDown(q))
  {
    var q := Next(p, s);
    if s == SeverAndReturn(x) {
      assert q.conns * q.open == {};
    }
  }

  /** From the moment call `x` sets its flag: until it returns it is severing, afterwards
      everything stays torn down as long as the flag stays set. */
  lemma {:induction false} CallTearsDown(ps: seq<Proxy>, ss: seq<Step>, i: nat, k: nat, x: nat, flag: Flag)
    requires IsRun(ps, ss) && i < k <= |ss| && ss[i] == SetFlag(x, flag)
    requires forall j {:trigger ps[j]} :: i < j <= k ==> flag in ps[j].flags
    ensures x in ps[k].calls && ps[k].calls[x].flag == flag
    ensures ps[k].calls[x].Returned? ==> TornDown(ps[k])
  {
    hide Next, Consistent, TornDown;
    RunIsConsistent(ps, ss, k - 1);
    var p, s := ps[k - 1], ss[k - 1];
    assert ps[k] == Next(p, s);
    if k - 1 == i {
      CallBegins(p, x, flag);
    } else {
      CallTearsDown(ps, ss, i, k - 1, x, flag);
      assert flag in ps[k - 1].flags;
      NextKeepsCall(p, s, x);
      if p.calls[x].Returned? {
        NextKeepsTornDown(p, s, flag);
      }
    }
  }

  /** In every interleaving: once a call that sets a flag has returned and the flag has stayed set,
      no session past the re-check has an open tracked connection, and a session that is about to
      pump, pumping or just done has lost both its connections. */
  lemma SeverIsComplete(ps: seq<Proxy>, ss: seq<Step>, i: nat, k: nat, x: nat, flag: Flag, id: nat)
    requires IsRun(ps, ss) && i < k <= |ss| && ss[i] == SetFlag(x, flag)
    requires forall j {:trigger ps[j]} :: i < j <= k ==> flag in ps[j].flags
    requires x in ps[k].calls && ps[k].calls[x].Returned?
    requires id in ps[k].sessions && ps[k].sessions[id].passed
    ensures forall side :: Conn(id, side) in ps[k].conns ==> Conn(id, side) !in ps[k].open
    ensures ps[k].sessions[id].stage.Checked? || ps[k].sessions[id].stage.Active() ==>
              Conn(id, Client) !in ps[k].open && Conn(id, Upstream) !in ps[k].open
  {
    CallTearsDown(ps, ss, i, k, x, flag);
    RunIsConsistent(ps, ss, k);
    assert Holds(ps[k], id);
    forall side | Conn(id, side) in ps[k].conns
      ensures Conn(id, side) !in ps[k].open
    {
      assert Conn(id, side) !in ps[k].conns * ps[k].open;
    }
  }

  /** A finished session leaves nothing behind, and `active` counts the sessions that pump: all that
      have passed the re-check and not begun to leave, but for those on their way to the counter. */
  lemma NothingLeaks(ps: seq<Proxy>, ss: seq<Step>, k: nat, id: nat, side: Side)
    requires IsRun(ps, ss) && k <= |ss|
    ensures At(ps[k], id, Done) ==> Conn(id, side) !in ps[k].conns && Conn(id, side) !in ps[k].open
    ensures ps[k].active == |Counted(ps[k])|
    ensures id in Counted(ps[k]) ==> ps[k].sessions[id].passed
  {
    RunIsConsistent(ps, ss, k);
    if id in ps[k].sessions {
      assert Holds(ps[k], id);
    }
  }

  // ------------------------------------------------------------------
  // Who gets through

  /** While the topology cuts the link, the accept loop lets nobody in and nobody passes the re-check. */
  lemma {:induction false} TopologyRefuses(p: Proxy, s: Step, id: nat)
    requires Enabled(p, s) && id in p.sessions && !p.reachable
    ensures var a, b := p.sessions[id], Next(p, s).sessions[id];
            (a.passed <==> b.passed) && (a.stage.Unflagged? ==> !b.stage.Accepted?)
  {
  }

  /** While a flag is set, nobody gets past the first half of either check. */
  lemma {:induction false} FlagRefuses(p: Proxy, s: Step, id: nat)
    requires Enabled(p, s) && id in p.sessions && p.flags != {}
    ensures var a, b := p.sessions[id].stage, Next(p, s).sessions[id].stage;
            (a.Arrived? ==> !b.Unflagged?) && (a.BothTracked? ==> !b.Rechecking?)
  {
  }

  /** A session that has been refused, or will be if the topology stays cut or, otherwise, a flag set. */
  predicate Refused(p: Proxy, id: nat, byTopology: bool) {
    && id in p.sessions && !p.sessions[id].passed
    && var stage := p.sessions[id].stage;
       stage.Arrived? || stage.UpstreamClosed? || stage.Done? || (stage.Unflagged? && byTopology)
  }

  predicate Refuses(p: Proxy, byTopology: bool) {
    if byTopology then !p.reachable else p.flags != {}
  }

  lemma {:induction false} StaysRefused(p: Proxy, s: Step, id: nat, byTopology: bool)
    requires Enabled(p, s) && Refused(p, id, byTopology) && Refuses(p, byTopology)
    ensures Refused(Next(p, s), id, byTopology)
  {
  }

  /** A session that arrives while the topology stays cut, or while some flag stays set, never dials: its
      upstream connection is never open, it is never counted, and it never passes. */
  lemma {:induction false} RefusedNeverDials(ps: seq<Proxy>, ss: seq<Step>, i: nat, k: nat, id: nat, byTopology: bool)
    requires IsRun(ps, ss) && i < k <= |ss| && ss[i] == Accept(id)
    requires forall j {:trigger ps[j]} :: i < j <= k ==> Refuses(ps[j], byTopology)
    ensures Refused(ps[k], id, byTopology) && Conn(id, Upstream) !in ps[k].open && id !in Counted(ps[k])
  {
    hide Next;
    var p, s := ps[k - 1], ss[k - 1];
    assert ps[k] == Next(p, s);
    if i == k - 1 {
      Arrives(p, id);
    } else {
      RefusedNeverDials(ps, ss, i, k - 1, id, byTopology);
      assert Refuses(ps[k - 1], byTopology);
      StaysRefused(p, s, id, byTopology);
    }
    RunIsConsistent(ps, ss, k);
    assert Holds(ps[k], id);
  }

  lemma Arrives(p: Proxy, id: nat)
    requires Enabled(p, Accept(id))
    ensures var q := Next(p, Accept(id)); id in q.sessions && q.sessions[id] == Session(Arrived, false)
  {
  }

  /** These steps are possible one after the other and lead from `p` to `q`. */
  ghost predicate Leads(p: Proxy, steps: seq<Step>, q: Proxy)
    decreases |steps|
  {
    if steps == [] then q == p else Enabled(p, steps[0]) && Leads(Next(p, steps[0]), steps[1..], q)
  }

  lemma LeadsOn(p: Proxy, s: Step, rest: seq<Step>, q: Proxy)
    requires Enabled(p, s) && Leads(Next(p, s), rest, q)
    ensures Leads(p, [s] + rest, q)
  {
    assert ([s] + rest)[1..] == rest;
  }

  lemma {:induction false} LeadsConcat(p: Proxy, xs: seq<Step>, q: Proxy, ys: seq<Step>, r: Proxy)
    requires Leads(p, xs, q) && Leads(q, ys, r)
    ensures Leads(p, xs + ys, r)
    decreases |xs|
  {
    hide Next, Enabled;
    if xs == [] {
      assert xs + ys == ys;
    } else {
      LeadsConcat(Next(p, xs[0]), xs[1..], q, ys, r);
      assert (xs + ys)[0] == xs[0] && (xs + ys)[1..] == xs[1..] + ys;
    }
  }

  function DialSteps(id: nat): seq<Step> {
    [ReadFlags(id)] + ([ReadTopology(id)] + ([Dial(id)] + ([Track(id)] + ([Track(id)] + []))))
  }

  function RecheckSteps(id: nat): seq<Step> {
    [ReadFlags(id)] + ([ReadTopology(id)] + ([CountIn(id)] + []))
  }

  function EntrySteps(id: nat): seq<Step> {
    [Accept(id)] + (DialSteps(id) + RecheckSteps(id))
  }

  /** The session at its next stage on the way in. */
  lemma {:induction false} EntryStep(p: Proxy, id: nat, stage: Stage, s: Step, next: Stage)
    requires At(p, id, stage) && p.flags == {} && p.reachable && p.sessions[id].passed == stage.Checked?
    requires || (stage.Arrived? && s == ReadFlags(id) && next.Unflagged?)
             || (stage.Unflagged? && s == ReadTopology(id) && next.Accepted?)
             || (stage.Accepted? && s == Dial(id) && next.Dialed?)
             || (stage.Dialed? && s == Track(id) && next.ClientTracked?)
             || (stage.ClientTracked? && s == Track(id) && next.BothTracked?)
             || (stage.BothTracked? && s == ReadFlags(id) && next.Rechecking?)
             || (stage.Rechecking? && s == ReadTopology(id) && next.Checked?)
             || (stage.Checked? && s == CountIn(id) && next.Running?)
    ensures Enabled(p, s)
    ensures var q := Next(p, s);
            && At(q, id, next) && q.flags == {} && q.reachable
            && q.sessions[id].passed == (next.Checked? || next.Running?)
            && q.open == p.open + (if s.Dial? then {Conn(id, Upstream)} else {})
            && q.conns == p.conns + (if stage.Dialed? then {Conn(id, Client)} else if stage.ClientTracked? then {Conn(id, Upstream)} else {})
            && q.active == p.active + if s.CountIn? then 1 else 0
  {
  }

  /** With the flags clear and the link there, a new session gets in: it ends up pumping, counted, with
      both its connections open and tracked, and nothing else has changed hands. */
  lemma {:induction false} AllowedSessionRuns(p: Proxy, id: nat) returns (q: Proxy)
    requires id !in p.sessions && p.flags == {} && p.reachable
    ensures Leads(p, EntrySteps(id), q) && At(q, id, Running) && q.sessions[id].passed
    ensures q.open == p.open + {Conn(id, Client), Conn(id, Upstream)} && q.conns == p.conns + {Conn(id, Client), Conn(id, Upstream)}
    ensures q.active == p.active + 1
  {
    var a := Next(p, Accept(id));
    assert At(a, id, Arrived) && !a.sessions[id].passed && a.flags == {} && a.reachable && a.open == p.open + {Conn(id, Client)};
    assert a.conns == p.conns && a.active == p.active && Enabled(p, Accept(id));
    hide Next, Enabled, Leads;
    var mid := Dials(a, id);
    q := PassesRecheck(mid, id);
    LeadsConcat(a, DialSteps(id), mid, RecheckSteps(id), q);
    LeadsOn(p, Accept(id), DialSteps(id) + RecheckSteps(id), q);
  }

  lemma {:induction false} Dials(a: Proxy, id: nat) returns (q: Proxy)
    requires At(a, id, Arrived) && a.flags == {} && a.reachable && !a.sessions[id].passed
    ensures Leads(a, DialSteps(id), q) && At(q, id, BothTracked) && !q.sessions[id].passed && q.flags == {} && q.reachable
    ensures q.active == a.active && q.open == a.open + {Conn(id, Upstream)}
    ensures q.conns == a.conns + {Conn(id, Client), Conn(id, Upstream)}
  {
    hide Next, Enabled, Leads;
    EntryStep(a, id, Arrived, ReadFlags(id), Unflagged);
    var b := Next(a, ReadFlags(id));
    EntryStep(b, id, Unflagged, ReadTopology(id), Accepted);
    var c := Next(b, ReadTopology(id));
    EntryStep(c, id, Accepted, Dial(id), Dialed);
    var d := Next(c, Dial(id));
    EntryStep(d, id, Dialed, Track(id), ClientTracked);
    var e := Next(d, Track(id));
    EntryStep(e, id, ClientTracked, Track(id), BothTracked);
    q := Next(e, Track(id));
    LeadsNowhere(q);
    LeadsOn(e, Track(id), [], q);
    LeadsOn(d, Track(id), [Track(id)] + [], q);
    LeadsOn(c, Dial(id), [Track(id)] + ([Track(id)] + []), q);
    LeadsOn(b, ReadTopology(id), [Dial(id)] + ([Track(id)] + ([Track(id)] + [])), q);
    LeadsOn(a, ReadFlags(id), [ReadTopology(id)] + ([Dial(id)] + ([Track(id)] + ([Track(id)] + []))), q);
  }

  lemma {:induction false} PassesRecheck(a: Proxy, id: nat) returns (q: Proxy)
    requires At(a, id, BothTracked) && a.flags == {} && a.reachable && !a.sessions[id].passed
    ensures Leads(a, RecheckSteps(id), q) && At(q, id, Running) && q.sessions[id].passed
    ensures q.active == a.active + 1 && q.open == a.open && q.conns == a.conns
  {
    hide Next, Enabled, Leads;
    EntryStep(a, id, BothTracked, ReadFlags(id), Rechecking);
    var b := Next(a, ReadFlags(id));
    EntryStep(b, id, Rechecking, ReadTopology(id), Checked);
    var c := Next(b, ReadTopology(id));
    EntryStep(c, id, Checked, CountIn(id), Running);
    q := Next(c, CountIn(id));
    LeadsNowhere(q);
    LeadsOn(c, CountIn(id), [], q);
    LeadsOn(b, ReadTopology(id), [CountIn(id)] + [], q);
    LeadsOn(a, ReadFlags(id), [ReadTopology(id)] + ([CountIn(id)] + []), q);
  }

  lemma LeadsNowhere(p: Proxy)
    ensures Leads(p, [], p)
  {
  }

  /** How far a session has come. */
  function Rank(stage: Stage): nat {
    match stage
    case Arrived => 0 case Unflagged => 1 case Accepted => 2 case Dialed => 3 case ClientTracked => 4
    case BothTracked => 5 case Rechecking => 6 case Checked => 7 case Running => 8 case Ended => 9
    case Leaving => 10 case UpstreamUntracked => 11 case BothUntracked => 12 case UpstreamClosed => 13 case Done => 14
  }

  function OwnStep(stage: Stage, id: nat): Step {
    if stage.Arrived? || stage.BothTracked? then ReadFlags(id)
    else if stage.Unflagged? || stage.Rechecking? then ReadTopology(id)
    else if stage.Accepted? then Dial(id)
    else if stage.Dialed? || stage.ClientTracked? then Track(id)
    else if stage.Checked? then CountIn(id)
    else if stage.Running? then PumpsEnd(id)
    else if stage.Ended? then CountOut(id)
    else Unwind(id)
  }

  lemma {:induction false} CanGoOn(p: Proxy, id: nat)
    requires id in p.sessions && !p.sessions[id].stage.Done?
    ensures var s := OwnStep(p.sessions[id].stage, id); Enabled(p, s) && StepOf(s, id)
  {
  }

  lemma {:induction false} OwnStepAdvances(p: Proxy, s: Step, id: nat)
    requires id in p.sessions && Enabled(p, s) && StepOf(s, id)
    ensures id in Next(p, s).sessions && Rank(Next(p, s).sessions[id].stage) > Rank(p.sessions[id].stage)
  {
    if s.Unwind? {
      assert s.id == id;
    }
  }

  lemma {:induction false} OtherStepLeaves(p: Proxy, s: Step, id: nat)
    requires id in p.sessions && Enabled(p, s) && !StepOf(s, id)
    ensures id in Next(p, s).sessions && Next(p, s).sessions[id] == p.sessions[id]
  {
  }

  /** A session that is not done can always go on, each of its own steps brings it further, and no other
      step moves it: it is done after at most fourteen steps of its own. */
  lemma {:induction false} SessionsEnd(p: Proxy, s: Step, id: nat)
    requires id in p.sessions && Enabled(p, s)
    ensures var stage := p.sessions[id].stage;
            && (!stage.Done? ==> Enabled(p, OwnStep(stage, id)) && StepOf(OwnStep(stage, id), id))
            && id in Next(p, s).sessions
            && (if StepOf(s, id) then Rank(Next(p, s).sessions[id].stage) > Rank(stage) else Next(p, s).sessions[id] == p.sessions[id])
  {
    hide Enabled, Next, Rank, StepOf, OwnStep;
    if !p.sessions[id].stage.Done? {
      CanGoOn(p, id);
    }
    if StepOf(s, id) {
      OwnStepAdvances(p, s, id);
    } else {
      OtherStepLeaves(p, s, id);
    }
  }

  // ------------------------------------------------------------------
  // The flags and the table of live connections, in place

  datatype Table = Table(flags: set<Flag>, conns: set<Conn>, open: set<Conn>) {
    function Cut(): Table {
      this.(open := open - conns)
    }

    /** Setting a flag severs, clearing it does not. */
    function Flagged(flag: Flag, v: bool): Table {
      if v then this.(flags := flags + {flag}).Cut() else this.(flags := flags - {flag})
    }
  }

  function TableOf(p: Proxy): Table {
    Table(p.flags, p.conns, p.open)
  }

  /** A sever closes what is tracked, and nothing else. */
  lemma SeverClosesTracked(p: Proxy, s: Step, c: Conn)
    requires Enabled(p, s) && (s.Sever? || s.SeverAndReturn?)
    ensures c in Next(p, s).open <==> c in p.open && c !in p.conns
    ensures Next(p, s).sessions == p.sessions && Next(p, s).conns == p.conns
  {
  }

  /** What the steps of the protocol do to the table, in the terms of the methods below. */
  lemma StepsOnTable(p: Proxy, s: Step)
    requires Enabled(p, s)
    ensures var t, t' := TableOf(p), TableOf(Next(p, s));
            match s
            case Track(id) => t' == t.(conns := t.conns + {Conn(id, if At(p, id, Dialed) then Client else Upstream)})
            case Unwind(id) =>
              && (At(p, id, Leaving) ==> t' == t.(conns := t.conns - {Conn(id, Upstream)}))
              && (At(p, id, UpstreamUntracked) ==> t' == t.(conns := t.conns - {Conn(id, Client)}))
            case SetFlag(x, flag) => TableOf(Next(Next(p, s), SeverAndReturn(x))) == t.Flagged(flag, true)
            case ClearFlags(cleared) => forall flag :: cleared == {flag} ==> t' == t.Flagged(flag, false)
            case SeverAndReturn(_) => t' == t.Cut()
            case Sever => t' == t.Cut()
            case _ => t'.flags == t.flags && t'.conns == t.conns
  {
  }

  class ConnTable {
    var flags: set<Flag>
    var conns: set<Conn>
    var open: set<Conn>

    ghost function View(): Table
      reads this
    {
      Table(flags, conns, open)
    }

    constructor ()
      ensures View() == TableOf(IDLE)
    {
      flags, conns, open := {}, {}, {};
    }

    /** `SetPartitioned` and `SetCrashed`. */
    method ChangeFlag(flag: Flag, v: bool)
      modifies `flags, `open
      ensures View() == old(View()).Flagged(flag, v)
    {
      if v {
        flags := flags + {flag};
        SeverConns();
      } else {
        flags := flags - {flag};
      }
    }

    method TrackConn(c: Conn)
      modifies `conns
      ensures View() == old(View()).(conns := old(conns) + {c})
    {
      conns := conns + {c};
    }

    method UntrackConn(c: Conn)
      modifies `conns
      ensures View() == old(View()).(conns := old(conns) - {c})
    {
      conns := conns - {c};
    }

    /** Closes every tracked connection; the table itself stays as it is. */
    method SeverConns()
      modifies `open
      ensures View() == old(View()).Cut()
      ensures flags == old(flags) && conns == old(conns) && forall c :: c in open <==> c in old(open) && c !in conns
    {
      var rest := conns;
      while rest != {}
        invariant rest <= conns && open == old(open) - (conns - rest)
        decreases rest
      {
        var c :| c in rest;
        open := open - {c};
        rest := rest - {c};
      }
    }
  }
}
