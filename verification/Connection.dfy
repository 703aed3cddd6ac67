/** The cached QUIC connection: what one call does, and what any number of interleaved calls
    do, given that the cache lock is held across every await of a call. */
module Connection {
  import opened Net

  type Conn = nat
  type Caller = nat

  datatype Failure = ClientFailed | BadAddress | ConnectFailed | KeepAliveFailed | Cancelled
  datatype Outcome = Connected(conn: Conn) | Failed(failure: Failure)

  /** The two cells one call may fill. */
  datatype Cache = Cache(handle: Option<Conn>, client: bool)

  datatype ConnectResult = Refused | Abandoned | Established(conn: Conn, keptAlive: bool)

  /** What one call meets: is the cached handle in good condition, can the client be made
      (none: the call is dropped there), does the address parse, how does the connect end. */
  datatype Weather = Weather(cachedOk: bool, clientOk: Option<bool>, addressOk: bool, connect: ConnectResult)

  /** One whole call, run alone. */
  function Call(c: Cache, w: Weather): (Cache, Outcome) {
    if c.handle.Some? && w.cachedOk then (c, Connected(c.handle.value))
    else if !c.client && w.clientOk.None? then (c, Failed(Cancelled))
    else if !c.client && !w.clientOk.value then (c, Failed(ClientFailed))
    else
      var d := c.(client := true);
      if !w.addressOk then (d, Failed(BadAddress))
      else match w.connect
        case Refused => (d, Failed(ConnectFailed))
        case Abandoned => (d, Failed(Cancelled))
        case Established(conn, keptAlive) =>
          if !keptAlive then (d, Failed(KeepAliveFailed)) else (d.(handle := Some(conn)), Connected(conn))
  }

  predicate Hit(c: Cache, w: Weather) {
    c.handle.Some? && w.cachedOk
  }

  predicate ClientAtHand(c: Cache, w: Weather) {
    c.client || w.clientOk == Some(true)
  }

  /** Every outcome of a call has exactly its own cause, in the order in which the call meets
      them; a good cached handle is returned whatever else the weather is; and the cells keep
      what they had, but for a client that was made and a connection that is returned. */
  lemma OutcomesHaveTheirCauses(c: Cache, w: Weather)
    ensures var (d, o) := Call(c, w);
            var tries := !Hit(c, w) && ClientAtHand(c, w) && w.addressOk;
            && (Hit(c, w) ==> d == c && o == Connected(c.handle.value))
            && (o == Failed(ClientFailed) <==> !Hit(c, w) && !c.client && w.clientOk == Some(false))
            && (o == Failed(BadAddress) <==> !Hit(c, w) && ClientAtHand(c, w) && !w.addressOk)
            && (o == Failed(ConnectFailed) <==> tries && w.connect.Refused?)
            && (o == Failed(KeepAliveFailed) <==> tries && w.connect.Established? && !w.connect.keptAlive)
            && (o == Failed(Cancelled) <==>
                  (!Hit(c, w) && !c.client && w.clientOk.None?) || (tries && w.connect.Abandoned?))
            && (o.Connected? && !Hit(c, w) ==>
                  tries && w.connect == Established(o.conn, true) && d.handle == Some(o.conn))
            && (o.Failed? ==> d.handle == c.handle)
            && (d.client <==> c.client || (!Hit(c, w) && w.clientOk == Some(true)))
  {
  }

  class ConnectionManager {
    var s2nHandle: Option<Conn>
    var s2nClient: bool
    var tlstcpConnector: Option<Conn>

    ghost function Cells(): Cache
      reads this
    {
      Cache(s2nHandle, s2nClient)
    }

    constructor ()
      ensures Cells() == Cache(None, false) && tlstcpConnector.None?
    {
      s2nHandle, s2nClient, tlstcpConnector := None, false, None;
    }

    method GetS2nHandle(w: Weather) returns (outcome: Outcome)
      modifies this`s2nHandle, this`s2nClient
      ensures (Cells(), outcome) == Call(old(Cells()), w)
      ensures old(s2nHandle).Some? && w.cachedOk ==>
                Cells() == old(Cells()) && outcome == Connected(old(s2nHandle).value)
      ensures s2nHandle != old(s2nHandle) ==>
                && (old(s2nHandle).Some? ==> !w.cachedOk)
                && w.connect.Established? && w.connect.keptAlive
                && s2nHandle == Some(w.connect.conn) && outcome == Connected(w.connect.conn)
    {
      if s2nHandle.Some? {
        var handle := s2nHandle.value;
        if w.cachedOk {
          return Connected(handle);
        }
      }
      if !s2nClient {
        if w.clientOk.None? { return Failed(Cancelled); }
        if !w.clientOk.value { return Failed(ClientFailed); }
        s2nClient := true;
      }
      if !w.addressOk { return Failed(BadAddress); }
      match w.connect {
        case Refused => return Failed(ConnectFailed);
        case Abandoned => return Failed(Cancelled);
        case Established(conn, keptAlive) =>
          if !keptAlive { return Failed(KeepAliveFailed); }
          s2nHandle := Some(conn);
          return Connected(conn);
      }
    }

    /** The TLS connector is made once, and every call returns that one. */
    method GetTlstcpConnector(made: Conn) returns (connector: Conn)
      modifies this`tlstcpConnector
      ensures tlstcpConnector == Some(connector)
      ensures connector == if old(tlstcpConnector).Some? then old(tlstcpConnector).value else made
    {
      if tlstcpConnector.None? {
        tlstcpConnector := Some(made);
      }
      connector := tlstcpConnector.value;
    }
  }

  // ---------- Interleaved calls ----------

  /** Where a call is. Between any two of its steps other calls may take theirs. */
  datatype Stage = Waiting | Locked | NeedsClient | HasClient | Connecting

  /** A finished call, in the order in which the lock was released. */
  datatype Entry = Entry(caller: Caller, weather: Weather, outcome: Outcome)

  datatype Manager = Manager(
    cells: Cache,
    holder: Option<Caller>,
    calls: map<Caller, Stage>,
    broken: set<Conn>,      // handles whose connection is gone; they never recover
    nextConn: Conn,
    log: seq<Entry>,
    connects: nat,          // connects that succeeded
    installs: nat,          // and were cached
    lostKeepAlives: nat,    // and were thrown away because keep-alive failed
    lostOnEmpty: nat,       // of those, the ones made while nothing was cached
    paidConnects: nat,      // connects made while a (broken) handle was cached
    brokenFound: nat)       // checks that found the cached handle broken

  const FRESH_MANAGER := Manager(Cache(None, false), None, map[], {}, 0, [], 0, 0, 0, 0, 0, 0)

  datatype Step =
    | Enter(caller: Caller)
    | Acquire(caller: Caller)
    | Check(caller: Caller)
    | InitClient(caller: Caller, ok: bool)
    | ParseAddress(caller: Caller, ok: bool)
    | FinishConnect(caller: Caller, ok: bool, keptAlive: bool)
    | Cancel(caller: Caller)
    | Break(conn: Conn)

  predicate At(m: Manager, c: Caller, s: Stage) {
    c in m.calls && m.calls[c] == s
  }

  predicate CanStep(m: Manager, s: Step) {
    match s
    case Enter(c) => c !in m.calls
    case Acquire(c) => At(m, c, Waiting) && m.holder.None?
    case Check(c) => At(m, c, Locked)
    case InitClient(c, _) => At(m, c, NeedsClient)
    case ParseAddress(c, _) => At(m, c, HasClient)
    case FinishConnect(c, _, _) => At(m, c, Connecting)
    case Cancel(c) => c in m.calls
    case Break(_) => true
  }

  function Goto(m: Manager, c: Caller, s: Stage): Manager {
    m.(calls := m.calls[c := s])
  }

  /** The call ends and its guard is dropped. */
  function Return(m: Manager, c: Caller, w: Weather, o: Outcome): Manager {
    m.(calls := m.calls - {c}, holder := None, log := m.log + [Entry(c, w, o)])
  }

  predicate CachedOk(m: Manager) {
    m.cells.handle.Some? && m.cells.handle.value !in m.broken
  }

  function DoStep(m: Manager, s: Step): Manager
    requires CanStep(m, s)
  {
    match s
    case Enter(c) => Goto(m, c, Waiting)
    case Acquire(c) => Goto(m.(holder := Some(c)), c, Locked)
    case Check(c) =>
      if CachedOk(m) then
        Return(m, c, Weather(true, None, false, Refused), Connected(m.cells.handle.value))
      else
        Goto(m.(brokenFound := m.brokenFound + if m.cells.handle.Some? then 1 else 0), c, NeedsClient)
    case InitClient(c, ok) =>
      if m.cells.client then Goto(m, c, HasClient)
      else if ok then Goto(m.(cells := m.cells.(client := true)), c, HasClient)
      else Return(m, c, Weather(false, Some(false), false, Refused), Failed(ClientFailed))
    case ParseAddress(c, ok) =>
      if ok then Goto(m, c, Connecting)
      else Return(m, c, Weather(false, Some(true), false, Refused), Failed(BadAddress))
    case FinishConnect(c, ok, keptAlive) =>
      if !ok then Return(m, c, Weather(false, Some(true), true, Refused), Failed(ConnectFailed))
      else
        var conn := m.nextConn;
        var empty := m.cells.handle.None?;
        var n := m.(nextConn := conn + 1, connects := m.connects + 1,
                    paidConnects := m.paidConnects + if empty then 0 else 1,
                    lostOnEmpty := m.lostOnEmpty + if empty && !keptAlive then 1 else 0);
        var w := Weather(false, Some(true), true, Established(conn, keptAlive));
        if !keptAlive then Return(n.(lostKeepAlives := n.lostKeepAlives + 1), c, w, Failed(KeepAliveFailed))
        else Return(n.(cells := n.cells.(handle := Some(conn)), installs := n.installs + 1), c, w, Connected(conn))
    case Cancel(c) =>
      match m.calls[c] {
        case Waiting => m.(calls := m.calls - {c})
        case Locked => m.(calls := m.calls - {c}, holder := None)
        case NeedsClient => m.(calls := m.calls - {c}, holder := None)
        case _ => Return(m, c, Weather(false, Some(true), true, Abandoned), Failed(Cancelled))
      }
    case Break(conn) => m.(broken := m.broken + {conn})
  }

  function Run(m: Manager, steps: seq<Step>): Option<Manager>
    decreases |steps|
  {
    if steps == [] then Some(m)
    else if CanStep(m, steps[0]) then Run(DoStep(m, steps[0]), steps[1..])
    else None
  }

  /** The cells after the logged calls, run one after the other. */
  function Replay(log: seq<Entry>): Cache {
    if log == [] then Cache(None, false)
    else Call(Replay(log[..|log| - 1]), log[|log| - 1].weather).0
  }

  /** Every logged outcome is the one the sequential run gives. */
  ghost predicate Explained(log: seq<Entry>) {
    forall i | 0 <= i < |log| :: log[i].outcome == Call(Replay(log[..i]), log[i].weather).1
  }

  predicate PastCheck(s: Stage) {
    s in {NeedsClient, HasClient, Connecting}
  }

  predicate HoldsClient(s: Stage) {
    s in {HasClient, Connecting}
  }

  ghost predicate Inside(m: Manager) {
    // exactly the lock holder is past waiting
    && (forall c | c in m.calls :: m.calls[c] != Waiting <==> m.holder == Some(c))
    && (m.holder.Some? ==> m.holder.value in m.calls)
    // a holder past its check knows the cached handle is missing or broken
    && (forall c | c in m.calls && PastCheck(m.calls[c]) :: !CachedOk(m))
    && (forall c | c in m.calls && HoldsClient(m.calls[c]) :: m.cells.client)
  }

  ghost predicate Sequential(m: Manager) {
    && Explained(m.log)
    && Replay(m.log).handle == m.cells.handle
    && (Replay(m.log).client ==> m.cells.client)
    && (m.cells.client && !Replay(m.log).client ==>
         m.holder.Some? && m.holder.value in m.calls && HoldsClient(m.calls[m.holder.value]))
  }

  /** A reconnect in progress is paid for by the broken handle it found. */
  function InProgress(m: Manager): nat {
    if m.holder.Some? && m.holder.value in m.calls && PastCheck(m.calls[m.holder.value]) && m.cells.handle.Some?
      then 1 else 0
  }

  ghost predicate Tallied(m: Manager) {
    && m.connects == m.installs + m.lostKeepAlives
    && m.connects == m.paidConnects + m.lostOnEmpty + (if m.cells.handle.Some? then 1 else 0)
    && m.lostOnEmpty <= m.lostKeepAlives
    && m.paidConnects + InProgress(m) <= m.brokenFound
    && (m.cells.handle.None? ==> m.installs == 0)
    && (m.cells.handle.Some? ==> m.installs + InProgress(m) <= 1 + m.brokenFound && m.cells.handle.value < m.nextConn)
  }

  ghost predicate ManagerInv(m: Manager) {
    Inside(m) && Sequential(m) && Tallied(m)
  }

  lemma ReplayAppends(log: seq<Entry>, e: Entry)
    requires Explained(log) && e.outcome == Call(Replay(log), e.weather).1
    ensures Explained(log + [e]) && Replay(log + [e]) == Call(Replay(log), e.weather).0
  {
    var all := log + [e];
    assert all[..|log|] == log;
    forall i | 0 <= i < |all| ensures all[i].outcome == Call(Replay(all[..i]), all[i].weather).1 {
      if i < |log| { assert all[..i] == log[..i]; }
    }
  }

  lemma StepKeepsInside(m: Manager, s: Step)
    requires ManagerInv(m) && CanStep(m, s)
    ensures Inside(DoStep(m, s))
  {
    hide Sequential, Tallied;
  }

  lemma StepKeepsSequential(m: Manager, s: Step)
    requires ManagerInv(m) && CanStep(m, s)
    ensures Sequential(DoStep(m, s))
  {
    hide Tallied, Explained, Replay;
    var d := DoStep(m, s);
    if d.log != m.log {
      var e := d.log[|m.log|];
      assert d.log == m.log + [e];
      ReplayAppends(m.log, e);
    }
  }

  lemma TheActor(m: Manager, c: Caller)
    requires Inside(m)
    ensures c in m.calls ==> (m.calls[c] != Waiting <==> m.holder == Some(c))
    ensures c in m.calls && PastCheck(m.calls[c]) ==> !CachedOk(m)
    ensures m.holder == Some(c) ==> c in m.calls
  {
  }

  lemma StepKeepsTallied(m: Manager, s: Step)
    requires ManagerInv(m) && CanStep(m, s)
    ensures Tallied(DoStep(m, s))
  {
    hide Sequential, Inside;
    if !s.Break? { TheActor(m, s.caller); }
    if m.holder.Some? { TheActor(m, m.holder.value); }
  }

  lemma {:induction false} RunKeepsManagerInv(m: Manager, steps: seq<Step>)
    requires ManagerInv(m) && Run(m, steps).Some?
    ensures ManagerInv(Run(m, steps).value)
    decreases |steps|
  {
    hide Inside, Sequential, Tallied;
    if steps != [] {
      StepKeepsInside(m, steps[0]);
      StepKeepsSequential(m, steps[0]);
      StepKeepsTallied(m, steps[0]);
      RunKeepsManagerInv(DoStep(m, steps[0]), steps[1..]);
    }
  }

  ghost predicate Attains(steps: seq<Step>, m: Manager) {
    Run(FRESH_MANAGER, steps) == Some(m)
  }

  lemma FreshInv()
    ensures ManagerInv(FRESH_MANAGER)
  {
  }

  lemma AttainedInv(steps: seq<Step>, m: Manager)
    requires Attains(steps, m)
    ensures ManagerInv(m)
  {
    hide Inside, Sequential, Tallied;
    FreshInv();
    RunKeepsManagerInv(FRESH_MANAGER, steps);
  }

  /** At most one connect is in flight, and the call that makes it holds the lock. */
  lemma SingleFlight(steps: seq<Step>, m: Manager, a: Caller, b: Caller)
    requires Attains(steps, m) && At(m, a, Connecting) && At(m, b, Connecting)
    ensures a == b && m.holder == Some(a)
  {
    AttainedInv(steps, m);
  }

  /** Interleaved calls are equivalent to calls run one after the other in the order in which
      they released the lock: same outcomes, and whenever the lock is free the same cells. */
  lemma CallsAreSequential(steps: seq<Step>, m: Manager)
    requires Attains(steps, m)
    ensures forall i | 0 <= i < |m.log| :: m.log[i].outcome == Call(Replay(m.log[..i]), m.log[i].weather).1
    ensures Replay(m.log).handle == m.cells.handle
    ensures m.holder.None? ==> Replay(m.log) == m.cells
  {
    AttainedInv(steps, m);
  }

  /** Connections are cached at most once more than the cached handle was found broken. All
      successful connects keep that bound when no keep-alive is lost on an empty cache; and
      exactly, when those losses do not exceed the broken handles that were found and not yet
      replaced, plus the one connect an empty cache still has to its credit. */
  lemma ConnectsAreBounded(steps: seq<Step>, m: Manager)
    requires Attains(steps, m)
    ensures m.installs <= 1 + m.brokenFound && m.connects == m.installs + m.lostKeepAlives
    ensures m.lostOnEmpty == 0 ==> m.connects <= 1 + m.brokenFound
    ensures m.lostOnEmpty <= m.lostKeepAlives && m.paidConnects <= m.brokenFound
    ensures m.connects <= 1 + m.brokenFound
       <==> m.lostOnEmpty <= m.brokenFound - m.paidConnects + (if m.cells.handle.None? then 1 else 0)
  {
    AttainedInv(steps, m);
  }

  lemma {:induction false} RunAppends(m: Manager, steps: seq<Step>, s: Step)
    requires Run(m, steps).Some? && CanStep(Run(m, steps).value, s)
    ensures Run(m, steps + [s]) == Some(DoStep(Run(m, steps).value, s))
    decreases |steps|
  {
    hide DoStep, CanStep;
    if steps == [] {
      assert (steps + [s])[1..] == [];
    } else {
      assert (steps + [s])[1..] == steps[1..] + [s];
      RunAppends(DoStep(m, steps[0]), steps[1..], s);
    }
  }

  /** The bound does fail: two callers in turn connect and lose the keep-alive, although no
      cached handle was ever broken. */
  lemma LostKeepAlivesBreakTheBound()
    ensures exists steps, m :: Attains(steps, m) && m.connects > 1 + m.brokenFound
  {
    assert Attains([], FRESH_MANAGER);
    var steps1, m1 := ReachesConnect([], FRESH_MANAGER, 0);
    var steps2, m2 := LosesKeepAlive(steps1, m1, 0);
    var steps3, m3 := ReachesConnect(steps2, m2, 1);
    var steps4, m4 := LosesKeepAlive(steps3, m3, 1);
    assert Attains(steps4, m4) && m4.connects > 1 + m4.brokenFound;
  }

  ghost predicate Free(m: Manager) {
    m.cells.handle.None? && m.holder.None? && m.calls == map[]
  }

  /** With nothing cached and no call under way, a call can get as far as its connect. */
  lemma ReachesConnect(steps: seq<Step>, m: Manager, c: Caller) returns (more: seq<Step>, d: Manager)
    requires Attains(steps, m) && Free(m)
    ensures Attains(more, d)
    ensures d == m.(cells := Cache(None, true), holder := Some(c), calls := map[c := Connecting])
  {
    var m1 := DoStep(m, Enter(c));
    var m2 := DoStep(m1, Acquire(c));
    var m3 := DoStep(m2, Check(c));
    var m4 := DoStep(m3, InitClient(c, true));
    d := DoStep(m4, ParseAddress(c, true));
    more := steps + [Enter(c)] + [Acquire(c)] + [Check(c)] + [InitClient(c, true)] + [ParseAddress(c, true)];
    RunAppends(FRESH_MANAGER, steps, Enter(c));
    RunAppends(FRESH_MANAGER, steps + [Enter(c)], Acquire(c));
    RunAppends(FRESH_MANAGER, steps + [Enter(c)] + [Acquire(c)], Check(c));
    RunAppends(FRESH_MANAGER, steps + [Enter(c)] + [Acquire(c)] + [Check(c)], InitClient(c, true));
    RunAppends(FRESH_MANAGER, steps + [Enter(c)] + [Acquire(c)] + [Check(c)] + [InitClient(c, true)],
        ParseAddress(c, true));
    assert d.calls == map[c := Connecting];
  }

  lemma LosesKeepAlive(steps: seq<Step>, m: Manager, c: Caller) returns (more: seq<Step>, d: Manager)
    requires Attains(steps, m) && m.cells.handle.None? && m.calls == map[c := Connecting]
    ensures Attains(more, d) && Free(d)
    ensures d.connects == m.connects + 1 && d.brokenFound == m.brokenFound
  {
    var s := FinishConnect(c, true, false);
    RunAppends(FRESH_MANAGER, steps, s);
    more, d := steps + [s], DoStep(m, s);
  }

  /** A cached handle is only ever replaced when its connection is broken, and then by the
      connection just made; a step that does not end in a new connection keeps the cache. */
  lemma HealthyHandleIsNeverReplaced(steps: seq<Step>, m: Manager, s: Step)
    requires Attains(steps, m) && CanStep(m, s) && DoStep(m, s).cells.handle != m.cells.handle
    ensures m.cells.handle.Some? ==> m.cells.handle.value in m.broken
    ensures s.FinishConnect? && s.ok && s.keptAlive && DoStep(m, s).cells.handle == Some(m.nextConn)
    ensures m.cells.handle != Some(m.nextConn)
  {
    AttainedInv(steps, m);
  }

  /** What a call returns: the cached handle it just found good, or the connection it just
      made and cached; a failing or cancelled call leaves the cached handle as it was. */
  lemma ReturnsCheckedOrFresh(steps: seq<Step>, m: Manager, s: Step)
    requires Attains(steps, m) && CanStep(m, s) && |DoStep(m, s).log| > |m.log|
    ensures var (d, o) := (DoStep(m, s), DoStep(m, s).log[|m.log|].outcome);
            && (o.Connected? ==>
                  && d.cells.handle == Some(o.conn)
                  && ((m.cells.handle == Some(o.conn) && o.conn !in m.broken)
                      || (o.conn == m.nextConn && d.nextConn == o.conn + 1)))
            && (o.Failed? ==> d.cells.handle == m.cells.handle)
  {
  }

  /** A dropped call is gone: it is no longer among the calls, it does not hold the lock, and
      the cells, the other calls and the connections are as before. A connection that breaks
      is found broken by every later check of it, whatever happens in between. */
  lemma DroppedCallsLeaveNothing(steps: seq<Step>, m: Manager, c: Caller, conn: Conn, more: seq<Step>)
    requires Attains(steps, m)
    ensures c in m.calls ==>
              var d := DoStep(m, Cancel(c));
              && d.cells == m.cells && d.calls == m.calls - {c} && d.broken == m.broken
              && d.holder == (if m.holder == Some(c) then None else m.holder)
              && d.connects == m.connects && d.nextConn == m.nextConn
    ensures var d := Run(DoStep(m, Break(conn)), more);
            d.Some? ==> conn in d.value.broken
    ensures DoStep(m, Break(conn)).(broken := m.broken) == m
  {
    hide Explained, Sequential, Tallied;
    AttainedInv(steps, m);
    if Run(DoStep(m, Break(conn)), more).Some? {
      BrokenStaysBroken(DoStep(m, Break(conn)), more);
    }
  }

  lemma {:induction false} BrokenStaysBroken(m: Manager, steps: seq<Step>)
    requires Run(m, steps).Some?
    ensures m.broken <= Run(m, steps).value.broken
    decreases |steps|
  {
    if steps != [] { BrokenStaysBroken(DoStep(m, steps[0]), steps[1..]); }
  }

  lemma RunStep(m: Manager, s: Step, rest: seq<Step>)
    requires CanStep(m, s)
    ensures Run(m, [s] + rest) == Run(DoStep(m, s), rest)
  {
    assert ([s] + rest)[1..] == rest;
  }

  function ConnectStep(c: Caller, w: Weather): Step {
    match w.connect
    case Refused => FinishConnect(c, false, false)
    case Abandoned => Cancel(c)
    case Established(_, keptAlive) => FinishConnect(c, true, keptAlive)
  }

  /** The steps of a call that holds the lock and has found no good handle. */
  function TailSteps(m: Manager, c: Caller, w: Weather): seq<Step> {
    if !m.cells.client && w.clientOk.None? then [Cancel(c)]
    else if !ClientAtHand(m.cells, w) then [InitClient(c, false)]
    else if !w.addressOk then [InitClient(c, true)] + [ParseAddress(c, false)]
    else [InitClient(c, true)] + ([ParseAddress(c, true)] + [ConnectStep(c, w)])
  }

  function SoloSteps(m: Manager, c: Caller, w: Weather): seq<Step> {
    [Enter(c)] + ([Acquire(c)] + ([Check(c)] + (if CachedOk(m) then [] else TailSteps(m, c, w))))
  }

  /** From `m` the call ended in `d` with what the whole call gives. */
  ghost predicate EndsAs(m: Manager, d: Manager, c: Caller, w: Weather, calls: map<Caller, Stage>) {
    && d.cells == Call(m.cells, w).0
    && d.holder.None? && d.calls == calls
    && (if !Hit(m.cells, w) && !m.cells.client && w.clientOk.None? then d.log == m.log
        else |d.log| == |m.log| + 1 && d.log[..|m.log|] == m.log
             && d.log[|m.log|].caller == c && d.log[|m.log|].outcome == Call(m.cells, w).1)
  }

  lemma LastStep(m: Manager, s: Step)
    requires CanStep(m, s)
    ensures Run(m, [s]) == Some(DoStep(m, s))
  {
    assert [s] + [] == [s];
    RunStep(m, s, []);
  }

  lemma ConnectRuns(m: Manager, c: Caller, w: Weather)
    requires At(m, c, HasClient) && m.cells.client && w.addressOk && !Hit(m.cells, w)
    requires w.connect.Established? ==> w.connect.conn == m.nextConn
    ensures var d := Run(m, [ParseAddress(c, true)] + [ConnectStep(c, w)]);
            d.Some? && EndsAs(m, d.value, c, w, m.calls - {c})
  {
    var m1 := DoStep(m, ParseAddress(c, true));
    RunStep(m, ParseAddress(c, true), [ConnectStep(c, w)]);
    LastStep(m1, ConnectStep(c, w));
    assert m1.calls - {c} == m.calls - {c};
  }

  lemma TailRuns(m: Manager, c: Caller, w: Weather)
    requires At(m, c, NeedsClient) && !Hit(m.cells, w)
    requires w.connect.Established? ==> w.connect.conn == m.nextConn
    ensures Run(m, TailSteps(m, c, w)).Some?
    ensures EndsAs(m, Run(m, TailSteps(m, c, w)).value, c, w, m.calls - {c})
  {
    if !m.cells.client && w.clientOk.None? {
      LastStep(m, Cancel(c));
    } else if !ClientAtHand(m.cells, w) {
      LastStep(m, InitClient(c, false));
    } else {
      var m1 := DoStep(m, InitClient(c, true));
      assert m1.calls - {c} == m.calls - {c};
      if !w.addressOk {
        RunStep(m, InitClient(c, true), [ParseAddress(c, false)]);
        LastStep(m1, ParseAddress(c, false));
      } else {
        ConnectRuns(m1, c, w);
        RunStep(m, InitClient(c, true), TailSteps(m, c, w)[1..]);
      }
    }
  }

  /** A call that meets no other goes through its steps to the end and gives, in every
      weather, the outcome and the cells of one whole call. */
  lemma UnhinderedCallIsOneCall(m: Manager, c: Caller, w: Weather)
    requires m.holder.None? && c !in m.calls
    requires m.cells.handle.Some? ==> (w.cachedOk <==> m.cells.handle.value !in m.broken)
    requires w.connect.Established? ==> w.connect.conn == m.nextConn
    ensures Run(m, SoloSteps(m, c, w)).Some?
    ensures EndsAs(m, Run(m, SoloSteps(m, c, w)).value, c, w, m.calls)
  {
    hide TailSteps, Run;
    var m1 := DoStep(m, Enter(c));
    var m2 := DoStep(m1, Acquire(c));
    var m3 := DoStep(m2, Check(c));
    var tail := if CachedOk(m) then [] else TailSteps(m, c, w);
    RunStep(m, Enter(c), [Acquire(c)] + ([Check(c)] + tail));
    RunStep(m1, Acquire(c), [Check(c)] + tail);
    RunStep(m2, Check(c), tail);
    assert m3.calls - {c} == m.calls;
    if CachedOk(m) {
      RunNothing(m3);
    } else {
      SameTail(m, m3, c, w);
      TailRuns(m3, c, w);
    }
  }

  lemma RunNothing(m: Manager)
    ensures Run(m, []) == Some(m)
  {
  }

  lemma SameTail(m: Manager, d: Manager, c: Caller, w: Weather)
    requires d.cells == m.cells
    ensures TailSteps(d, c, w) == TailSteps(m, c, w)
  {
  }

  // ---------- The TLS connector's cell ----------

  /** The cell of the TLS connector under any number of callers: one of them at a time may
      hold the permit to fill it, and `answers` lists what finished calls returned. */
  datatype OnceCell = OnceCell(
    value: Option<Conn>,
    maker: Option<Caller>,
    waiting: set<Caller>,
    made: nat,
    answers: seq<Conn>)

  const EMPTY_CELL := OnceCell(None, None, {}, 0, [])

  datatype CellStep =
    | Ask(caller: Caller)               // answered at once when the cell is filled
    | TakePermit(caller: Caller)        // the cell is looked at again
    | Make(caller: Caller, made: Conn)
    | GiveUp(caller: Caller)            // the call is dropped

  predicate CanCellStep(o: OnceCell, s: CellStep) {
    match s
    case Ask(c) => c !in o.waiting && o.maker != Some(c)
    case TakePermit(c) => c in o.waiting && o.maker.None?
    case Make(c, _) => o.maker == Some(c)
    case GiveUp(c) => c in o.waiting || o.maker == Some(c)
  }

  function DoCellStep(o: OnceCell, s: CellStep): OnceCell
    requires CanCellStep(o, s)
  {
    match s
    case Ask(c) =>
      if o.value.Some? then o.(answers := o.answers + [o.value.value]) else o.(waiting := o.waiting + {c})
    case TakePermit(c) =>
      if o.value.Some? then o.(waiting := o.waiting - {c}, answers := o.answers + [o.value.value])
      else o.(waiting := o.waiting - {c}, maker := Some(c))
    case Make(_, made) => o.(value := Some(made), maker := None, made := o.made + 1, answers := o.answers + [made])
    case GiveUp(c) => o.(waiting := o.waiting - {c}, maker := if o.maker == Some(c) then None else o.maker)
  }

  function RunCell(o: OnceCell, steps: seq<CellStep>): Option<OnceCell>
    decreases |steps|
  {
    if steps == [] then Some(o)
    else if CanCellStep(o, steps[0]) then RunCell(DoCellStep(o, steps[0]), steps[1..])
    else None
  }

  ghost predicate CellInv(o: OnceCell) {
    && o.made == (if o.value.Some? then 1 else 0)
    && (o.value.Some? ==> o.maker.None?)
    && forall i | 0 <= i < |o.answers| :: o.value == Some(o.answers[i])
  }

  lemma {:induction false} RunKeepsCell(o: OnceCell, steps: seq<CellStep>)
    requires CellInv(o) && RunCell(o, steps).Some?
    ensures CellInv(RunCell(o, steps).value)
    ensures o.value.Some? ==> RunCell(o, steps).value.value == o.value
    decreases |steps|
  {
    if steps != [] {
      RunKeepsCell(DoCellStep(o, steps[0]), steps[1..]);
    }
  }

  /** However many callers race, the connector is made at most once, every call that returns
      returns that one, and once made it is never replaced. A call that is dropped gives back
      its place and its permit. */
  lemma ConnectorIsMadeOnce(steps: seq<CellStep>, more: seq<CellStep>, o: OnceCell, d: OnceCell)
    requires RunCell(EMPTY_CELL, steps) == Some(o) && RunCell(o, more) == Some(d)
    ensures o.made <= 1 && (o.made == 1 <==> o.value.Some?)
    ensures forall i | 0 <= i < |o.answers| :: o.value == Some(o.answers[i])
    ensures o.value.Some? ==> d.value == o.value && d.made == 1
    ensures forall c | c in o.waiting || o.maker == Some(c) ::
              CanCellStep(o, GiveUp(c))
              && DoCellStep(o, GiveUp(c)) == o.(waiting := o.waiting - {c}, maker := DoCellStep(o, GiveUp(c)).maker)
              && DoCellStep(o, GiveUp(c)).maker == (if o.maker == Some(c) then None else o.maker)
  {
    RunKeepsCell(EMPTY_CELL, steps);
    RunKeepsCell(o, more);
  }

  /** A call that meets no other, from asking to its answer, does to the cell what one call
      alone does. */
  lemma UnhinderedAskIsOneCall(o: OnceCell, c: Caller, made: Conn)
    requires CellInv(o) && o.maker.None? && c !in o.waiting
    ensures var steps := if o.value.Some? then [Ask(c)] else [Ask(c), TakePermit(c), Make(c, made)];
            var connector := if o.value.Some? then o.value.value else made;
            && RunCell(o, steps).Some?
            && RunCell(o, steps).value.value == Some(connector)
            && RunCell(o, steps).value.answers == o.answers + [connector]
            && RunCell(o, steps).value.waiting == o.waiting
  {
    if o.value.Some? {
      assert [Ask(c)][1..] == [];
    } else {
      var steps := [Ask(c), TakePermit(c), Make(c, made)];
      var o1 := DoCellStep(o, Ask(c));
      var o2 := DoCellStep(o1, TakePermit(c));
      assert steps[1..] == [TakePermit(c), Make(c, made)];
      assert steps[1..][1..] == [Make(c, made)];
      assert steps[1..][1..][1..] == [];
      assert RunCell(o2, [Make(c, made)]) == Some(DoCellStep(o2, Make(c, made)));
      assert RunCell(o1, steps[1..]) == RunCell(o2, [Make(c, made)]);
    }
  }
}
