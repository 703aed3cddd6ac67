/** The packet tunnel provider, its runtime coordinator and the cores they create: handle and
    bridge lifetime over every run of start, packet batches, session work and stop. */
module Provider {
  import opened Net
  import opened EngineModel
  import S = Sessions
  import T = SessionTheorems

  type CoreId = nat

  /** The calls made on the core's C interface, in order. */
  datatype CoreCall =
    | Created(core: CoreId)
    | CallbackSet(core: CoreId)
    | StartCalled(core: CoreId)
    | PacketGiven(core: CoreId)
    | CallbackCleared(core: CoreId)
    | Stopped(core: CoreId)

  datatype ConfigLoad = LoadThrows | NoConfig | Loaded

  /** What one start meets; `refuses` is a core manager whose start fails of its own accord. */
  datatype StartWeather = StartWeather(config: ConfigLoad, builds: bool, creates: bool, refuses: bool)

  datatype StartError = LoadThrew | MissingConfig | BuildThrew | CoreCreateFailed | CoreStartFailed
  datatype Runtime = Made(core: CoreId) | NotMade(error: StartError)

  datatype Arrival = Arrival(packet: Packet, slot: Handle, work: StackWork)

  /** `cores` are the live cores; `retained` the bridges whose retain count is one; `exposed`
      records whether a bridge was ever released while a live core still called it back. */
  datatype State = State(
    cores: map<CoreId, S.Core>,
    nextCore: CoreId,
    calls: seq<CoreCall>,
    rustHandle: Option<CoreId>,
    packetBridge: Option<Context>,
    nextBridge: Context,
    retained: set<Context>,
    retains: nat,
    releases: nat,
    exposed: bool)

  const IDLE := State(map[], 0, [], None, None, 0, {}, 0, 0, false)

  // ---------- The core manager ----------

  function Logged(p: State, call: CoreCall): State {
    p.(calls := p.calls + [call])
  }

  function CoreCreated(p: State): State {
    Logged(p.(cores := p.cores[p.nextCore := S.INITIAL], nextCore := p.nextCore + 1), Created(p.nextCore))
  }

  /** One call on a live core. */
  function OnCore(p: State, h: CoreId, a: S.Action): State {
    if h in p.cores then p.(cores := p.cores[h := S.Stepped(p.cores[h], a)]) else p
  }

  function CallbackInstalled(p: State, h: CoreId, context: Context): State {
    Logged(OnCore(p, h, S.SetCallback(context)), CallbackSet(h))
  }

  function StartRequested(p: State, h: CoreId, refuses: bool): State {
    Logged(if refuses then p else OnCore(p, h, S.Start), StartCalled(h))
  }

  function CallbackRemoved(p: State, h: CoreId): State {
    Logged(OnCore(p, h, S.ClearCallback), CallbackCleared(h))
  }

  function CoreStopped(p: State, h: CoreId): State {
    Logged(p.(cores := p.cores - {h}), Stopped(h))
  }

  // ---------- The coordinator ----------

  /** What a start answers: the core is there, still alive and has a callback. */
  predicate StartOk(p: State, h: CoreId, refuses: bool) {
    !refuses && h in p.cores && p.cores[h].fault.NoFault? && p.cores[h].engine.callback.Some?
  }

  function MakeRuntime(p: State, context: Context, w: StartWeather): (State, Runtime) {
    if w.config.LoadThrows? then (p, NotMade(LoadThrew))
    else if w.config.NoConfig? then (p, NotMade(MissingConfig))
    else if !w.builds then (p, NotMade(BuildThrew))
    else if !w.creates then (p, NotMade(CoreCreateFailed))
    else
      var h := p.nextCore;
      var p1 := CallbackInstalled(CoreCreated(p), h, context);
      var p2 := StartRequested(p1, h, w.refuses);
      if !StartOk(p1, h, w.refuses) then (CoreStopped(CallbackRemoved(p2, h), h), NotMade(CoreStartFailed))
      else (p2, Made(h))
  }

  function StopRuntime(p: State, handle: Option<CoreId>): State {
    match handle
    case None => p
    case Some(h) => CoreStopped(CallbackRemoved(p, h), h)
  }

  // ---------- The provider ----------

  predicate CalledBack(p: State, b: Context) {
    exists h :: h in p.cores && p.cores[h].engine.callback == Some(b)
  }

  function BridgeReleased(p: State): State {
    match p.packetBridge
    case None => p
    case Some(b) => p.(packetBridge := None, retained := p.retained - {b}, releases := p.releases + 1,
                       exposed := p.exposed || CalledBack(p, b))
  }

  function BridgeInstalled(p: State): State {
    var q := BridgeReleased(p);
    q.(packetBridge := Some(q.nextBridge), nextBridge := q.nextBridge + 1,
       retained := q.retained + {q.nextBridge}, retains := q.retains + 1)
  }

  function StartTunnel(p: State, w: StartWeather): State {
    var p1 := BridgeInstalled(p);
    var (p2, runtime) := MakeRuntime(p1, p1.packetBridge.value, w);
    match runtime
    case NotMade(_) => BridgeReleased(p2)
    case Made(h) => p2.(rustHandle := Some(h))
  }

  function StopTunnel(p: State): State {
    BridgeReleased(StopRuntime(p, p.rustHandle).(rustHandle := None))
  }

  function PacketProcessed(p: State, h: CoreId, a: Arrival): State {
    Logged(OnCore(p, h, S.ProcessPacket(a.packet, a.slot, a.work)), PacketGiven(h))
  }

  function BatchProcessed(p: State, h: CoreId, batch: seq<Arrival>): State
    decreases |batch|
  {
    if batch == [] then p else BatchProcessed(PacketProcessed(p, h, batch[0]), h, batch[1..])
  }

  function ReadPackets(p: State, batch: seq<Arrival>): State {
    match p.rustHandle
    case None => p
    case Some(h) => BatchProcessed(p, h, batch)
  }

  // ---------- Runs ----------

  datatype Act =
    | Starts(weather: StartWeather)
    | Reads(batch: seq<Arrival>)
    | Works(core: CoreId, action: S.Action)  // a session task of a live core does one step
    | Stops

  /** The starts that make a runtime. */
  predicate Succeeds(w: StartWeather) {
    w.config.Loaded? && w.builds && w.creates && !w.refuses
  }

  predicate SessionAction(a: S.Action) {
    a.Read? || a.Write? || a.Shutdown? || a.Recv? || a.Send? || a.Finish?
  }

  function Perform(p: State, a: Act): State {
    match a
    case Starts(w) => StartTunnel(p, w)
    case Reads(batch) => ReadPackets(p, batch)
    case Works(h, action) => if SessionAction(action) then OnCore(p, h, action) else p
    case Stops => StopTunnel(p)
  }

  function PerformAll(p: State, acts: seq<Act>): State
    decreases |acts|
  {
    if acts == [] then p else PerformAll(Perform(p, acts[0]), acts[1..])
  }

  /** The system's side of the contract: no start while a runtime is already installed. */
  ghost predicate Disciplined(p: State, acts: seq<Act>)
    decreases |acts|
  {
    acts == [] || ((acts[0].Starts? ==> p.rustHandle.None?) && Disciplined(Perform(p, acts[0]), acts[1..]))
  }

  // ---------- The handle protocol ----------

  /** Every stop directly follows a clear on the same handle, a stopped handle is never used
      again, and no live handle has been stopped. */
  ghost predicate WellCalled(calls: seq<CoreCall>, live: set<CoreId>, next: CoreId) {
    && (forall i | 0 <= i < |calls| && calls[i].Stopped? :: i > 0 && calls[i - 1] == CallbackCleared(calls[i].core))
    && (forall i, j | 0 <= i < j < |calls| && calls[i].Stopped? :: calls[j].core != calls[i].core)
    && (forall i | 0 <= i < |calls| :: calls[i].core < next)
    && (forall i | 0 <= i < |calls| && calls[i].Stopped? :: calls[i].core !in live)
    && (forall h | h in live :: h < next)
  }

  lemma CallAppends(calls: seq<CoreCall>, live: set<CoreId>, next: CoreId, call: CoreCall)
    requires WellCalled(calls, live, next) && !call.Stopped? && call.core in live
    ensures WellCalled(calls + [call], live, next)
  {
  }

  lemma CreateAppends(calls: seq<CoreCall>, live: set<CoreId>, next: CoreId)
    requires WellCalled(calls, live, next)
    ensures WellCalled(calls + [Created(next)], live + {next}, next + 1)
  {
  }

  lemma StopAppends(calls: seq<CoreCall>, live: set<CoreId>, next: CoreId, h: CoreId)
    requires WellCalled(calls, live, next) && h in live
    requires calls != [] && calls[|calls| - 1] == CallbackCleared(h)
    ensures WellCalled(calls + [Stopped(h)], live - {h}, next)
  {
  }

  /** What every run keeps, disciplined or not. */
  ghost predicate Kept(p: State) {
    && WellCalled(p.calls, p.cores.Keys, p.nextCore)
    && (p.rustHandle.Some? ==> p.rustHandle.value in p.cores)
    && p.retained == (if p.packetBridge.Some? then {p.packetBridge.value} else {})
    && p.retains == p.releases + |p.retained|
    && (forall b | b in p.retained :: b < p.nextBridge)
    && (forall h | h in p.cores :: S.Inv(p.cores[h]))
  }

  lemma OnCoreKeeps(p: State, h: CoreId, a: S.Action)
    requires Kept(p)
    ensures Kept(OnCore(p, h, a)) && OnCore(p, h, a).cores.Keys == p.cores.Keys
  {
    hide S.Inv, S.Stepped, WellCalled;
    if h in p.cores {
      S.SteppedKeepsInv(p.cores[h], a);
    }
    assert OnCore(p, h, a).cores.Keys == p.cores.Keys;
  }

  lemma BridgeStepsKeep(p: State)
    requires Kept(p)
    ensures Kept(BridgeReleased(p)) && Kept(BridgeInstalled(p))
  {
    hide S.Inv, WellCalled;
  }

  lemma MakeRuntimeKeeps(p: State, context: Context, w: StartWeather)
    requires Kept(p)
    ensures var (q, r) := MakeRuntime(p, context, w);
            Kept(q) && (r.Made? ==> r.core in q.cores)
            && q == p.(cores := q.cores, nextCore := q.nextCore, calls := q.calls)
  {
    hide S.Inv, S.Next, WellCalled, OnCore, StartOk;
    if w.config.Loaded? && w.builds && w.creates {
      var h := p.nextCore;
      NextCoreIsFresh(p);
      CreateKeeps(p);
      var p1 := CoreCreated(p);
      LoggedCallKeeps(p1, h, S.SetCallback(context), CallbackSet(h));
      var p2 := CallbackInstalled(p1, h, context);
      LoggedCallKeeps(p2, h, S.Start, StartCalled(h));
      LoggedOnlyKeeps(p2, StartCalled(h));
      var p3 := StartRequested(p2, h, w.refuses);
      if !StartOk(p2, h, w.refuses) {
        ClearStopKeeps(p3, h);
      }
    }
  }

  lemma NextCoreIsFresh(p: State)
    requires Kept(p)
    ensures p.nextCore !in p.cores
  {
  }

  lemma CreateKeeps(p: State)
    requires Kept(p)
    ensures Kept(CoreCreated(p)) && CoreCreated(p).cores.Keys == p.cores.Keys + {p.nextCore}
    ensures CoreCreated(p) == p.(cores := CoreCreated(p).cores, nextCore := p.nextCore + 1,
              calls := CoreCreated(p).calls)
  {
    hide S.Inv, WellCalled;
    CreateAppends(p.calls, p.cores.Keys, p.nextCore);
    S.InitialInv();
    assert CoreCreated(p).cores.Keys == p.cores.Keys + {p.nextCore};
  }

  lemma LoggedOnlyKeeps(p: State, call: CoreCall)
    requires Kept(p) && !call.Stopped? && call.core in p.cores
    ensures Kept(Logged(p, call))
  {
    hide S.Inv, WellCalled;
    CallAppends(p.calls, p.cores.Keys, p.nextCore, call);
  }

  lemma LoggedCallKeeps(p: State, h: CoreId, a: S.Action, call: CoreCall)
    requires Kept(p) && !call.Stopped? && call.core in p.cores
    ensures var q := Logged(OnCore(p, h, a), call);
            Kept(q) && q.cores.Keys == p.cores.Keys && q == p.(cores := q.cores, calls := p.calls + [call])
  {
    OnCoreKeeps(p, h, a);
    LoggedOnlyKeeps(OnCore(p, h, a), call);
  }

  lemma ClearStopKeeps(p: State, h: CoreId)
    requires Kept(p) && h in p.cores && p.rustHandle != Some(h)
    ensures var q := CoreStopped(CallbackRemoved(p, h), h);
            Kept(q) && q.cores.Keys == p.cores.Keys - {h} && q == p.(cores := q.cores, calls := q.calls)
  {
    hide S.Inv, WellCalled, OnCore;
    LoggedCallKeeps(p, h, S.ClearCallback, CallbackCleared(h));
    var p1 := CallbackRemoved(p, h);
    StopAppends(p1.calls, p1.cores.Keys, p1.nextCore, h);
    assert CoreStopped(p1, h).cores.Keys == p1.cores.Keys - {h};
  }

  lemma {:induction false} BatchKeeps(p: State, h: CoreId, batch: seq<Arrival>)
    requires Kept(p) && h in p.cores
    ensures var q := BatchProcessed(p, h, batch);
            Kept(q) && q.cores.Keys == p.cores.Keys && q == p.(cores := q.cores, calls := q.calls)
    decreases |batch|
  {
    hide Kept, OnCore;
    if batch != [] {
      LoggedCallKeeps(p, h, S.ProcessPacket(batch[0].packet, batch[0].slot, batch[0].work), PacketGiven(h));
      BatchKeeps(PacketProcessed(p, h, batch[0]), h, batch[1..]);
    }
  }

  lemma PerformKeeps(p: State, a: Act)
    requires Kept(p)
    ensures Kept(Perform(p, a))
  {
    hide S.Inv, WellCalled, OnCore, MakeRuntime, BatchProcessed;
    match a
    case Starts(w) =>
      BridgeStepsKeep(p);
      var p1 := BridgeInstalled(p);
      MakeRuntimeKeeps(p1, p1.packetBridge.value, w);
      BridgeStepsKeep(MakeRuntime(p1, p1.packetBridge.value, w).0);
    case Reads(batch) =>
      if p.rustHandle.Some? { BatchKeeps(p, p.rustHandle.value, batch); }
    case Works(h, action) => OnCoreKeeps(p, h, action);
    case Stops =>
      if p.rustHandle.Some? {
        ClearStopKeeps(p.(rustHandle := None), p.rustHandle.value);
        StopIgnoresHandle(p, p.rustHandle.value);
      }
      BridgeStepsKeep(StopRuntime(p, p.rustHandle).(rustHandle := None));
  }

  lemma StopIgnoresHandle(p: State, h: CoreId)
    ensures CoreStopped(CallbackRemoved(p.(rustHandle := None), h), h)
         == CoreStopped(CallbackRemoved(p, h), h).(rustHandle := None)
  {
  }

  lemma {:induction false} RunKeeps(p: State, acts: seq<Act>)
    requires Kept(p)
    ensures Kept(PerformAll(p, acts))
    decreases |acts|
  {
    hide Kept, Perform;
    if acts != [] {
      PerformKeeps(p, acts[0]);
      RunKeeps(Perform(p, acts[0]), acts[1..]);
    }
  }

  lemma IdleKept()
    ensures Kept(IDLE)
  {
  }

  // ---------- The bridge a callback carries ----------

  /** Between actions of a disciplined run: no runtime, no bridge and no core; or one started
      core, called back with the one retained bridge. */
  ghost predicate Linked(p: State) {
    && !p.exposed
    && match p.rustHandle
       case None => p.packetBridge.None? && p.cores == map[]
       case Some(h) =>
         && p.cores.Keys == {h}
         && p.packetBridge.Some?
         && p.cores[h].engine.callback == p.packetBridge
         && p.cores[h].started
  }

  lemma QuietActionKeepsCallback(c: S.Core, a: S.Action)
    requires S.Enabled(c, a) && !T.Registers(a)
    ensures S.Next(c, a).engine.callback == c.engine.callback && (c.started ==> S.Next(c, a).started)
    ensures EmitsOnlyTo(c.engine.callback, c.engine.emitted, S.Next(c, a).engine.emitted)
  {
    T.StepEmits(c, a);
  }

  /** What a stretch of quiet calls on one core does to the link and to the callback log. */
  ghost predicate Talks(p: State, q: State, h: CoreId) {
    && q.cores.Keys == p.cores.Keys
    && (forall g | g in p.cores && g != h :: q.cores[g] == p.cores[g])
    && (h in p.cores ==>
          && q.cores[h].engine.callback == p.cores[h].engine.callback
          && (p.cores[h].started ==> q.cores[h].started)
          && EmitsOnlyTo(p.cores[h].engine.callback, p.cores[h].engine.emitted, q.cores[h].engine.emitted))
  }

  lemma OnCoreTalks(p: State, h: CoreId, a: S.Action)
    requires !T.Registers(a)
    ensures Talks(p, OnCore(p, h, a), h)
  {
    hide S.Next, EmitsOnlyTo;
    if h in p.cores {
      T.EmitsNothing(p.cores[h].engine.callback, p.cores[h].engine.emitted);
    }
    if h in p.cores && S.Enabled(p.cores[h], a) {
      QuietActionKeepsCallback(p.cores[h], a);
    }
    assert OnCore(p, h, a).cores.Keys == p.cores.Keys;
  }

  lemma TalksTrans(p: State, q: State, r: State, h: CoreId)
    requires Talks(p, q, h) && Talks(q, r, h)
    ensures Talks(p, r, h)
  {
    if h in p.cores {
      EmitsTrans(p.cores[h].engine.callback, p.cores[h].engine.emitted,
                 q.cores[h].engine.emitted, r.cores[h].engine.emitted);
    }
  }

  lemma {:induction false} BatchTalks(p: State, h: CoreId, batch: seq<Arrival>)
    ensures var q := BatchProcessed(p, h, batch);
            Talks(p, q, h) && q == p.(cores := q.cores, calls := q.calls)
    decreases |batch|
  {
    hide Talks, OnCore;
    if batch == [] {
      NothingSaid(p, h);
    } else {
      var q := PacketProcessed(p, h, batch[0]);
      OnCoreTalks(p, h, S.ProcessPacket(batch[0].packet, batch[0].slot, batch[0].work));
      LogSaysNothing(p, h, S.ProcessPacket(batch[0].packet, batch[0].slot, batch[0].work), PacketGiven(h));
      BatchTalks(q, h, batch[1..]);
      TalksTrans(p, q, BatchProcessed(q, h, batch[1..]), h);
    }
  }

  lemma NothingSaid(p: State, h: CoreId)
    ensures Talks(p, p, h)
  {
  }

  lemma LogSaysNothing(p: State, h: CoreId, a: S.Action, call: CoreCall)
    requires Talks(p, OnCore(p, h, a), h)
    ensures var q := Logged(OnCore(p, h, a), call);
            Talks(p, q, h) && q == p.(cores := q.cores, calls := q.calls)
  {
  }

  /** The calls on the core's interface, in order, that go with this result. */
  function CallsOfMake(h: CoreId, r: Runtime): seq<CoreCall> {
    match r
    case Made(_) => [Created(h), CallbackSet(h), StartCalled(h)]
    case NotMade(CoreStartFailed) =>
      [Created(h), CallbackSet(h), StartCalled(h), CallbackCleared(h), Stopped(h)]
    case NotMade(_) => []
  }

  /** `makeRuntime` is all or nothing: it returns a fresh core with the given bridge as its
      callback context and started, or no core is left over; other cores are not touched. Each
      error has exactly its cause, and the calls made are those of the result. */
  lemma MakeRuntimeAllOrNothing(p: State, context: Context, w: StartWeather)
    requires p.nextCore !in p.cores
    ensures var (q, r) := MakeRuntime(p, context, w);
            && (r.Made? ==>
                  && r.core == p.nextCore
                  && q.cores.Keys == p.cores.Keys + {r.core}
                  && (forall g | g in p.cores :: q.cores[g] == p.cores[g])
                  && q.cores[r.core].started && q.cores[r.core].engine.callback == Some(context))
            && (r.NotMade? ==> q.cores == p.cores)
            && (r.Made? <==> Succeeds(w))
            && (r == NotMade(LoadThrew) <==> w.config.LoadThrows?)
            && (r == NotMade(MissingConfig) <==> w.config.NoConfig?)
            && (r == NotMade(BuildThrew) <==> w.config.Loaded? && !w.builds)
            && (r == NotMade(CoreCreateFailed) <==> w.config.Loaded? && w.builds && !w.creates)
            && (r == NotMade(CoreStartFailed) <==> w.config.Loaded? && w.builds && w.creates && w.refuses)
            && q.calls == p.calls + CallsOfMake(p.nextCore, r)
  {
    hide OnCore, StartOk;
    if w.config.Loaded? && w.builds && w.creates {
      FreshCoreStarts(p, context, w.refuses);
      assert MakeRuntime(p, context, w).0.calls
          == p.calls + CallsOfMake(p.nextCore, MakeRuntime(p, context, w).1) by {
        OnCoreKeepsBridge(StartRequested(CallbackInstalled(CoreCreated(p), p.nextCore, context), p.nextCore, w.refuses),
                          p.nextCore, S.ClearCallback);
      }
    }
  }

  /** A new core given a callback starts unless the manager refuses; clearing its callback
      and stopping it leaves the cores there were. */
  lemma FreshCoreStarts(p: State, context: Context, refuses: bool)
    requires p.nextCore !in p.cores
    ensures var h := p.nextCore;
            var p1 := CallbackInstalled(CoreCreated(p), h, context);
            var p2 := StartRequested(p1, h, refuses);
            && (StartOk(p1, h, refuses) <==> !refuses)
            && p2.cores.Keys == p.cores.Keys + {h}
            && (forall g | g in p.cores :: p2.cores[g] == p.cores[g])
            && p2.cores[h].engine.callback == Some(context)
            && (p2.cores[h].started <==> !refuses)
            && CoreStopped(CallbackRemoved(p2, h), h).cores == p.cores
            && p2.calls == p.calls + [Created(h), CallbackSet(h), StartCalled(h)]
  {
  }

  lemma StartLinks(p: State, w: StartWeather)
    requires Kept(p) && Linked(p) && p.rustHandle.None?
    ensures Linked(StartTunnel(p, w))
  {
    hide S.Inv, WellCalled, MakeRuntime;
    var p1 := BridgeInstalled(p);
    MakeRuntimeAllOrNothing(p1, p1.packetBridge.value, w);
    MakeRuntimeKeepsBridge(p1, p1.packetBridge.value, w);
  }

  lemma OnCoreKeepsBridge(p: State, h: CoreId, a: S.Action)
    ensures OnCore(p, h, a) == p.(cores := OnCore(p, h, a).cores)
  {
  }

  lemma MakeRuntimeKeepsBridge(p: State, context: Context, w: StartWeather)
    ensures var q := MakeRuntime(p, context, w).0;
            q == p.(cores := q.cores, nextCore := q.nextCore, calls := q.calls)
  {
    hide OnCore, StartOk;
    if w.config.Loaded? && w.builds && w.creates {
      var h := p.nextCore;
      var p1 := CoreCreated(p);
      var p2 := CallbackInstalled(p1, h, context);
      var p3 := StartRequested(p2, h, w.refuses);
      OnCoreKeepsBridge(p1, h, S.SetCallback(context));
      OnCoreKeepsBridge(p2, h, S.Start);
      OnCoreKeepsBridge(p3, h, S.ClearCallback);
    }
  }

  lemma StopUnlinks(p: State)
    requires Linked(p)
    ensures Linked(StopTunnel(p)) && StopTunnel(p).rustHandle.None?
  {
    if p.rustHandle.Some? {
      assert StopTunnel(p).cores.Keys == {};
    }
  }

  lemma PerformLinks(p: State, a: Act)
    requires Kept(p) && Linked(p) && (a.Starts? ==> p.rustHandle.None?)
    ensures Linked(Perform(p, a))
  {
    hide Kept, StartTunnel, StopTunnel, BatchProcessed, OnCore;
    match a
    case Starts(w) => StartLinks(p, w);
    case Reads(batch) =>
      if p.rustHandle.Some? { BatchTalks(p, p.rustHandle.value, batch); }
    case Works(h, action) =>
      if SessionAction(action) {
        OnCoreTalks(p, h, action);
        OnCoreKeepsBridge(p, h, action);
      }
    case Stops => StopUnlinks(p);
  }

  lemma {:induction false} RunLinks(p: State, acts: seq<Act>)
    requires Kept(p) && Linked(p) && Disciplined(p, acts)
    ensures Kept(PerformAll(p, acts)) && Linked(PerformAll(p, acts))
    decreases |acts|
  {
    hide Kept, Linked, Perform;
    if acts != [] {
      PerformKeeps(p, acts[0]);
      PerformLinks(p, acts[0]);
      RunLinks(Perform(p, acts[0]), acts[1..]);
    }
  }

  // ---------- What reaches a core ----------

  function PacketActions(batch: seq<Arrival>): (r: seq<S.Action>)
    ensures |r| == |batch|
    ensures forall i | 0 <= i < |batch| :: r[i] == S.ProcessPacket(batch[i].packet, batch[i].slot, batch[i].work)
  {
    seq(|batch|, i requires 0 <= i < |batch| => S.ProcessPacket(batch[i].packet, batch[i].slot, batch[i].work))
  }

  function PacketsIn(batch: seq<Arrival>): (r: seq<Packet>)
    ensures |r| == |batch| && forall i | 0 <= i < |batch| :: r[i] == batch[i].packet
  {
    seq(|batch|, i requires 0 <= i < |batch| => batch[i].packet)
  }

  /** A batch is a run of packet calls on its core, all of them and in order. */
  lemma {:induction false} BatchRuns(p: State, h: CoreId, batch: seq<Arrival>)
    requires h in p.cores && S.Exec(p.cores[h], PacketActions(batch)).Some?
    ensures h in BatchProcessed(p, h, batch).cores
    ensures BatchProcessed(p, h, batch).cores[h] == S.Exec(p.cores[h], PacketActions(batch)).value
    ensures BatchProcessed(p, h, batch).calls == p.calls + seq(|batch|, _ => PacketGiven(h))
    decreases |batch|
  {
    hide S.Next, S.Enabled;
    if batch != [] {
      assert PacketActions(batch)[1..] == PacketActions(batch[1..]);
      BatchRuns(PacketProcessed(p, h, batch[0]), h, batch[1..]);
    }
  }

  lemma {:induction false} BatchIsOffered(c: S.Core, batch: seq<Arrival>)
    requires S.Inv(c) && c.started && S.Exec(c, PacketActions(batch)).Some?
    requires S.Exec(c, PacketActions(batch)).value.fault.NoFault?
    ensures T.Offered(c, PacketActions(batch)) == PacketsIn(batch)
    decreases |batch|
  {
    hide S.Inv, S.Next, S.Enabled;
    var acts := PacketActions(batch);
    if batch != [] {
      var d := S.Next(c, acts[0]);
      assert acts[1..] == PacketActions(batch[1..]);
      assert S.Exec(d, acts[1..]).Some?;
      StillNoFault(d, acts[1..]);
      PacketIsOffered(c, acts[0]);
      BatchIsOffered(d, batch[1..]);
    }
  }

  lemma PacketIsOffered(c: S.Core, a: S.Action)
    requires S.Inv(c) && S.Enabled(c, a) && c.started && a.ProcessPacket? && S.Next(c, a).fault.NoFault?
    ensures S.Inv(S.Next(c, a)) && S.Next(c, a).started && T.OfferedBy(c, a) == [a.packet]
  {
    hide S.Inv;
    S.NextKeepsInv(c, a);
    T.StepEmits(c, a);
  }

  lemma StillNoFault(c: S.Core, acts: seq<S.Action>)
    requires S.Exec(c, acts).Some? && S.Exec(c, acts).value.fault.NoFault?
    ensures c.fault.NoFault?
  {
    hide S.Next;
  }

  /** The read loop feeds the stack: unless a packet aborts the process, the installed, started
      core's stack takes exactly the packets of the batch, once each and in order. */
  lemma EveryPacketReadIsIngested(acts: seq<Act>, batch: seq<Arrival>)
    ensures var p := PerformAll(IDLE, acts);
            && (p.rustHandle.None? ==> Perform(p, Reads(batch)) == p)
            && (p.rustHandle.Some? && p.rustHandle.value in p.cores && p.cores[p.rustHandle.value].started ==>
                  var (h, q) := (p.rustHandle.value, Perform(p, Reads(batch)));
                  var c := p.cores[h];
                  S.Exec(c, PacketActions(batch)).Some? && S.Exec(c, PacketActions(batch)).value.fault.NoFault? ==>
                    && h in q.cores
                    && PacketsOf(q.cores[h].engine.ingested) == PacketsOf(c.engine.ingested) + PacketsIn(batch)
                    && q.cores[h].engine.inbound == [])
  {
    hide S.Inv, S.Exec, WellCalled, BatchProcessed;
    var p := PerformAll(IDLE, acts);
    IdleKept();
    RunKeeps(IDLE, acts);
    if p.rustHandle.Some? && p.rustHandle.value in p.cores && p.cores[p.rustHandle.value].started {
      var h := p.rustHandle.value;
      if S.Exec(p.cores[h], PacketActions(batch)).Some?
         && S.Exec(p.cores[h], PacketActions(batch)).value.fault.NoFault? {
        BatchRuns(p, h, batch);
        BatchIsOffered(p.cores[h], batch);
        T.EveryOfferedPacketIsIngestedOnce(p.cores[h], PacketActions(batch));
      }
    }
  }

  /** A start, in any run, whatever is installed: it makes a new started core that calls back a
      new, retained bridge, or leaves the cores and the handle alone and no bridge; the bridge
      there was is released either way; and it makes exactly the calls of its result. */
  lemma StartsTakeEffect(acts: seq<Act>, w: StartWeather)
    ensures var (p, q) := (PerformAll(IDLE, acts), Perform(PerformAll(IDLE, acts), Starts(w)));
            var r := MakeRuntime(BridgeInstalled(p), p.nextBridge, w).1;
            && q.calls == p.calls + CallsOfMake(p.nextCore, r)
            && q.retains == p.retains + 1 && q.nextBridge == p.nextBridge + 1
            && (Succeeds(w) ==>
                  && r == Made(p.nextCore) && q.rustHandle == Some(p.nextCore)
                  && p.nextCore in q.cores && q.cores[p.nextCore].started
                  && q.cores[p.nextCore].engine.callback == Some(p.nextBridge)
                  && q.packetBridge == Some(p.nextBridge) && q.retained == {p.nextBridge})
            && (!Succeeds(w) ==>
                  && r.NotMade? && q.rustHandle == p.rustHandle && q.cores == p.cores
                  && q.packetBridge.None? && q.retained == {})
  {
    hide S.Inv, WellCalled, MakeRuntime, CallsOfMake;
    var p := PerformAll(IDLE, acts);
    IdleKept();
    RunKeeps(IDLE, acts);
    NextCoreIsFresh(p);
    BridgeStepsKeep(p);
    MakeRuntimeAllOrNothing(BridgeInstalled(p), p.nextBridge, w);
    MakeRuntimeKeepsBridge(BridgeInstalled(p), p.nextBridge, w);
  }

  /** A stop, in any run: the installed core is cleared and then stopped, its handle and the
      bridge are given up, and nothing else changes; with nothing installed nothing happens. */
  lemma StopsTakeEffect(acts: seq<Act>)
    ensures var (p, q) := (PerformAll(IDLE, acts), Perform(PerformAll(IDLE, acts), Stops));
            && q.rustHandle.None? && q.packetBridge.None? && q.retained == {}
            && q.cores == p.cores - Installed(p)
            && q.releases == p.releases + (if p.packetBridge.Some? then 1 else 0)
            && q.calls == p.calls + (if p.rustHandle.Some?
                                     then [CallbackCleared(p.rustHandle.value), Stopped(p.rustHandle.value)] else [])
  {
    hide S.Inv, WellCalled, S.Stepped;
    var p := PerformAll(IDLE, acts);
    IdleKept();
    RunKeeps(IDLE, acts);
    if p.rustHandle.Some? { OnCoreKeepsBridge(p, p.rustHandle.value, S.ClearCallback); }
  }

  /** Some run of the session protocol ends in this core. */
  ghost predicate Lives(c: S.Core) {
    exists run :: T.Reaches(run, c)
  }

  ghost predicate AllLive(cores: map<CoreId, S.Core>) {
    forall h | h in cores :: Lives(cores[h])
  }

  lemma NewCoreLives()
    ensures Lives(S.INITIAL)
  {
    assert T.Reaches([], S.INITIAL);
  }

  lemma SteppedLives(c: S.Core, a: S.Action)
    requires Lives(c)
    ensures Lives(S.Stepped(c, a))
  {
    hide S.Next, S.Enabled;
    if S.Enabled(c, a) {
      var run :| T.Reaches(run, c);
      T.ExecAppends(S.INITIAL, run, a);
      assert T.Reaches(run + [a], S.Next(c, a));
    }
  }

  lemma OnCoreLives(p: State, h: CoreId, a: S.Action)
    requires AllLive(p.cores)
    ensures AllLive(OnCore(p, h, a).cores)
  {
    hide S.Stepped, Lives;
    if h in p.cores { SteppedLives(p.cores[h], a); }
  }

  lemma MakeRuntimeLives(p: State, context: Context, w: StartWeather)
    requires AllLive(p.cores)
    ensures AllLive(MakeRuntime(p, context, w).0.cores)
  {
    hide OnCore, StartOk, Lives;
    var h := p.nextCore;
    var p1 := CoreCreated(p);
    var p2 := CallbackInstalled(p1, h, context);
    var p3 := StartRequested(p2, h, w.refuses);
    NewCoreLives();
    OnCoreLives(p1, h, S.SetCallback(context));
    OnCoreLives(p2, h, S.Start);
    OnCoreLives(p3, h, S.ClearCallback);
  }

  lemma {:induction false} BatchLives(p: State, h: CoreId, batch: seq<Arrival>)
    requires AllLive(p.cores)
    ensures AllLive(BatchProcessed(p, h, batch).cores)
    decreases |batch|
  {
    hide OnCore, AllLive;
    if batch != [] {
      OnCoreLives(p, h, S.ProcessPacket(batch[0].packet, batch[0].slot, batch[0].work));
      BatchLives(PacketProcessed(p, h, batch[0]), h, batch[1..]);
    }
  }

  lemma PerformLives(p: State, a: Act)
    requires AllLive(p.cores)
    ensures AllLive(Perform(p, a).cores)
  {
    hide OnCore, MakeRuntime, BatchProcessed, Lives;
    match a
    case Starts(w) =>
      var p1 := BridgeInstalled(p);
      MakeRuntimeLives(p1, p1.packetBridge.value, w);
    case Reads(batch) => if p.rustHandle.Some? { BatchLives(p, p.rustHandle.value, batch); }
    case Works(h, action) => OnCoreLives(p, h, action);
    case Stops => if p.rustHandle.Some? { OnCoreLives(p, p.rustHandle.value, S.ClearCallback); }
  }

  /** Every core that lives in any run of the provider is at the end of a run of the session
      protocol: all that holds of every such run holds of it. */
  lemma {:induction false} CoresRunTheProtocol(p: State, acts: seq<Act>)
    requires AllLive(p.cores)
    ensures forall h | h in PerformAll(p, acts).cores :: exists run :: T.Reaches(run, PerformAll(p, acts).cores[h])
    decreases |acts|
  {
    hide Perform;
    if acts != [] {
      PerformLives(p, acts[0]);
      CoresRunTheProtocol(Perform(p, acts[0]), acts[1..]);
    } else {
      assert forall h | h in p.cores :: Lives(p.cores[h]);
    }
  }

  /** A session task's step is taken by its core and by no other. */
  lemma TaskStepsReachTheirCore(p: State, h: CoreId, a: S.Action)
    requires h in p.cores && S.Enabled(p.cores[h], a)
    requires !a.SetCallback? && !a.ClearCallback? && !a.Start? && !a.ProcessPacket?
    ensures Perform(p, Works(h, a)) == p.(cores := p.cores[h := S.Next(p.cores[h], a)])
  {
    hide S.Next, S.Enabled;
  }

  // ---------- Theorems ----------

  /** In every run, disciplined or not, retains minus releases is 0 or 1 and tells whether a
      bridge is installed; the installed bridge is the only retained one. */
  lemma RetainsBalance(acts: seq<Act>)
    ensures var p := PerformAll(IDLE, acts);
            && p.retains - p.releases == (if p.packetBridge.Some? then 1 else 0)
            && (forall b :: b in p.retained <==> p.packetBridge == Some(b))
  {
    IdleKept();
    RunKeeps(IDLE, acts);
    hide S.Inv, WellCalled;
  }

  /** In every run each stop directly follows a clear of the same handle, no handle is used
      after its stop (so none is stopped twice), and the installed handle is a live core. */
  lemma HandleProtocol(acts: seq<Act>)
    ensures var p := PerformAll(IDLE, acts);
            && (forall i | 0 <= i < |p.calls| && p.calls[i].Stopped? ::
                  i > 0 && p.calls[i - 1] == CallbackCleared(p.calls[i].core))
            && (forall i, j | 0 <= i < j < |p.calls| && p.calls[i].Stopped? :: p.calls[j].core != p.calls[i].core)
            && (forall i | 0 <= i < |p.calls| && p.calls[i].Stopped? :: p.calls[i].core !in p.cores)
            && (p.rustHandle.Some? ==> p.rustHandle.value in p.cores)
  {
    IdleKept();
    RunKeeps(IDLE, acts);
    hide S.Inv;
  }

  /** In a disciplined run every callback invocation of any action carries the bridge that is
      installed and retained at that moment. */
  lemma InvocationsCarryTheRetainedBridge(acts: seq<Act>, a: Act, h: CoreId)
    requires Disciplined(IDLE, acts) && (a.Starts? ==> PerformAll(IDLE, acts).rustHandle.None?)
    requires h in PerformAll(IDLE, acts).cores && h in Perform(PerformAll(IDLE, acts), a).cores
    ensures var (p, q) := (PerformAll(IDLE, acts), Perform(PerformAll(IDLE, acts), a));
            var (before, after) := (p.cores[h].engine.emitted, q.cores[h].engine.emitted);
            before <= after && forall i | |before| <= i < |after| ::
              p.packetBridge == Some(after[i].context) && after[i].context in p.retained
  {
    hide S.Inv, WellCalled, OnCore, BatchProcessed;
    IdleKept();
    RunLinks(IDLE, acts);
    var p := PerformAll(IDLE, acts);
    match a
    case Reads(batch) => if p.rustHandle.Some? { BatchTalks(p, p.rustHandle.value, batch); }
    case Works(g, action) => if SessionAction(action) { OnCoreTalks(p, g, action); }
    case Stops =>
    case Starts(_) =>
  }

  /** Teardown is ordered: in a disciplined run no bridge is ever released while a live core
      would still call it back. And the discipline is needed, exactly: whatever a start meets,
      it releases a bridge in use if and only if a runtime was installed. */
  lemma ReleasesAreOrderedIffDisciplined(acts: seq<Act>, w: StartWeather)
    requires Disciplined(IDLE, acts)
    ensures var p := PerformAll(IDLE, acts);
            !p.exposed && (StartTunnel(p, w).exposed <==> p.rustHandle.Some?)
  {
    var p := PerformAll(IDLE, acts);
    IdleKept();
    RunLinks(IDLE, acts);
    hide S.Inv, WellCalled, MakeRuntime;
    if p.rustHandle.Some? {
      assert p.cores[p.rustHandle.value].engine.callback == p.packetBridge;
      MakeRuntimeKeepsBridge(BridgeInstalled(p), p.nextBridge, w);
    } else {
      StartLinks(p, w);
    }
  }

  /** A disciplined run ends with one started core that calls back the one retained bridge,
      or with nothing at all. */
  lemma RunIsLinked(acts: seq<Act>)
    requires Disciplined(IDLE, acts)
    ensures var p := PerformAll(IDLE, acts);
            match p.rustHandle
            case None => p.cores == map[] && p.packetBridge.None? && p.retained == {} && p.retains == p.releases
            case Some(h) =>
              p.cores.Keys == {h} && p.cores[h].started && p.packetBridge.Some?
              && p.cores[h].engine.callback == p.packetBridge && p.retained == {p.packetBridge.value}
  {
    IdleKept();
    RunLinks(IDLE, acts);
    hide S.Inv, WellCalled;
  }

  function Installed(p: State): set<CoreId> {
    if p.rustHandle.Some? then {p.rustHandle.value} else {}
  }

  /** The runtimes that a run replaces: each was installed when another start succeeded. */
  function Replaced(p: State, acts: seq<Act>): set<CoreId>
    decreases |acts|
  {
    if acts == [] then {}
    else (if acts[0].Starts? && Succeeds(acts[0].weather) then Installed(p) else {})
         + Replaced(Perform(p, acts[0]), acts[1..])
  }

  /** Nothing installed means no bridge either, disciplined or not. */
  ghost predicate Paired(p: State) {
    p.rustHandle.None? ==> p.packetBridge.None?
  }

  lemma StartChangesCores(p: State, w: StartWeather)
    requires Kept(p) && Paired(p)
    ensures var q := StartTunnel(p, w);
            && Paired(q)
            && (Succeeds(w) ==> q.rustHandle == Some(p.nextCore) && q.cores.Keys == p.cores.Keys + {p.nextCore})
            && (!Succeeds(w) ==> q.rustHandle == p.rustHandle && q.cores == p.cores)
  {
    hide S.Inv, WellCalled, MakeRuntime;
    var p1 := BridgeInstalled(p);
    NextCoreIsFresh(p);
    MakeRuntimeAllOrNothing(p1, p1.packetBridge.value, w);
    MakeRuntimeKeepsBridge(p1, p1.packetBridge.value, w);
  }

  lemma StopRemovesTheCore(p: State)
    ensures var q := StopTunnel(p);
            q.rustHandle.None? && q.packetBridge.None? && q.cores.Keys == p.cores.Keys - Installed(p)
  {
    hide S.Stepped;
    if p.rustHandle.Some? {
      OnCoreKeepsBridge(p, p.rustHandle.value, S.ClearCallback);
    }
  }

  ghost predicate Leaves(p: State, q: State, more: set<CoreId>) {
    Paired(q) && q.cores.Keys - Installed(q) == p.cores.Keys - Installed(p) + more
  }

  lemma StartLeavesCores(p: State, w: StartWeather)
    requires Kept(p) && Paired(p)
    ensures Leaves(p, StartTunnel(p, w), if Succeeds(w) then Installed(p) else {})
  {
    hide S.Inv, WellCalled, StartTunnel;
    NextCoreIsFresh(p);
    StartChangesCores(p, w);
  }

  lemma SameCoresLeaveNone(p: State, q: State)
    requires Paired(p) && q == p.(cores := q.cores, calls := q.calls) && q.cores.Keys == p.cores.Keys
    ensures Leaves(p, q, {})
  {
  }

  lemma StopLeavesNone(p: State)
    ensures Leaves(p, StopTunnel(p), {})
  {
    hide StopTunnel;
    StopRemovesTheCore(p);
  }

  /** What one action adds to the cores that exist beside the installed one. */
  lemma StepLeavesCores(p: State, a: Act)
    requires Kept(p) && Paired(p)
    ensures Leaves(p, Perform(p, a), if a.Starts? && Succeeds(a.weather) then Installed(p) else {})
  {
    hide S.Inv, WellCalled, OnCore, StartTunnel, StopTunnel, BatchProcessed, Succeeds, Leaves, Paired, Installed;
    match a
    case Starts(w) => StartLeavesCores(p, w);
    case Reads(batch) =>
      if p.rustHandle.Some? { BatchKeeps(p, p.rustHandle.value, batch); }
      SameCoresLeaveNone(p, Perform(p, a));
    case Works(h, action) =>
      OnCoreKeeps(p, h, action);
      OnCoreKeepsBridge(p, h, action);
      SameCoresLeaveNone(p, Perform(p, a));
    case Stops => StopLeavesNone(p);
  }

  lemma {:induction false} RunLeavesCores(p: State, acts: seq<Act>)
    requires Kept(p) && Paired(p)
    ensures var q := PerformAll(p, acts);
            && Kept(q) && Paired(q)
            && q.cores.Keys - Installed(q) == p.cores.Keys - Installed(p) + Replaced(p, acts)
    decreases |acts|
  {
    hide Kept, Perform, Paired, Installed;
    if acts != [] {
      PerformKeeps(p, acts[0]);
      StepLeavesCores(p, acts[0]);
      RunLeavesCores(Perform(p, acts[0]), acts[1..]);
    }
  }

  /** In every run, disciplined or not, the cores that exist are the installed one and those
      replaced by a start that succeeded while they were installed; a start that failed, for
      whatever reason, leaves none behind. */
  lemma CoresAreInstalledOrReplaced(acts: seq<Act>)
    ensures var p := PerformAll(IDLE, acts);
            && p.cores.Keys == Replaced(IDLE, acts) + Installed(p)
            && Replaced(IDLE, acts) !! Installed(p)
  {
    hide WellCalled, S.Inv, Replaced, PerformAll;
    IdleKept();
    RunLeavesCores(IDLE, acts);
  }

  lemma {:induction false} DisciplineReplacesNone(p: State, acts: seq<Act>)
    requires Disciplined(p, acts)
    ensures Replaced(p, acts) == {}
    decreases |acts|
  {
    hide Perform;
    if acts != [] { DisciplineReplacesNone(Perform(p, acts[0]), acts[1..]); }
  }

  /** After any run that ends stopped no bridge is retained, and no core is alive if and only
      if no start ever succeeded over an installed runtime, as in every disciplined run. */
  lemma StoppedMeansClean(acts: seq<Act>)
    requires PerformAll(IDLE, acts).rustHandle.None?
    ensures var p := PerformAll(IDLE, acts);
            && p.retained == {} && p.retains == p.releases
            && (p.cores == map[] <==> Replaced(IDLE, acts) == {})
            && (Disciplined(IDLE, acts) ==> p.cores == map[])
  {
    hide WellCalled, S.Inv, Replaced, PerformAll, Disciplined;
    IdleKept();
    RunLeavesCores(IDLE, acts);
    CoresAreInstalledOrReplaced(acts);
    if Disciplined(IDLE, acts) { DisciplineReplacesNone(IDLE, acts); }
  }

  /** The installed core calls back with a retained bridge, or with none. */
  ghost predicate CallsBackSafely(p: State) {
    p.rustHandle.Some? && p.rustHandle.value in p.cores && p.cores[p.rustHandle.value].engine.callback.Some? ==>
      p.cores[p.rustHandle.value].engine.callback.value in p.retained
  }

  /** The discipline is needed, exactly: from a state of a disciplined run a start leaves the
      installed core with a retained bridge, whatever the start meets, if and only if no
      runtime was installed. A second start that finds no configuration releases the new
      bridge, has already released the old one, and leaves the old core in place. */
  lemma StartIsSafeIffNothingInstalled(acts: seq<Act>)
    requires Disciplined(IDLE, acts)
    ensures var p := PerformAll(IDLE, acts);
            (forall w :: CallsBackSafely(StartTunnel(p, w))) <==> p.rustHandle.None?
  {
    var p := PerformAll(IDLE, acts);
    IdleKept();
    RunLinks(IDLE, acts);
    hide S.Inv, WellCalled;
    if p.rustHandle.None? {
      forall w ensures CallsBackSafely(StartTunnel(p, w)) {
        LinkedStartIsSafe(p, w);
      }
    } else {
      assert !CallsBackSafely(StartTunnel(p, StartWeather(NoConfig, true, true, false)));
    }
  }

  lemma LinkedStartIsSafe(p: State, w: StartWeather)
    requires Kept(p) && Linked(p) && p.rustHandle.None?
    ensures CallsBackSafely(StartTunnel(p, w))
  {
    hide StartTunnel, S.Inv, WellCalled;
    StartLinks(p, w);
    PerformKeeps(p, Starts(w));
    assert StartTunnel(p, w) == Perform(p, Starts(w));
  }
}
