/** The Swift side as objects, down to the cores' own objects: the core manager, the runtime
    coordinator and the packet tunnel provider, each method proved to do what Provider.dfy
    says, and a driver that carries the theorems about every run over to the objects. */
module Tunnel {
  import opened Net
  import opened EngineModel
  import opened Provider
  import opened Lib
  import S = Sessions

  lemma NoSuchCore(p: State, h: CoreId, a: S.Action)
    requires h !in p.cores
    ensures OnCore(p, h, a) == p
  {
  }

  /** The cores have handles below `next` and share no object, with each other or `owner`. */
  ghost predicate Separate(cores: map<CoreId, CoreContext>, next: CoreId, repr: set<object>, owner: object) {
    && (forall h | h in cores :: h < next && cores[h].Parts() <= repr && owner !in cores[h].Parts())
    && (forall g, h | g in cores && h in cores && g != h :: cores[g].Parts() !! cores[h].Parts())
  }

  lemma SeparateAdd(cores: map<CoreId, CoreContext>, next: CoreId, repr: set<object>, owner: object,
                    context: CoreContext)
    requires Separate(cores, next, repr, owner) && context.Parts() !! repr && owner in repr
    ensures Separate(cores[next := context], next + 1, repr + context.Parts(), owner)
  {
    hide CoreContext.Parts;
    var all := cores[next := context];
    forall g, h | g in all && h in all && g != h ensures all[g].Parts() !! all[h].Parts() {
      if g != next { assert cores[g].Parts() <= repr; }
      if h != next { assert cores[h].Parts() <= repr; }
    }
  }

  class StunnelCoreManager {
    var cores: map<CoreId, CoreContext>
    var nextCore: CoreId
    ghost var calls: seq<CoreCall>
    ghost var repr: set<object>

    /** The live cores share nothing, and every handle that exists or was ever used is one
        that was given out. */
    ghost predicate Valid()
      reads this, repr
    {
      && this in repr
      && Separate(cores, nextCore, repr, this)
      && (forall h | h in cores :: cores[h].Valid())
      && (forall i | 0 <= i < |calls| :: calls[i].core < nextCore)
    }

    /** The manager's part of the state, with no provider around it. */
    ghost function View(): (p: State)
      requires Valid()
      reads this, repr
      ensures p.cores.Keys == cores.Keys && p.nextCore == nextCore && p.calls == calls
    {
      State(map h | h in cores :: cores[h].Core(), nextCore, calls, None, None, 0, {}, 0, 0, false)
    }

    constructor ()
      ensures Valid() && View() == IDLE && fresh(repr)
    {
      cores, nextCore, calls, repr := map[], 0, [], {this};
    }

    /** A new core's handle was never given before: it names no live core and no past call. */
    method Create(creates: bool) returns (handle: Option<CoreId>)
      requires Valid()
      modifies this
      ensures Valid() && fresh(repr - old(repr)) && old(repr) <= repr
      ensures handle.Some? <==> creates
      ensures handle.Some? ==> handle.value !in old(cores) && handle.value in cores
                               && forall i | 0 <= i < |old(calls)| :: old(calls)[i].core != handle.value
      ensures handle == if creates then Some(old(nextCore)) else None
      ensures View() == if creates then CoreCreated(old(View())) else old(View())
    {
      hide Valid, View, CoreContext.Valid, CoreContext.Core, CoreContext.Parts;
      if !creates {
        return None;
      }
      var context := new CoreContext();
      handle := Some(nextCore);
      Adopt(context);
      Log(Created(handle.value));
    }

    /** Enters a new core, which shares nothing with the others, under the next handle. */
    method Adopt(context: CoreContext)
      requires Valid() && context.Valid() && context.Core() == S.INITIAL && context.Parts() !! repr
      modifies this
      ensures Valid() && repr == old(repr) + context.Parts() && calls == old(calls)
      ensures forall i | 0 <= i < |calls| :: calls[i].core < old(nextCore)
      ensures nextCore == old(nextCore) + 1 && old(nextCore) !in old(cores)
      ensures View() == old(View()).(cores := old(View()).cores[old(nextCore) := S.INITIAL],
              nextCore := old(nextCore) + 1)
    {
      hide CoreContext.Valid, CoreContext.Core, CoreContext.Parts;
      ghost var before := View();
      SeparateAdd(cores, nextCore, repr, this, context);
      cores := cores[nextCore := context];
      nextCore := nextCore + 1;
      repr := repr + context.Parts();
      assert View().cores == before.cores[nextCore - 1 := S.INITIAL];
    }

    /** One call on one core leaves the others alone. */
    lemma OneCoreStepped(before: State, h: CoreId, action: S.Action)
      requires Valid() && h in cores
      requires before == View().(cores := before.cores) && before.cores.Keys == cores.Keys
      requires forall g | g in cores && g != h :: cores[g].Core() == before.cores[g]
      requires cores[h].Core() == S.Stepped(before.cores[h], action)
      ensures View() == OnCore(before, h, action)
    {
      hide S.Stepped, CoreContext.Valid, CoreContext.Core, CoreContext.Parts;
      assert View().cores == before.cores[h := cores[h].Core()];
    }

    ghost method Log(call: CoreCall)
      requires Valid() && call.core < nextCore
      modifies this`calls
      ensures Valid() && View() == Logged(old(View()), call)
    {
      hide CoreContext.Valid, CoreContext.Core, CoreContext.Parts;
      ghost var before := View();
      calls := calls + [call];
      assert View().cores == before.cores;
    }

    method SetPacketCallback(handle: CoreId, context: Context)
      requires Valid() && handle < nextCore
      modifies this, repr
      ensures Valid() && repr == old(repr) && nextCore == old(nextCore)
      ensures View() == CallbackInstalled(old(View()), handle, context)
    {
      hide Valid, View, OnCore;
      Perform(handle, S.SetCallback(context));
      Log(CallbackSet(handle));
    }

    method Start(handle: CoreId, refuses: bool) returns (ok: bool)
      requires Valid() && handle < nextCore
      modifies this, repr
      ensures Valid() && repr == old(repr) && nextCore == old(nextCore)
      ensures View() == StartRequested(old(View()), handle, refuses)
      ensures ok == StartOk(old(View()), handle, refuses)
    {
      hide Valid, View, OnCore;
      ok := false;
      if !refuses {
        ok := StartCore(handle);
      }
      Log(StartCalled(handle));
    }

    method StartCore(handle: CoreId) returns (ok: bool)
      requires Valid()
      modifies this, repr
      ensures Valid() && repr == old(repr) && nextCore == old(nextCore)
      ensures View() == OnCore(old(View()), handle, S.Start)
      ensures ok == StartOk(old(View()), handle, false)
    {
      hide OnCore, S.Stepped, CoreContext.Valid, CoreContext.Core;
      ghost var before := View();
      ok := false;
      if handle in cores {
        ok := cores[handle].Start();
        OneCoreStepped(before, handle, S.Start);
      } else {
        NoSuchCore(before, handle, S.Start);
      }
    }

    method ClearPacketCallback(handle: CoreId)
      requires Valid() && handle < nextCore
      modifies this, repr
      ensures Valid() && repr == old(repr) && nextCore == old(nextCore)
      ensures View() == CallbackRemoved(old(View()), handle)
    {
      hide Valid, View, OnCore;
      Perform(handle, S.ClearCallback);
      Log(CallbackCleared(handle));
    }

    method Stop(handle: CoreId)
      requires Valid() && handle < nextCore
      modifies this
      ensures Valid() && repr == old(repr) && nextCore == old(nextCore)
      ensures View() == CoreStopped(old(View()), handle)
    {
      hide Valid, View, CoreContext.Valid, CoreContext.Core, CoreContext.Parts;
      Forget(handle);
      Log(Stopped(handle));
    }

    method Forget(handle: CoreId)
      requires Valid()
      modifies this`cores
      ensures Valid() && View() == old(View()).(cores := old(View()).cores - {handle})
    {
      hide CoreContext.Valid, CoreContext.Core, CoreContext.Parts;
      ghost var before := View();
      cores := cores - {handle};
      assert View().cores == before.cores - {handle};
    }

    /** One action of a task of a live core, or of nobody. */
    method Perform(handle: CoreId, action: S.Action)
      requires Valid()
      modifies this, repr
      ensures Valid() && repr == old(repr) && nextCore == old(nextCore)
      ensures View() == OnCore(old(View()), handle, action)
    {
      hide OnCore, S.Stepped, CoreContext.Valid, CoreContext.Core;
      ghost var before := View();
      if handle in cores {
        cores[handle].Perform(action);
        OneCoreStepped(before, handle, action);
      } else {
        NoSuchCore(before, handle, action);
      }
    }

    method ProcessPacket(handle: CoreId, a: Arrival)
      requires Valid() && handle < nextCore
      modifies this, repr
      ensures Valid() && repr == old(repr) && nextCore == old(nextCore)
      ensures View() == PacketProcessed(old(View()), handle, a)
    {
      hide S.Stepped, CoreContext.Valid, CoreContext.Core;
      Perform(handle, S.ProcessPacket(a.packet, a.slot, a.work));
      Log(PacketGiven(handle));
    }
  }

  class PacketTunnelRuntimeCoordinator {
    const coreManager: StunnelCoreManager

    constructor (coreManager: StunnelCoreManager)
      ensures this.coreManager == coreManager
    {
      this.coreManager := coreManager;
    }

    method MakeRuntimeHandle(context: Context, w: StartWeather) returns (runtime: Runtime)
      requires coreManager.Valid()
      modifies coreManager, coreManager.repr
      ensures coreManager.Valid() && fresh(coreManager.repr - old(coreManager.repr))
      ensures old(coreManager.repr) <= coreManager.repr
      ensures (coreManager.View(), runtime) == MakeRuntime(old(coreManager.View()), context, w)
      ensures runtime.Made? ==> runtime.core < coreManager.nextCore
      ensures old(coreManager.nextCore) <= coreManager.nextCore
    {
      hide OnCore, StartOk, StunnelCoreManager.Valid, StunnelCoreManager.View;
      match w.config {
        case LoadThrows => return NotMade(LoadThrew);
        case NoConfig => return NotMade(MissingConfig);
        case Loaded =>
      }
      if !w.builds {
        return NotMade(BuildThrew);
      }
      var handle := coreManager.Create(w.creates);
      if handle.None? {
        return NotMade(CoreCreateFailed);
      }
      coreManager.SetPacketCallback(handle.value, context);
      var ok := coreManager.Start(handle.value, w.refuses);
      if !ok {
        coreManager.ClearPacketCallback(handle.value);
        coreManager.Stop(handle.value);
        return NotMade(CoreStartFailed);
      }
      runtime := Made(handle.value);
    }

    method StopRuntimeHandle(handle: Option<CoreId>)
      requires coreManager.Valid() && (handle.Some? ==> handle.value < coreManager.nextCore)
      modifies coreManager, coreManager.repr
      ensures coreManager.Valid() && coreManager.repr == old(coreManager.repr)
      ensures coreManager.View() == StopRuntime(old(coreManager.View()), handle)
    {
      hide OnCore, StunnelCoreManager.Valid, StunnelCoreManager.View;
      if handle.None? {
        return;
      }
      coreManager.ClearPacketCallback(handle.value);
      coreManager.Stop(handle.value);
    }
  }

  /** `q` is the manager's part of `p`. */
  ghost predicate SamePlatform(p: State, q: State) {
    p.cores == q.cores && p.nextCore == q.nextCore && p.calls == q.calls
  }

  lemma CallIgnoresTheProvider(p: State, q: State, h: CoreId, a: S.Action)
    requires SamePlatform(p, q)
    ensures OnCore(p, h, a) == p.(cores := OnCore(q, h, a).cores)
    ensures OnCore(q, h, a) == q.(cores := OnCore(q, h, a).cores)
  {
  }

  lemma MakingIgnoresTheProvider(p: State, q: State, context: Context, w: StartWeather)
    requires SamePlatform(p, q)
    ensures var (a, b) := (MakeRuntime(p, context, w), MakeRuntime(q, context, w));
            SamePlatform(a.0, b.0) && a.1 == b.1
            && a.0 == p.(cores := a.0.cores, nextCore := a.0.nextCore, calls := a.0.calls)
  {
    hide OnCore;
    if w.config.Loaded? && w.builds && w.creates {
      var h := p.nextCore;
      var (p1, q1) := (CoreCreated(p), CoreCreated(q));
      CallIgnoresTheProvider(p1, q1, h, S.SetCallback(context));
      var (p2, q2) := (CallbackInstalled(p1, h, context), CallbackInstalled(q1, h, context));
      CallIgnoresTheProvider(p2, q2, h, S.Start);
      var (p3, q3) := (StartRequested(p2, h, w.refuses), StartRequested(q2, h, w.refuses));
      CallIgnoresTheProvider(p3, q3, h, S.ClearCallback);
    }
  }

  lemma StoppingIgnoresTheProvider(p: State, q: State, handle: Option<CoreId>)
    requires SamePlatform(p, q)
    ensures var (a, b) := (StopRuntime(p, handle), StopRuntime(q, handle));
            SamePlatform(a, b) && a == p.(cores := a.cores, calls := a.calls)
  {
    hide OnCore;
    if handle.Some? { CallIgnoresTheProvider(p, q, handle.value, S.ClearCallback); }
  }

  class PacketTunnelProvider {
    const coordinator: PacketTunnelRuntimeCoordinator
    var rustHandle: Option<CoreId>
    var packetBridgeContext: Option<Context>
    var nextBridge: Context
    ghost var retained: set<Context>
    ghost var retains: nat
    ghost var releases: nat
    ghost var exposed: bool

    ghost function Manager(): StunnelCoreManager {
      coordinator.coreManager
    }

    ghost predicate Valid()
      reads this, Manager(), Manager().repr
    {
      && Manager().Valid() && this !in Manager().repr
      && (rustHandle.Some? ==> rustHandle.value < Manager().nextCore)
    }

    ghost function Abs(): State
      requires Valid()
      reads this, Manager(), Manager().repr
    {
      Manager().View().(rustHandle := rustHandle, packetBridge := packetBridgeContext, nextBridge := nextBridge,
                        retained := retained, retains := retains, releases := releases, exposed := exposed)
    }

    constructor ()
      ensures Valid() && Abs() == IDLE && fresh(Manager().repr)
    {
      var coreManager := new StunnelCoreManager();
      coordinator := new PacketTunnelRuntimeCoordinator(coreManager);
      rustHandle, packetBridgeContext, nextBridge := None, None, 0;
      retained, retains, releases, exposed := {}, 0, 0, false;
    }

    method ReleasePacketBridge()
      requires Valid()
      modifies this
      ensures Valid() && rustHandle == old(rustHandle) && nextBridge == old(nextBridge)
      ensures Abs() == BridgeReleased(old(Abs()))
    {
      hide StunnelCoreManager.Valid, StunnelCoreManager.View, CalledBack;
      if packetBridgeContext.None? {
        return;
      }
      exposed := exposed || CalledBack(Abs(), packetBridgeContext.value);
      retained, releases := retained - {packetBridgeContext.value}, releases + 1;
      packetBridgeContext := None;
    }

    method InstallPacketBridge()
      requires Valid()
      modifies this
      ensures Valid() && rustHandle == old(rustHandle) && packetBridgeContext == Some(old(nextBridge))
      ensures Abs() == BridgeInstalled(old(Abs()))
    {
      hide StunnelCoreManager.Valid, StunnelCoreManager.View, BridgeReleased;
      ReleasePacketBridge();
      packetBridgeContext := Some(nextBridge);
      retained, retains := retained + {nextBridge}, retains + 1;
      nextBridge := nextBridge + 1;
    }

    method Start(w: StartWeather) returns (error: Option<StartError>)
      requires Valid()
      modifies this, Manager(), Manager().repr
      ensures Valid() && fresh(Manager().repr - old(Manager().repr))
      ensures Abs() == StartTunnel(old(Abs()), w)
      ensures error.None? <==> MakeRuntime(BridgeInstalled(old(Abs())), old(nextBridge), w).1.Made?
    {
      hide StunnelCoreManager.Valid, StunnelCoreManager.View, BridgeReleased, BridgeInstalled, MakeRuntime;
      InstallPacketBridge();
      ghost var p1 := Abs();
      MakingIgnoresTheProvider(p1, Manager().View(), packetBridgeContext.value, w);
      var runtime := coordinator.MakeRuntimeHandle(packetBridgeContext.value, w);
      assert Abs() == MakeRuntime(p1, packetBridgeContext.value, w).0;
      match runtime {
        case NotMade(e) =>
          ReleasePacketBridge();
          error := Some(e);
        case Made(h) =>
          rustHandle := Some(h);
          error := None;
      }
    }

    method StopCoreRuntime()
      requires Valid()
      modifies this, Manager(), Manager().repr
      ensures Valid() && Manager().repr == old(Manager().repr)
      ensures Abs() == StopTunnel(old(Abs()))
    {
      hide StunnelCoreManager.Valid, StunnelCoreManager.View, BridgeReleased, StopRuntime;
      ghost var p := Abs();
      StoppingIgnoresTheProvider(p, Manager().View(), rustHandle);
      coordinator.StopRuntimeHandle(rustHandle);
      assert Abs() == StopRuntime(p, rustHandle);
      rustHandle := None;
      ReleasePacketBridge();
    }

    /** One batch of the read loop. */
    method Read(batch: seq<Arrival>)
      requires Valid()
      modifies this, Manager(), Manager().repr
      ensures Valid() && Manager().repr == old(Manager().repr)
      ensures Abs() == ReadPackets(old(Abs()), batch)
    {
      hide StunnelCoreManager.Valid, StunnelCoreManager.View, OnCore;
      if rustHandle.None? {
        return;
      }
      var handle := rustHandle.value;
      var i := 0;
      assert batch[0..] == batch;
      while i < |batch|
        invariant i <= |batch|
        invariant Valid() && rustHandle == Some(handle) && Manager().repr == old(Manager().repr)
        invariant BatchProcessed(Abs(), handle, batch[i..]) == BatchProcessed(old(Abs()), handle, batch)
      {
        ghost var p := Abs();
        CallIgnoresTheProvider(p, Manager().View(), handle,
                               S.ProcessPacket(batch[i].packet, batch[i].slot, batch[i].work));
        coordinator.coreManager.ProcessPacket(handle, batch[i]);
        assert Abs() == PacketProcessed(p, handle, batch[i]);
        assert batch[i..][1..] == batch[i + 1..];
        i := i + 1;
      }
      assert batch[i..] == [];
    }

    /** A session task of a live core takes one step. */
    method Work(handle: CoreId, action: S.Action)
      requires Valid()
      modifies Manager(), Manager().repr
      ensures Valid() && Manager().repr == old(Manager().repr)
      ensures Abs() == Provider.Perform(old(Abs()), Works(handle, action))
    {
      hide StunnelCoreManager.Valid, StunnelCoreManager.View, OnCore;
      if SessionAction(action) {
        CallIgnoresTheProvider(Abs(), Manager().View(), handle, action);
        coordinator.coreManager.Perform(handle, action);
      }
    }

    method Perform(act: Act)
      requires Valid()
      modifies this, Manager(), Manager().repr
      ensures Valid() && fresh(Manager().repr - old(Manager().repr))
      ensures Abs() == Provider.Perform(old(Abs()), act)
    {
      hide Valid, Abs, StartTunnel, StopTunnel, ReadPackets;
      match act {
        case Starts(w) => var _ := Start(w);
        case Reads(batch) => Read(batch);
        case Works(h, action) => Work(h, action);
        case Stops => StopCoreRuntime();
      }
    }

    /** Any run of the object is the run that the theorems of Provider.dfy speak about. */
    method Run(acts: seq<Act>)
      requires Valid()
      modifies this, Manager(), Manager().repr
      ensures Valid() && fresh(Manager().repr - old(Manager().repr))
      ensures Abs() == PerformAll(old(Abs()), acts)
    {
      hide Valid, Abs, Provider.Perform;
      var i := 0;
      assert acts[0..] == acts;
      while i < |acts|
        invariant i <= |acts|
        invariant Valid() && fresh(Manager().repr - old(Manager().repr))
        invariant PerformAll(Abs(), acts[i..]) == PerformAll(old(Abs()), acts)
      {
        assert acts[i..][1..] == acts[i + 1..];
        Perform(acts[i]);
        i := i + 1;
      }
      assert acts[i..] == [];
    }
  }

  /** Any run of a new provider object. Retains and releases balance; every stop follows a
      clear of the same handle, which is never used again; the installed handle is a live
      core object, and the others are those replaced by a start over an installed runtime.
      When no start came over one, that core is the only one, it is started, and the context
      stored in its device is the one retained bridge; with nothing installed there is no
      core object and no retained bridge. */
  method RunFromNew(acts: seq<Act>) returns (p: PacketTunnelProvider)
    ensures fresh(p) && p.Valid() && p.Abs() == PerformAll(IDLE, acts)
    ensures p.retains - p.releases == (if p.packetBridgeContext.Some? then 1 else 0)
    ensures var calls := p.Manager().calls;
            forall i | 0 <= i < |calls| && calls[i].Stopped? ::
              && i > 0 && calls[i - 1] == CallbackCleared(calls[i].core)
              && calls[i].core !in p.Manager().cores
              && forall j | i < j < |calls| :: calls[j].core != calls[i].core
    ensures p.rustHandle.Some? ==> p.rustHandle.value in p.Manager().cores
    ensures p.Manager().cores.Keys == Replaced(IDLE, acts) + Installed(p.Abs())
    ensures Disciplined(IDLE, acts) ==>
              match p.rustHandle
              case None => p.Manager().cores == map[] && p.retained == {} && p.retains == p.releases
              case Some(h) =>
                && p.Manager().cores.Keys == {h}
                && p.Manager().cores[h].started
                && p.Manager().cores[h].engine.device.hasCallback
                && p.retained == {p.Manager().cores[h].engine.device.outboundContext}
  {
    hide Kept, Linked, Disciplined, PerformAll, Replaced, S.Inv;
    p := new PacketTunnelProvider();
    p.Run(acts);
    RetainsBalance(acts);
    HandleProtocol(acts);
    CoresAreInstalledOrReplaced(acts);
    assert forall h | h in p.Manager().cores :: p.Abs().cores[h] == p.Manager().cores[h].Core();
    if Disciplined(IDLE, acts) {
      RunIsLinked(acts);
    }
  }
}
