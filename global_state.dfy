/**
 * The process-wide run state, the toggle debounce, and the life of the background
 * ("service") Flutter engine. Every handler is taken to run atomically, as the
 * run lock and the `synchronized` debounce block make it in the app.
 */
module Global {
  import opened Wrappers
  import opened Lifecycle

  /** Minimum spacing, in milliseconds of elapsed real time, between accepted toggles. */
  const ToggleDebounceMs := 1000
  const NotificationChannel := "Bettbox"
  const NotificationId := 1

  /** The plugins an engine can carry. */
  datatype PluginKind = VpnPluginKind | AppPluginKind | TilePluginKind

  /** A Flutter engine: the plugins registered on it and the entrypoint arguments it ran with. */
  datatype Engine = Engine(plugins: set<PluginKind>, entrypointArgs: Option<seq<string>>)

  /** Which engine a plugin lookup took its plugin from. */
  datatype EngineSlot = MainEngine | ServiceEngine

  /** The engine `initServiceEngine` creates: all three plugins, and `["quick"]` when no UI engine exists. */
  function NewServiceEngine(flutterEngine: Option<Engine>): (e: Engine)
    ensures e.plugins == {VpnPluginKind, AppPluginKind, TilePluginKind}
    ensures e.entrypointArgs.Some? <==> flutterEngine.None?
    ensures e.entrypointArgs.Some? ==> e.entrypointArgs.value == ["quick"]
  {
    Engine({VpnPluginKind, AppPluginKind, TilePluginKind}, if flutterEngine.None? then Some(["quick"]) else None)
  }

  /**
   * `getCurrentAppPlugin` / `getCurrentTilePlugin`: the UI engine is consulted
   * whenever it exists, even if it lacks the plugin; the service engine only otherwise.
   */
  function LookupPlugin(flutterEngine: Option<Engine>, serviceEngine: Option<Engine>, kind: PluginKind): (slot: Option<EngineSlot>)
    ensures slot == Some(MainEngine) <==> flutterEngine.Some? && kind in flutterEngine.value.plugins
    ensures slot == Some(ServiceEngine) <==> flutterEngine.None? && serviceEngine.Some? && kind in serviceEngine.value.plugins
  {
    var engine := if flutterEngine.Some? then flutterEngine else serviceEngine;
    if engine.Some? && kind in engine.value.plugins then
      Some(if flutterEngine.Some? then MainEngine else ServiceEngine)
    else None
  }

  /** Whether a request at `now` may take the toggle slot last taken at `lastToggleAt`. */
  predicate SlotFree(lastToggleAt: int, now: int) {
    now - lastToggleAt >= ToggleDebounceMs
  }

  /**
   * Replays `acquireToggleSlot` over requests arriving at `times`: which of them are
   * honoured. Only an honoured request moves the reference time.
   */
  function Honoured(lastToggleAt: int, times: seq<int>): (honoured: seq<bool>)
    ensures |honoured| == |times|
    ensures times != [] ==> honoured[0] == SlotFree(lastToggleAt, times[0])
    decreases times
  {
    if times == [] then []
    else if SlotFree(lastToggleAt, times[0]) then [true] + Honoured(times[0], times[1..])
    else [false] + Honoured(lastToggleAt, times[1..])
  }

  /**
   * The reference time request `i` is measured against, given which requests were
   * honoured: the time of the latest honoured request before it, or `start`.
   */
  function ReferenceTime(start: int, times: seq<int>, honoured: seq<bool>, i: nat): int
    requires i <= |times| == |honoured|
  {
    if i == 0 then start
    else if honoured[i - 1] then times[i - 1]
    else ReferenceTime(start, times, honoured, i - 1)
  }

  /** The debounce rule: a request is honoured iff a full interval has passed since the reference time. */
  predicate Debounced(start: int, times: seq<int>, honoured: seq<bool>) {
    && |honoured| == |times|
    && forall i :: 0 <= i < |times| ==>
         (honoured[i] <==> SlotFree(ReferenceTime(start, times, honoured, i), times[i]))
  }

  /** After the first request, the reference times are those of the rest, started from the first's outcome. */
  lemma {:induction false} ReferenceTimeShift(start: int, times: seq<int>, honoured: seq<bool>, i: nat)
    requires 1 <= i <= |times| == |honoured|
    ensures ReferenceTime(start, times, honoured, i)
            == ReferenceTime(if honoured[0] then times[0] else start, times[1..], honoured[1..], i - 1)
  {
    if i > 1 {
      ReferenceTimeShift(start, times, honoured, i - 1);
    }
  }

  lemma DebouncedStep(start: int, times: seq<int>, honoured: seq<bool>)
    requires times != [] && |honoured| == |times|
    ensures Debounced(start, times, honoured) <==>
              && (honoured[0] <==> SlotFree(start, times[0]))
              && Debounced(if honoured[0] then times[0] else start, times[1..], honoured[1..])
  {
    var next := if honoured[0] then times[0] else start;
    forall i | 1 <= i < |times|
      ensures ReferenceTime(start, times, honoured, i) == ReferenceTime(next, times[1..], honoured[1..], i - 1)
    {
      ReferenceTimeShift(start, times, honoured, i);
    }
    if Debounced(next, times[1..], honoured[1..]) && (honoured[0] <==> SlotFree(start, times[0])) {
      forall i | 0 <= i < |times|
        ensures honoured[i] <==> SlotFree(ReferenceTime(start, times, honoured, i), times[i])
      {
        if i > 0 {
          assert honoured[1..][i - 1] == honoured[i] && times[1..][i - 1] == times[i];
        }
      }
    }
    if Debounced(start, times, honoured) {
      forall i | 0 <= i < |times| - 1
        ensures honoured[1..][i] <==> SlotFree(ReferenceTime(next, times[1..], honoured[1..], i), times[1..][i])
      {
        assert honoured[i + 1] <==> SlotFree(ReferenceTime(start, times, honoured, i + 1), times[i + 1]);
      }
    }
  }

  /**
   * The replay is the debounce rule: its answers are the one series in which each
   * request is honoured iff it comes a full interval after the latest honoured one.
   */
  lemma {:induction false} HonouredIsDebounced(start: int, times: seq<int>, honoured: seq<bool>)
    ensures Debounced(start, times, honoured) <==> honoured == Honoured(start, times)
    decreases times
  {
    if times != [] && |honoured| == |times| {
      var next := if honoured[0] then times[0] else start;
      DebouncedStep(start, times, honoured);
      HonouredIsDebounced(next, times[1..], honoured[1..]);
      if honoured[0] == SlotFree(start, times[0]) {
        assert honoured == [honoured[0]] + honoured[1..];
      }
    }
  }

  /**
   * A burst of requests that all fall within one debounce interval of an honoured
   * request is dropped entirely.
   */
  lemma {:induction false} BurstAfterHonouredIsDropped(first: int, times: seq<int>)
    requires forall i :: 0 <= i < |times| ==> first <= times[i] < first + ToggleDebounceMs
    ensures forall i :: 0 <= i < |times| ==> !Honoured(first, times)[i]
  {
    if times != [] {
      BurstAfterHonouredIsDropped(first, times[1..]);
      forall i | 0 <= i < |times|
        ensures !Honoured(first, times)[i]
      {
        if i > 0 {
          assert Honoured(first, times)[i] == Honoured(first, times[1..])[i - 1];
        }
      }
    }
  }

  /**
   * The debounce measures from the last HONOURED request, not from the last request:
   * three requests 600 ms apart honour the first and the third.
   */
  lemma ChainedRequestsAreNotAllDropped()
    ensures Honoured(0, [1000, 1600, 2200]) == [true, false, true]
  {
    assert Honoured(1000, [2200]) == [true] + Honoured(2200, []);
    assert Honoured(1000, [1600, 2200]) == [false] + Honoured(1000, [2200]);
  }

  /** The fields of the global state other than the trace, as one value. */
  datatype Status = Status(
    currentRunState: RunState,
    published: RunState,
    lastToggleAt: int,
    flutterEngine: Option<Engine>,
    serviceEngine: Option<Engine>,
    isSmartStopped: bool)

  class GlobalState {
    var currentRunState: RunState
    /** The value last posted to the observable `runState`. */
    var published: RunState
    var lastToggleAt: int
    /** The UI's engine, set while an activity hosts the Flutter UI. */
    var flutterEngine: Option<Engine>
    var serviceEngine: Option<Engine>
    var isSmartStopped: bool
    /** Calls made so far into collaborators outside the model, oldest first. */
    ghost var trace: seq<Effect>

    constructor ()
      ensures currentRunState == Stop && published == Stop && lastToggleAt == 0
      ensures flutterEngine.None? && serviceEngine.None? && !isSmartStopped && trace == []
    {
      currentRunState := Stop;
      published := Stop;
      lastToggleAt := 0;
      flutterEngine := None;
      serviceEngine := None;
      isSmartStopped := false;
      trace := [];
    }

    function CurrentStatus(): Status
      reads this
    {
      Status(currentRunState, published, lastToggleAt, flutterEngine, serviceEngine, isSmartStopped)
    }

    function TilePlugin(): Option<EngineSlot>
      reads this
    {
      LookupPlugin(flutterEngine, serviceEngine, TilePluginKind)
    }

    function AppPlugin(): Option<EngineSlot>
      reads this
    {
      LookupPlugin(flutterEngine, serviceEngine, AppPluginKind)
    }

    /** `getCurrentVPNPlugin` looks only at the service engine. */
    predicate HasVpnPlugin()
      reads this
    {
      serviceEngine.Some? && VpnPluginKind in serviceEngine.value.plugins
    }

    /** The calls `initServiceEngine` makes, in the current state. */
    function InitEffects(): seq<Effect>
      reads this
    {
      if serviceEngine.Some? then [] else [EngineCreated(NewServiceEngine(flutterEngine).entrypointArgs)]
    }

    /** The calls `handleStart` makes under the run lock: delegate to the tile plugin, else create the engine. */
    function StartDelegation(): seq<Effect>
      reads this
    {
      if TilePlugin().Some? then [TileStart] else InitEffects()
    }

    method UpdateRunState(newState: RunState)
      modifies this`currentRunState, this`published, this`trace
      ensures currentRunState == newState && published == newState
      ensures trace == old(trace) + [RunStatePublished(newState)]
    {
      currentRunState := newState;
      published := newState;
      trace := trace + [RunStatePublished(newState)];
    }

    /** Takes the toggle slot iff a full debounce interval has passed since it was last taken. */
    method AcquireToggleSlot(now: int) returns (acquired: bool)
      modifies this`lastToggleAt
      ensures acquired <==> SlotFree(old(lastToggleAt), now)
      ensures lastToggleAt == if acquired then now else old(lastToggleAt)
    {
      if now - lastToggleAt < ToggleDebounceMs {
        return false;
      }
      lastToggleAt := now;
      return true;
    }

    /** The UI engine appears or goes away (set by the activity hosting the UI). */
    method SetFlutterEngine(engine: Option<Engine>)
      modifies this`flutterEngine
      ensures flutterEngine == engine
    {
      flutterEngine := engine;
    }

    /** `getCurrentTilePlugin()?.handleStop()`. */
    method StopViaTilePlugin()
      modifies this`trace
      ensures trace == old(trace) + if TilePlugin().Some? then [TileStop] else []
    {
      if TilePlugin().Some? {
        trace := trace + [TileStop];
      }
    }

    method HandleToggle(now: int)
      modifies this
      ensures flutterEngine == old(flutterEngine) && isSmartStopped == old(isSmartStopped)
      ensures !SlotFree(old(lastToggleAt), now) ==>
                currentRunState == old(currentRunState) && published == old(published)
                && lastToggleAt == old(lastToggleAt) && serviceEngine == old(serviceEngine) && trace == old(trace)
      ensures SlotFree(old(lastToggleAt), now) ==>
                currentRunState == Pending && published == Pending && lastToggleAt == now
                && serviceEngine == (if old(TilePlugin()).Some? || old(serviceEngine).Some? then old(serviceEngine)
                                     else Some(NewServiceEngine(old(flutterEngine))))
                && trace == old(trace) + [RunStatePublished(Pending)] + old(StartDelegation())
    {
      var acquired := AcquireToggleSlot(now);
      if !acquired {
        return;
      }
      var starting := HandleStart(true, now);
      if !starting {
        // The fallback `handleStop(skipDebounce = true)` sits here in the app; it is
        // unreachable because handleStart(skipDebounce = true) always reports true.
        assert false;
      }
    }

    /**
     * Moves to PENDING unconditionally (even from START) and hands the start to the
     * tile plugin, or creates the service engine when there is none. The result is
     * false only for a debounced request.
     */
    method HandleStart(skipDebounce: bool, now: int) returns (started: bool)
      modifies this
      ensures started <==> skipDebounce || SlotFree(old(lastToggleAt), now)
      ensures flutterEngine == old(flutterEngine) && isSmartStopped == old(isSmartStopped)
      ensures lastToggleAt == if !skipDebounce && started then now else old(lastToggleAt)
      ensures !started ==>
                currentRunState == old(currentRunState) && published == old(published)
                && serviceEngine == old(serviceEngine) && trace == old(trace)
      ensures started ==>
                currentRunState == Pending && published == Pending
                && serviceEngine == (if old(TilePlugin()).Some? || old(serviceEngine).Some? then old(serviceEngine)
                                     else Some(NewServiceEngine(old(flutterEngine))))
                && trace == old(trace) + [RunStatePublished(Pending)] + old(StartDelegation())
    {
      if !skipDebounce {
        var acquired := AcquireToggleSlot(now);
        if !acquired {
          return false;
        }
      }
      UpdateRunState(Pending);
      if TilePlugin().Some? {
        trace := trace + [TileStart];
      } else {
        InitServiceEngine();
      }
      return true;
    }

    /**
     * From START or PENDING: moves to PENDING and hands the stop to the tile plugin.
     * From STOP: nothing, but a non-skipping request has still consumed the slot.
     */
    method HandleStop(skipDebounce: bool, now: int)
      modifies this`currentRunState, this`published, this`trace, this`lastToggleAt
      ensures lastToggleAt == if !skipDebounce && SlotFree(old(lastToggleAt), now) then now else old(lastToggleAt)
      ensures (!skipDebounce && !SlotFree(old(lastToggleAt), now)) || old(currentRunState) == Stop ==>
                currentRunState == old(currentRunState) && published == old(published) && trace == old(trace)
      ensures (skipDebounce || SlotFree(old(lastToggleAt), now)) && old(currentRunState) != Stop ==>
                currentRunState == Pending && published == Pending
                && trace == old(trace) + [RunStatePublished(Pending)] + (if TilePlugin().Some? then [TileStop] else [])
    {
      if !skipDebounce {
        var acquired := AcquireToggleSlot(now);
        if !acquired {
          return;
        }
      }
      if currentRunState == Start || currentRunState == Pending {
        UpdateRunState(Pending);
        StopViaTilePlugin();
      }
    }

    /** Destroys the service engine, but only when no UI engine is around. */
    method HandleTryDestroy()
      modifies this`serviceEngine, this`trace
      ensures serviceEngine == if old(flutterEngine).None? then None else old(serviceEngine)
      ensures trace == old(trace) + if flutterEngine.None? && old(serviceEngine).Some? then [EngineDestroyed] else []
    {
      if flutterEngine.None? {
        DestroyServiceEngine();
      }
    }

    method DestroyServiceEngine()
      modifies this`serviceEngine, this`trace
      ensures serviceEngine.None?
      ensures trace == old(trace) + if old(serviceEngine).Some? then [EngineDestroyed] else []
    {
      if serviceEngine.Some? {
        trace := trace + [EngineDestroyed];
      }
      serviceEngine := None;
    }

    /** Creates the service engine once; a second call while it exists does nothing. */
    method InitServiceEngine()
      modifies this`serviceEngine, this`trace
      ensures serviceEngine == if old(serviceEngine).Some? then old(serviceEngine) else Some(NewServiceEngine(flutterEngine))
      ensures trace == old(trace) + old(InitEffects())
    {
      if serviceEngine.Some? {
        return;
      }
      DestroyServiceEngine();
      var engine := NewServiceEngine(flutterEngine);
      serviceEngine := Some(engine);
      trace := trace + [EngineCreated(engine.entrypointArgs)];
    }

    /** `syncStatus`: asks the UI whether the tunnel is running; the reply arrives in `OnStatusSynced`. */
    method SyncStatus()
      modifies this`trace
      ensures trace == old(trace) + [StatusRequested]
    {
      trace := trace + [StatusRequested];
    }

    /** The status reply: true means START; no answer or a failure counts as false. */
    method OnStatusSynced(reply: Option<bool>)
      modifies this`currentRunState, this`published, this`trace
      ensures currentRunState == (if reply == Some(true) then Start else Stop)
      ensures published == currentRunState
      ensures trace == old(trace) + [RunStatePublished(currentRunState)]
    {
      var status := reply.GetOr(false);
      UpdateRunState(if status then Start else Stop);
    }
  }
}
