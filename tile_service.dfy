/**
 * The quick-settings tile: it shows the run state and toggles the session when
 * tapped, after the device is unlocked if it is locked.
 */
module Tile {
  import opened Lifecycle
  import opened Global

  /** `Tile.STATE_UNAVAILABLE`, `STATE_INACTIVE`, `STATE_ACTIVE`. */
  const StateUnavailable := 0
  const StateInactive := 1
  const StateActive := 2

  /** The tile state shown for a run state: active when running, unavailable while pending, inactive when stopped. */
  function TileState(s: RunState): (t: int)
    ensures StateUnavailable <= t <= StateActive
  {
    match s
    case Start => StateActive
    case Pending => StateUnavailable
    case Stop => StateInactive
  }

  /** Each run state has its own tile state, so the tile tells them apart. */
  lemma TileStateDistinguishes(a: RunState, b: RunState)
    ensures TileState(a) == TileState(b) <==> a == b
  {
  }

  /** The calls one `handleToggle` at `now` makes: none when debounced, else PENDING and the start delegation. */
  function ToggleEffects(lastToggleAt: int, now: int, delegation: seq<Effect>): seq<Effect> {
    if SlotFree(lastToggleAt, now) then [RunStatePublished(Pending)] + delegation else []
  }

  /** The platform's tile: its state and how many times it was redrawn. */
  class QsTile {
    var state: int
    var redraws: nat

    constructor ()
      ensures state == StateUnavailable && redraws == 0
    {
      state := StateUnavailable;
      redraws := 0;
    }
  }

  class BettboxTileService {
    const g: GlobalState
    /** `qsTile`, absent while the tile is not bound. */
    const qsTile: QsTile?
    /** Whether the run-state observer is registered. */
    var observing: bool
    /** Toggles waiting for the device to be unlocked. */
    var pendingToggles: nat
    /** How many toggles the tile has handed to the global state. */
    ghost var toggles: nat

    constructor (g: GlobalState, qsTile: QsTile?)
      ensures this.g == g && this.qsTile == qsTile
      ensures !observing && pendingToggles == 0 && toggles == 0
    {
      this.g := g;
      this.qsTile := qsTile;
      observing := false;
      pendingToggles := 0;
      toggles := 0;
    }

    /** `updateTile`: with a tile, shows the state and redraws; without one, nothing. */
    method UpdateTile(s: RunState)
      modifies qsTile
      ensures qsTile != null ==> qsTile.state == TileState(s) && qsTile.redraws == old(qsTile.redraws) + 1
    {
      if qsTile != null {
        qsTile.state := TileState(s);
        qsTile.redraws := qsTile.redraws + 1;
      }
    }

    /**
     * `onStartListening`: asks the UI for the status, shows the current state and
     * starts observing. `observeForever` hands a newly registered observer the
     * published value at once, so the first call redraws a second time with it; a
     * later call finds the observer registered and redraws once.
     */
    method OnStartListening()
      modifies this`observing, qsTile, g`trace
      ensures observing
      ensures g.trace == old(g.trace) + [StatusRequested]
      ensures g.currentRunState == old(g.currentRunState) && g.published == old(g.published)
      ensures qsTile != null ==>
                && qsTile.state == TileState(if old(observing) then g.currentRunState else g.published)
                && qsTile.redraws == old(qsTile.redraws) + (if old(observing) then 1 else 2)
    {
      g.SyncStatus();
      UpdateTile(g.currentRunState);
      if !observing {
        UpdateTile(g.published);
        observing := true;
      }
    }

    /** The observer: a newly published run state is shown while observing. */
    method OnRunStatePublished()
      modifies qsTile
      ensures observing && qsTile != null ==> qsTile.state == TileState(g.published)
      ensures !observing && qsTile != null ==> qsTile.state == old(qsTile.state) && qsTile.redraws == old(qsTile.redraws)
    {
      if observing {
        UpdateTile(g.published);
      }
    }

    /**
     * `onClick`: toggles at once when the device is unlocked; otherwise the toggle
     * waits for the unlock. Either way one toggle results from one click.
     */
    method OnClick(locked: bool, now: int)
      modifies this`pendingToggles, this`toggles, g
      ensures toggles + pendingToggles == old(toggles) + old(pendingToggles) + 1
      ensures locked ==> pendingToggles == old(pendingToggles) + 1 && g.CurrentStatus() == old(g.CurrentStatus())
                         && g.trace == old(g.trace)
      ensures !locked ==> pendingToggles == old(pendingToggles) && toggles == old(toggles) + 1
      ensures !locked ==> g.trace == old(g.trace) + ToggleEffects(old(g.lastToggleAt), now, old(g.StartDelegation()))
      ensures !locked && SlotFree(old(g.lastToggleAt), now) ==> g.currentRunState == Pending && g.lastToggleAt == now
      ensures !locked && !SlotFree(old(g.lastToggleAt), now) ==> g.CurrentStatus() == old(g.CurrentStatus())
    {
      if locked {
        pendingToggles := pendingToggles + 1;
      } else {
        g.HandleToggle(now);
        toggles := toggles + 1;
      }
    }

    /** The device was unlocked: one waiting toggle runs. */
    method OnUnlocked(now: int)
      requires pendingToggles > 0
      modifies this`pendingToggles, this`toggles, g
      ensures pendingToggles == old(pendingToggles) - 1 && toggles == old(toggles) + 1
      ensures g.trace == old(g.trace) + ToggleEffects(old(g.lastToggleAt), now, old(g.StartDelegation()))
      ensures SlotFree(old(g.lastToggleAt), now) ==> g.currentRunState == Pending && g.lastToggleAt == now
      ensures !SlotFree(old(g.lastToggleAt), now) ==> g.CurrentStatus() == old(g.CurrentStatus())
    {
      pendingToggles := pendingToggles - 1;
      g.HandleToggle(now);
      toggles := toggles + 1;
    }

    /** `onDestroy`: the observer is removed. */
    method OnDestroy()
      modifies this`observing
      ensures !observing
    {
      observing := false;
    }
  }
}
