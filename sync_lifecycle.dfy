/**
 * The lifecycle around the sync pass in `useSyncVideos`: the interval tick that
 * runs a pass and retries the listener setup, the main player's seek, time-shift
 * and destroy events, the user-offset change event, the visibility trigger and
 * the effect cleanup. Timers, DOM and player events are explicit method calls.
 */
module SyncLifecycle {
  import opened Options
  import opened SyncVideos

  /** The main player events the hook subscribes to. */
  datatype PlayerEvent = SeekEvent | TimeShiftEvent | DestroyEvent

  /** One subscription call: `on`/`off` on the main player, or on the user-offset emitter. */
  datatype ListenerOp =
    | On(window: string, event: PlayerEvent)
    | Off(window: string, event: PlayerEvent)
    | AddOffsetListener
    | RemoveOffsetListener

  /** A listener that is attached somewhere. */
  datatype Listener = PlayerListener(window: string, event: PlayerEvent) | OffsetListener

  /** What `setupPlayerListeners` subscribes, in order. */
  function SetupOps(mainId: string): seq<ListenerOp>
  {
    [On(mainId, SeekEvent), On(mainId, TimeShiftEvent), On(mainId, DestroyEvent), AddOffsetListener]
  }

  /** What the cleanup function unsubscribes, given whether the main player reported `Destroy`. */
  function TeardownOps(mainId: string, destroyed: bool): seq<ListenerOp>
  {
    (if destroyed then [] else [Off(mainId, SeekEvent), Off(mainId, TimeShiftEvent)]) + [RemoveOffsetListener]
  }

  /** The listeners attached after the subscription calls `ops`, in order. */
  function Attached(ops: seq<ListenerOp>): set<Listener>
    decreases |ops|
  {
    if ops == [] then {}
    else
      var before := Attached(ops[..|ops| - 1]);
      match ops[|ops| - 1]
      case On(w, e) => before + {PlayerListener(w, e)}
      case Off(w, e) => before - {PlayerListener(w, e)}
      case AddOffsetListener => before + {OffsetListener}
      case RemoveOffsetListener => before - {OffsetListener}
  }

  /**
   * After a setup and its cleanup the offset listener is always gone; the seek and
   * time-shift listeners are detached unless the player was destroyed, in which
   * case they stay on the disposed player. The destroy handler itself is never
   * detached.
   */
  lemma {:induction false} TeardownLeavesOnly(mainId: string, destroyed: bool)
    ensures Attached(SetupOps(mainId) + TeardownOps(mainId, destroyed)) ==
      (if destroyed then {PlayerListener(mainId, SeekEvent), PlayerListener(mainId, TimeShiftEvent), PlayerListener(mainId, DestroyEvent)}
       else {PlayerListener(mainId, DestroyEvent)})
  {
    var s := SetupOps(mainId);
    assert s[..1][..0] == [] && s[..2][..1] == s[..1] && s[..3][..2] == s[..2] && s[..4][..3] == s[..3];
    assert Attached(s[..1]) == {PlayerListener(mainId, SeekEvent)};
    assert Attached(s[..2]) == {PlayerListener(mainId, SeekEvent), PlayerListener(mainId, TimeShiftEvent)};
    assert Attached(s[..3]) == {PlayerListener(mainId, SeekEvent), PlayerListener(mainId, TimeShiftEvent), PlayerListener(mainId, DestroyEvent)};
    assert s[..4] == s;
    var all := s + TeardownOps(mainId, destroyed);
    if destroyed {
      assert all[..4] == s;
    } else {
      assert all[..4] == s && all[..5][..4] == s && all[..6][..5] == all[..5];
      assert Attached(all[..5]) == {PlayerListener(mainId, TimeShiftEvent), PlayerListener(mainId, DestroyEvent), OffsetListener};
    }
  }

  /** The interval period: 5 s for a live session, 100 ms on demand. */
  function TickPeriod(isLive: bool): nat
  {
    if isLive then 5000 else 100
  }

  /** One mounted `useSyncVideos` effect. */
  class SyncEngine {
    const windows: seq<GridWindow>
    const isLive: bool
    const playbackOffsets: PlaybackOffsets
    /** How a live pass measures drift: as the source writes it, or as corrected. */
    const driftRule: DriftRule
    const tickPeriod: nat
    /** `windowVideojsRefMapRef.current`, filled in as players become ready. */
    var handles: Handles
    /** `userOffsetsRef.current`. */
    var userOffsets: Option<UserOffsets>
    /** `cleanupFunction != null`. */
    var cleanupInstalled: bool
    /** `mainWindowsPlayerDestroyed` of the installed setup. */
    var mainDestroyed: bool
    /** The effect is mounted: the interval and the visibility listener are live. */
    var running: bool
    /** Every command issued to a player, in order. */
    var commands: seq<Command>
    /**
     * Every subscription call, in order. The calls on the main window are made on
     * the player setup captured, the one of generation `listenedGeneration`.
     */
    var listenerOps: seq<ListenerOp>
    /** How many times main's registry entry was written since mounting: the current player's generation. */
    var mainGeneration: nat
    /** The generation of the main player `setupPlayerListeners` captured and subscribed to. */
    var listenedGeneration: nat

    /** Whether `id` is the id of the main window. */
    predicate IsMainId(id: string)
    {
      FindMain(windows).Some? && FindMain(windows).value.id == id
    }

    /** The state a pass reads. */
    function Ctx(): SyncContext
      reads this
    {
      SyncContext(windows, handles, isLive, playbackOffsets, userOffsets, driftRule)
    }

    /**
     * The period matches the mode; the listeners are set up at most once, only for
     * the main window, and torn down at most once, when the effect is cleaned up.
     */
    predicate Valid()
      reads this
    {
      && tickPeriod == TickPeriod(isLive)
      && (!cleanupInstalled ==> listenerOps == [] && !mainDestroyed)
      && listenedGeneration <= mainGeneration
      && (cleanupInstalled ==>
            FindMain(windows).Some? &&
            listenerOps == SetupOps(FindMain(windows).value.id)
                           + (if running then [] else TeardownOps(FindMain(windows).value.id, mainDestroyed)))
    }

    /** Mounting the effect: the interval starts, nothing is subscribed, no command issued. */
    constructor(windows: seq<GridWindow>, handles: Handles, isLive: bool, playbackOffsets: PlaybackOffsets, userOffsets: Option<UserOffsets>,
                driftRule: DriftRule)
      ensures Valid() && running && !cleanupInstalled
      ensures this.windows == windows && this.handles == handles && this.isLive == isLive
      ensures this.playbackOffsets == playbackOffsets && this.userOffsets == userOffsets
      ensures this.driftRule == driftRule && tickPeriod == (if isLive then 5000 else 100)
      ensures commands == [] && listenerOps == [] && mainGeneration == 0
    {
      this.windows := windows;
      this.handles := handles;
      this.isLive := isLive;
      this.playbackOffsets := playbackOffsets;
      this.userOffsets := userOffsets;
      this.driftRule := driftRule;
      tickPeriod := TickPeriod(isLive);
      cleanupInstalled := false;
      mainDestroyed := false;
      running := true;
      commands := [];
      listenerOps := [];
      mainGeneration := 0;
      listenedGeneration := 0;
    }

    /** One `syncVideos(forceSync)` call, with its commands appended to the log. */
    method Sync(forceSync: bool)
      modifies this
      ensures commands == old(commands) + SyncPass(old(Ctx()), forceSync)
      ensures handles == old(handles) && userOffsets == old(userOffsets) && listenerOps == old(listenerOps)
      ensures cleanupInstalled == old(cleanupInstalled) && mainDestroyed == old(mainDestroyed) && running == old(running)
      ensures mainGeneration == old(mainGeneration) && listenedGeneration == old(listenedGeneration)
    {
      var issued := SyncVideosPass(Ctx(), forceSync);
      commands := commands + issued;
    }

    /**
     * `setupPlayerListeners`: when the main window and its player exist, subscribe
     * the forced pass to seek and time shift, the destroy flag to destroy, and the
     * forced pass to offset changes, and install the cleanup; otherwise nothing.
     */
    method SetupPlayerListeners()
      requires Valid() && running && !cleanupInstalled
      modifies this
      ensures Valid() && running
      ensures cleanupInstalled <==> FindMain(windows).Some? && PlayerOf(handles, FindMain(windows).value.id).Some?
      ensures cleanupInstalled ==> listenerOps == SetupOps(FindMain(windows).value.id) && !mainDestroyed
      ensures cleanupInstalled ==> listenedGeneration == mainGeneration
      ensures !cleanupInstalled ==> listenerOps == [] && mainDestroyed == old(mainDestroyed) && listenedGeneration == old(listenedGeneration)
      ensures handles == old(handles) && userOffsets == old(userOffsets) && commands == old(commands)
      ensures mainGeneration == old(mainGeneration)
    {
      var mainWindow := FindMain(windows);
      if mainWindow.None? {
        return;
      }
      if PlayerOf(handles, mainWindow.value.id).None? {
        return;
      }
      mainDestroyed := false;
      listenedGeneration := mainGeneration;
      listenerOps := listenerOps + SetupOps(mainWindow.value.id);
      cleanupInstalled := true;
    }

    /**
     * An interval tick: a non-forced pass, then the listener setup if no cleanup is
     * installed yet. Once installed, a tick never subscribes again.
     */
    method Tick()
      requires Valid() && running
      modifies this
      ensures Valid() && running
      ensures commands == old(commands) + SyncPass(old(Ctx()), false)
      ensures old(cleanupInstalled) ==> cleanupInstalled && listenerOps == old(listenerOps)
      ensures old(cleanupInstalled) ==> mainDestroyed == old(mainDestroyed) && listenedGeneration == old(listenedGeneration)
      ensures !old(cleanupInstalled) ==>
        (cleanupInstalled <==> FindMain(windows).Some? && PlayerOf(handles, FindMain(windows).value.id).Some?)
      ensures !old(cleanupInstalled) && cleanupInstalled ==> listenedGeneration == mainGeneration && !mainDestroyed
      ensures handles == old(handles) && userOffsets == old(userOffsets) && mainGeneration == old(mainGeneration)
    {
      Sync(false);
      if !cleanupInstalled {
        SetupPlayerListeners();
      }
    }

    /** The player of main's `generation` has the listeners of the running effect attached. */
    predicate Listening(generation: nat)
      reads this
    {
      running && cleanupInstalled && generation == listenedGeneration
    }

    /**
     * An event of the main window's player of the given generation. Only the player
     * setup subscribed to reacts: seek and time shift force a pass, destroy sets
     * the flag that spares the disposed player the `off` calls at cleanup. A player
     * that replaced it later has no listeners, so its events change nothing.
     */
    method OnMainPlayerEvent(event: PlayerEvent, generation: nat)
      requires Valid()
      modifies this
      ensures Valid() && running == old(running) && cleanupInstalled == old(cleanupInstalled)
      ensures event != DestroyEvent && old(Listening(generation)) ==>
        commands == old(commands) + SyncPass(old(Ctx()), true)
      ensures !(event != DestroyEvent && old(Listening(generation))) ==> commands == old(commands)
      ensures mainDestroyed == (old(mainDestroyed) || (event == DestroyEvent && old(Listening(generation))))
      ensures handles == old(handles) && userOffsets == old(userOffsets) && listenerOps == old(listenerOps)
      ensures mainGeneration == old(mainGeneration) && listenedGeneration == old(listenedGeneration)
    {
      if !Listening(generation) {
        return;
      }
      if event == DestroyEvent {
        mainDestroyed := true;
      } else {
        Sync(true);
      }
    }

    /** The user offsets change: the ref is updated, and a pass is forced while the offset listener is attached. */
    method OnOffsetChange(newOffsets: Option<UserOffsets>)
      requires Valid()
      modifies this
      ensures Valid() && running == old(running) && cleanupInstalled == old(cleanupInstalled)
      ensures userOffsets == newOffsets && handles == old(handles) && listenerOps == old(listenerOps)
      ensures mainDestroyed == old(mainDestroyed)
      ensures mainGeneration == old(mainGeneration) && listenedGeneration == old(listenedGeneration)
      ensures running && cleanupInstalled ==> commands == old(commands) + SyncPass(Ctx(), true)
      ensures !(running && cleanupInstalled) ==> commands == old(commands)
    {
      userOffsets := newOffsets;
      if running && cleanupInstalled {
        Sync(true);
      }
    }

    /** `visibilitychange`: a forced pass when the document is visible again, nothing when it is hidden. */
    method OnVisibilityChange(hidden: bool)
      requires Valid()
      modifies this
      ensures Valid() && running == old(running) && cleanupInstalled == old(cleanupInstalled)
      ensures running && !hidden ==> commands == old(commands) + SyncPass(old(Ctx()), true)
      ensures !(running && !hidden) ==> commands == old(commands)
      ensures handles == old(handles) && userOffsets == old(userOffsets) && listenerOps == old(listenerOps)
      ensures mainDestroyed == old(mainDestroyed)
      ensures mainGeneration == old(mainGeneration) && listenedGeneration == old(listenedGeneration)
    {
      if running && !hidden {
        Sync(true);
      }
    }

    /**
     * A player becomes ready (`Some`) or goes away (`None`) in the registry. A new
     * entry for the main window starts a new generation, which the installed
     * listeners are not attached to.
     */
    method SetHandle(id: string, player: Option<Player>)
      requires Valid()
      modifies this
      ensures Valid() && handles == old(handles)[id := player]
      ensures running == old(running) && cleanupInstalled == old(cleanupInstalled) && mainDestroyed == old(mainDestroyed)
      ensures commands == old(commands) && listenerOps == old(listenerOps) && userOffsets == old(userOffsets)
      ensures mainGeneration == old(mainGeneration) + (if IsMainId(id) then 1 else 0)
      ensures listenedGeneration == old(listenedGeneration)
      ensures IsMainId(id) ==> !Listening(mainGeneration)
    {
      handles := handles[id := player];
      if IsMainId(id) {
        mainGeneration := mainGeneration + 1;
      }
    }

    /**
     * The effect cleanup: the interval and visibility listener stop, and the
     * installed cleanup unsubscribes; seek and time shift only if the main player
     * was not destroyed, the offset listener always.
     */
    method Teardown()
      requires Valid() && running
      modifies this
      ensures Valid() && !running
      ensures old(cleanupInstalled) ==>
        listenerOps == old(listenerOps) + TeardownOps(FindMain(windows).value.id, mainDestroyed)
      ensures !old(cleanupInstalled) ==> listenerOps == []
      ensures OffsetListener !in Attached(listenerOps)
      ensures cleanupInstalled && !mainDestroyed ==> Attached(listenerOps) == {PlayerListener(FindMain(windows).value.id, DestroyEvent)}
      ensures commands == old(commands) && handles == old(handles) && mainDestroyed == old(mainDestroyed)
      ensures cleanupInstalled == old(cleanupInstalled)
      ensures mainGeneration == old(mainGeneration) && listenedGeneration == old(listenedGeneration)
    {
      running := false;
      if cleanupInstalled {
        var mainId := FindMain(windows).value.id;
        listenerOps := listenerOps + TeardownOps(mainId, mainDestroyed);
        TeardownLeavesOnly(mainId, mainDestroyed);
      }
    }
  }

  /** A tick, a visibility change and an offset change keep the installed listeners and the destroy flag. */
  method OtherEvents(engine: SyncEngine, hidden: bool, newOffsets: Option<UserOffsets>)
    requires engine.Valid() && engine.running && engine.cleanupInstalled
    modifies engine
    ensures engine.Valid() && engine.running && engine.cleanupInstalled
    ensures engine.mainDestroyed == old(engine.mainDestroyed) && engine.listenerOps == old(engine.listenerOps)
  {
    engine.Tick();
    engine.OnVisibilityChange(hidden);
    engine.OnOffsetChange(newOffsets);
  }

  /** The log of a setup whose player was destroyed before the cleanup holds no `off` call. */
  lemma DestroyedLogHasNoOff(mainId: string)
    ensures forall w, ev :: Off(w, ev) !in SetupOps(mainId) + TeardownOps(mainId, true)
  {
    assert SetupOps(mainId) + TeardownOps(mainId, true)
        == [On(mainId, SeekEvent), On(mainId, TimeShiftEvent), On(mainId, DestroyEvent), AddOffsetListener, RemoveOffsetListener];
  }

  /**
   * The destroy guard across other events: once the subscribed main player is
   * destroyed, later ticks, visibility and offset changes do not bring back the
   * `off` calls, so the cleanup only removes the offset listener.
   */
  method DestroyedMainSkipsOff(windows: seq<GridWindow>, handles: Handles, isLive: bool, playbackOffsets: PlaybackOffsets,
                               userOffsets: Option<UserOffsets>, driftRule: DriftRule, hidden: bool, newOffsets: Option<UserOffsets>)
    returns (ops: seq<ListenerOp>)
    requires FindMain(windows).Some? && PlayerOf(handles, FindMain(windows).value.id).Some?
    ensures ops == SetupOps(FindMain(windows).value.id) + TeardownOps(FindMain(windows).value.id, true)
    ensures forall w, ev :: Off(w, ev) !in ops
  {
    var id := FindMain(windows).value.id;
    var engine := new SyncEngine(windows, handles, isLive, playbackOffsets, userOffsets, driftRule);
    engine.Tick();
    engine.OnMainPlayerEvent(DestroyEvent, engine.listenedGeneration);
    OtherEvents(engine, hidden, newOffsets);
    engine.Teardown();
    ops := engine.listenerOps;
    DestroyedLogHasNoOff(id);
  }

  /**
   * A main player that replaces the subscribed one has no listeners: its seeks and
   * time shifts force no pass, and only the interval's own pass is issued.
   */
  method ReplacedMainPlayerIsNotListened(windows: seq<GridWindow>, handles: Handles, isLive: bool, playbackOffsets: PlaybackOffsets,
                                         userOffsets: Option<UserOffsets>, driftRule: DriftRule, replacement: Player, event: PlayerEvent)
    returns (issued: seq<Command>)
    requires FindMain(windows).Some? && PlayerOf(handles, FindMain(windows).value.id).Some?
    ensures issued == SyncPass(SyncContext(windows, handles, isLive, playbackOffsets, userOffsets, driftRule), false)
  {
    var engine := new SyncEngine(windows, handles, isLive, playbackOffsets, userOffsets, driftRule);
    engine.Tick();
    engine.SetHandle(FindMain(windows).value.id, Some(replacement));
    engine.OnMainPlayerEvent(event, engine.mainGeneration);
    issued := engine.commands;
  }
}
