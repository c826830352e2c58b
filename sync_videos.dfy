/**
 * The reconciliation pass that keeps every video window aligned with the main
 * window (src/views/Viewer/hooks/useSyncVideos.ts, `syncVideos` and `getOffset`).
 *
 * Player handles are snapshots of the three values the pass reads; the pass does
 * not change them, it returns the commands it issues, in order.
 */
module SyncVideos {
  import opened Options
  import opened RaceDetails

  /** The role of a grid window; a driver window carries the driver it shows. */
  datatype Role = MainRole | DriverRole(driverId: string) | DataChannelRole | DriverTrackerRole | OtherRole

  datatype GridWindow = GridWindow(id: string, role: Role)

  /** The stream type a window role is keyed by in the offset table (`w.type`). */
  function RoleType(r: Role): StreamType
  {
    match r
    case MainRole => Main
    case DriverRole(_) => Driver
    case DataChannelRole => DataChannel
    case DriverTrackerRole => DriverTracker
    case OtherRole => Other
  }

  /** The per-user adjustments (`UserOffsets`), keyed by driver id or by role name. */
  datatype UserOffsets = UserOffsets(additionalStreams: map<string, real>)

  /** The known offsets between stream types (`PlaybackOffsets`). */
  datatype PlaybackOffsets = PlaybackOffsets(f1: OffsetTable)

  /** The key of a window's user adjustment: the driver id for a driver window, the role name otherwise. */
  function UserOffsetKey(w: GridWindow): string
  {
    match w.role
    case DriverRole(driverId) => driverId
    case _ => TypeName(RoleType(w.role))
  }

  /** The user adjustment stored for a window, if any. */
  function UserOverride(userOffsets: Option<UserOffsets>, w: GridWindow): Option<real>
  {
    if userOffsets.Some? && UserOffsetKey(w) in userOffsets.value.additionalStreams
    then Some(userOffsets.value.additionalStreams[UserOffsetKey(w)])
    else None
  }

  /** The known offset of one stream type against another, if the table has one. */
  function KnownOffset(playbackOffsets: PlaybackOffsets, w: GridWindow, mainWindow: GridWindow): Option<real>
  {
    Lookup(playbackOffsets.f1, RoleType(w.role), RoleType(mainWindow.role))
  }

  /**
   * `getOffset`: the known offset of the window's type against the main window's
   * type plus the user's adjustment for the window, each 0 when absent.
   */
  function GetOffset(playbackOffsets: PlaybackOffsets, userOffsets: Option<UserOffsets>, w: GridWindow, mainWindow: GridWindow): (offset: real)
    ensures KnownOffset(playbackOffsets, w, mainWindow).None? && UserOverride(userOffsets, w).None? ==> offset == 0.0
    ensures KnownOffset(playbackOffsets, w, mainWindow).Some? && UserOverride(userOffsets, w).None? ==>
      offset == KnownOffset(playbackOffsets, w, mainWindow).value
    ensures KnownOffset(playbackOffsets, w, mainWindow).None? && UserOverride(userOffsets, w).Some? ==>
      offset == UserOverride(userOffsets, w).value
    ensures KnownOffset(playbackOffsets, w, mainWindow).Some? && UserOverride(userOffsets, w).Some? ==>
      offset == KnownOffset(playbackOffsets, w, mainWindow).value + UserOverride(userOffsets, w).value
  {
    var userOffset :=
      if w.role.DriverRole? then
        (if userOffsets.Some? && w.role.driverId in userOffsets.value.additionalStreams
         then userOffsets.value.additionalStreams[w.role.driverId] else 0.0)
      else
        (if userOffsets.Some? && TypeName(RoleType(w.role)) in userOffsets.value.additionalStreams
         then userOffsets.value.additionalStreams[TypeName(RoleType(w.role))] else 0.0);
    var a, b := RoleType(w.role), RoleType(mainWindow.role);
    var f1Offset := if a in playbackOffsets.f1 && b in playbackOffsets.f1[a] then playbackOffsets.f1[a][b] else 0.0;
    f1Offset + userOffset
  }

  /** What the pass reads of a player: `isPaused()`, `getCurrentTime(AbsoluteTime)` and `getTimeShift()`. */
  datatype Player = Player(paused: bool, currentTime: real, timeShift: real)

  /** The player registry: window id to player, `null` while the player is not ready. */
  type Handles = map<string, Option<Player>>

  /** `windowVideojsRefMapRef.current[id]`, with a missing entry read as `null`. */
  function PlayerOf(handles: Handles, id: string): Option<Player>
  {
    if id in handles then handles[id] else None
  }

  /** A command issued to the player of window `target`. */
  datatype Command = Pause(target: string) | Play(target: string) | TimeShift(target: string, shift: real) | Seek(target: string, time: real)

  /**
   * The live drift a pass measures. `SumAsWritten` is the repository's
   * `|ts + offset + mainTs|`; `DistanceToTarget` is `|ts - (-offset + mainTs)|`,
   * the distance from the shift a correction sets (see the Findings of the README).
   */
  datatype DriftRule = SumAsWritten | DistanceToTarget

  /**
   * Everything one pass reads: the windows, the registry, the mode, both offset
   * tables, and the live drift measure.
   */
  datatype SyncContext = SyncContext(
    windows: seq<GridWindow>,
    handles: Handles,
    isLive: bool,
    playbackOffsets: PlaybackOffsets,
    userOffsets: Option<UserOffsets>,
    driftRule: DriftRule)

  function Abs(x: real): real
  {
    if x < 0.0 then -x else x
  }

  /** `windows.find(w => w.type === "main")`: the first main window. */
  function FindMain(windows: seq<GridWindow>): (r: Option<GridWindow>)
    ensures r.None? <==> forall i :: 0 <= i < |windows| ==> !windows[i].role.MainRole?
    ensures r.Some? ==> exists k :: (0 <= k < |windows| && windows[k] == r.value && r.value.role.MainRole?
      && forall j :: 0 <= j < k ==> !windows[j].role.MainRole?)
  {
    if windows == [] then None
    else if windows[0].role.MainRole? then Some(windows[0])
    else
      var r := FindMain(windows[1..]);
      assert r.Some? ==> exists k :: (0 <= k < |windows| && windows[k] == r.value && r.value.role.MainRole?
        && forall j :: 0 <= j < k ==> !windows[j].role.MainRole?) by {
        if r.Some? {
          var k :| 0 <= k < |windows[1..]| && windows[1..][k] == r.value
            && forall j :: 0 <= j < k ==> !windows[1..][j].role.MainRole?;
          assert windows[k + 1] == r.value;
          forall j | 0 <= j < k + 1 ensures !windows[j].role.MainRole? {
            if j > 0 { assert windows[j] == windows[1..][j - 1]; }
          }
        }
      }
      r
  }

  /** Live drift as the source computes it: the SUM of the window's shift, the offset and the main shift. */
  function LiveDrift(p: Player, offset: real, mainPlayer: Player): real
  {
    Abs(p.timeShift + offset + mainPlayer.timeShift)
  }

  /** The time shift a live window is moved to. */
  function LiveTarget(offset: real, mainPlayer: Player): real
  {
    -offset + mainPlayer.timeShift
  }

  /** The drift the live correction evidently aims at: distance from the shift the pass would set. */
  function IntendedLiveDrift(p: Player, offset: real, mainPlayer: Player): real
  {
    Abs(p.timeShift - LiveTarget(offset, mainPlayer))
  }

  /** The live drift under `rule`. */
  function DriftBy(rule: DriftRule, p: Player, offset: real, mainPlayer: Player): real
  {
    if rule == SumAsWritten then LiveDrift(p, offset, mainPlayer) else IntendedLiveDrift(p, offset, mainPlayer)
  }

  /** The position an on-demand window is moved to. */
  function OnDemandTarget(offset: real, mainPlayer: Player): real
  {
    mainPlayer.currentTime - offset
  }

  /** Pause-state mirroring: no threshold, no dependence on the mode or on forcing. */
  function Align(id: string, p: Player, mainPlayer: Player): seq<Command>
  {
    if p.paused != mainPlayer.paused then
      (if mainPlayer.paused then [Pause(id)] else [Play(id)])
    else []
  }

  /** Position correction, given the live drift measure in use. */
  function Correction(id: string, p: Player, mainPlayer: Player, offset: real, isLive: bool, forceSync: bool, liveDrift: real): seq<Command>
  {
    if isLive then
      (if liveDrift < 1.0 && !forceSync then [] else [TimeShift(id, LiveTarget(offset, mainPlayer))])
    else
      var targetTime := OnDemandTarget(offset, mainPlayer);
      if !forceSync && (Abs(p.currentTime - targetTime) < 1.0 || targetTime < 0.0) then []
      else [Seek(id, targetTime)]
  }

  /** The commands the pass issues to one non-main window whose player `p` is present. */
  function WindowCommands(id: string, p: Player, mainPlayer: Player, offset: real, isLive: bool, forceSync: bool, rule: DriftRule): seq<Command>
  {
    Align(id, p, mainPlayer) + Correction(id, p, mainPlayer, offset, isLive, forceSync, DriftBy(rule, p, offset, mainPlayer))
  }

  /**
   * What one window receives: every command targets it; it is paused exactly when
   * its pause state differs and main is paused, played exactly when it differs and
   * main plays, whatever the drift or forcing; in live mode it gets no seek and
   * exactly the time shift `-offset + mainShift` unless the pass is not forced and
   * the drift is below one second; in on-demand mode it gets no time shift and
   * exactly `seek(mainTime - offset)` unless the pass is not forced and the window
   * is within one second of that target or the target is negative.
   */
  lemma WindowCommandsSpec(id: string, p: Player, mainPlayer: Player, offset: real, isLive: bool, forceSync: bool, rule: DriftRule)
    ensures forall c :: c in WindowCommands(id, p, mainPlayer, offset, isLive, forceSync, rule) ==> c.target == id
    ensures Pause(id) in WindowCommands(id, p, mainPlayer, offset, isLive, forceSync, rule) <==>
      p.paused != mainPlayer.paused && mainPlayer.paused
    ensures Play(id) in WindowCommands(id, p, mainPlayer, offset, isLive, forceSync, rule) <==>
      p.paused != mainPlayer.paused && !mainPlayer.paused
    ensures isLive ==> forall c :: c in WindowCommands(id, p, mainPlayer, offset, isLive, forceSync, rule) ==> !c.Seek?
    ensures isLive ==> forall x :: TimeShift(id, x) in WindowCommands(id, p, mainPlayer, offset, isLive, forceSync, rule) <==>
      (forceSync || DriftBy(rule, p, offset, mainPlayer) >= 1.0) && x == LiveTarget(offset, mainPlayer)
    ensures !isLive ==> forall c :: c in WindowCommands(id, p, mainPlayer, offset, isLive, forceSync, rule) ==> !c.TimeShift?
    ensures !isLive ==> forall x :: Seek(id, x) in WindowCommands(id, p, mainPlayer, offset, isLive, forceSync, rule) <==>
      (forceSync || (Abs(p.currentTime - OnDemandTarget(offset, mainPlayer)) >= 1.0
                     && OnDemandTarget(offset, mainPlayer) >= 0.0))
      && x == OnDemandTarget(offset, mainPlayer)
  {
  }

  /** The commands one window of the `forEach` receives: none for the main window itself or a missing player. */
  function Step(ctx: SyncContext, w: GridWindow, mainWindow: GridWindow, mainPlayer: Player, forceSync: bool): seq<Command>
  {
    if w.id == mainWindow.id then []
    else match PlayerOf(ctx.handles, w.id)
      case None => []
      case Some(p) => WindowCommands(w.id, p, mainPlayer, GetOffset(ctx.playbackOffsets, ctx.userOffsets, w, mainWindow), ctx.isLive, forceSync, ctx.driftRule)
  }

  /** The commands of the `forEach` over `ws`, in order. */
  function PassOver(ctx: SyncContext, ws: seq<GridWindow>, mainWindow: GridWindow, mainPlayer: Player, forceSync: bool): seq<Command>
    decreases |ws|
  {
    if ws == [] then []
    else PassOver(ctx, ws[..|ws| - 1], mainWindow, mainPlayer, forceSync) + Step(ctx, ws[|ws| - 1], mainWindow, mainPlayer, forceSync)
  }

  /** The commands of one call `syncVideos(forceSync)`. */
  function SyncPass(ctx: SyncContext, forceSync: bool): seq<Command>
  {
    match FindMain(ctx.windows)
    case None => []
    case Some(mainWindow) =>
      match PlayerOf(ctx.handles, mainWindow.id)
      case None => []
      case Some(mainPlayer) => PassOver(ctx, ctx.windows, mainWindow, mainPlayer, forceSync)
  }

  /** The body of the `forEach` in `syncVideos`: the commands window `w` receives, in order. */
  method SyncWindow(ctx: SyncContext, w: GridWindow, mainWindow: GridWindow, mainPlayer: Player, forceSync: bool)
    returns (issued: seq<Command>)
    ensures issued == Step(ctx, w, mainWindow, mainPlayer, forceSync)
  {
    issued := [];
    if w.id == mainWindow.id {
      return;
    }
    var player := PlayerOf(ctx.handles, w.id);
    if player.None? {
      return;
    }
    var p := player.value;
    var offset := GetOffset(ctx.playbackOffsets, ctx.userOffsets, w, mainWindow);
    if p.paused != mainPlayer.paused {
      if mainPlayer.paused {
        issued := issued + [Pause(w.id)];
      } else {
        issued := issued + [Play(w.id)];
      }
    }
    if ctx.isLive {
      var diff := if ctx.driftRule == SumAsWritten
                  then Abs(p.timeShift + offset + mainPlayer.timeShift)
                  else Abs(p.timeShift - (-offset + mainPlayer.timeShift));
      if diff < 1.0 && !forceSync {
        return;
      }
      issued := issued + [TimeShift(w.id, -offset + mainPlayer.timeShift)];
      return;
    }
    var targetTime := mainPlayer.currentTime - offset;
    var diff := Abs(p.currentTime - targetTime);
    if !forceSync {
      if diff < 1.0 || targetTime < 0.0 {
        return;
      }
    }
    issued := issued + [Seek(w.id, targetTime)];
  }

  /** `syncVideos(forceSync)`: one reconciliation pass; returns the commands it issued, in order. */
  method SyncVideosPass(ctx: SyncContext, forceSync: bool) returns (issued: seq<Command>)
    ensures FindMain(ctx.windows).None? ==> issued == []
    ensures FindMain(ctx.windows).Some? && PlayerOf(ctx.handles, FindMain(ctx.windows).value.id).None? ==> issued == []
    ensures issued == SyncPass(ctx, forceSync)
  {
    issued := [];
    var mainWindow := FindMain(ctx.windows);
    if mainWindow.None? {
      return;
    }
    var mainWindowPlayer := PlayerOf(ctx.handles, mainWindow.value.id);
    if mainWindowPlayer.None? {
      return;
    }
    var windows := ctx.windows;
    for i := 0 to |windows|
      invariant issued == PassOver(ctx, windows[..i], mainWindow.value, mainWindowPlayer.value, forceSync)
    {
      assert windows[..i + 1][..i] == windows[..i];
      var commands := SyncWindow(ctx, windows[i], mainWindow.value, mainWindowPlayer.value, forceSync);
      issued := issued + commands;
    }
    assert windows[..|windows|] == windows;
  }

  // ---------------------------------------------------------------------------
  // Which windows a pass reaches

  /** Window ids are unique in the grid. */
  predicate DistinctIds(ws: seq<GridWindow>)
  {
    forall i, j :: 0 <= i < j < |ws| ==> ws[i].id != ws[j].id
  }

  /** The offset the pass uses for window `w`. */
  function OffsetOf(ctx: SyncContext, w: GridWindow, mainWindow: GridWindow): real
  {
    GetOffset(ctx.playbackOffsets, ctx.userOffsets, w, mainWindow)
  }

  /** A window receives commands only if it is not the main window and its player is present, and only for itself. */
  lemma StepTargets(ctx: SyncContext, w: GridWindow, mainWindow: GridWindow, mainPlayer: Player, forceSync: bool)
    ensures forall c :: c in Step(ctx, w, mainWindow, mainPlayer, forceSync) ==>
      c.target == w.id && w.id != mainWindow.id && PlayerOf(ctx.handles, w.id).Some?
  {
    if w.id != mainWindow.id && PlayerOf(ctx.handles, w.id).Some? {
      WindowCommandsSpec(w.id, PlayerOf(ctx.handles, w.id).value, mainPlayer, OffsetOf(ctx, w, mainWindow), ctx.isLive, forceSync, ctx.driftRule);
    }
  }

  /** The concatenation of the command lists `parts`, in order. */
  function Flatten(parts: seq<seq<Command>>): seq<Command>
    decreases |parts|
  {
    if parts == [] then [] else Flatten(parts[..|parts| - 1]) + parts[|parts| - 1]
  }

  /** A command of the concatenation comes from some part. */
  lemma {:induction false} FlattenSource(parts: seq<seq<Command>>, c: Command) returns (k: nat)
    requires c in Flatten(parts)
    ensures k < |parts| && c in parts[k]
    decreases |parts|
  {
    var n := |parts| - 1;
    if c in Flatten(parts[..n]) {
      k := FlattenSource(parts[..n], c);
      assert parts[..n][k] == parts[k];
    } else {
      k := n;
    }
  }

  /** Every command of every part is in the concatenation. */
  lemma {:induction false} PartInFlatten(parts: seq<seq<Command>>, k: nat, c: Command)
    requires k < |parts| && c in parts[k]
    ensures c in Flatten(parts)
    decreases |parts|
  {
    var n := |parts| - 1;
    if k < n {
      assert parts[..n][k] == parts[k];
      PartInFlatten(parts[..n], k, c);
    }
  }

  /** The commands each window of `ws` receives, window by window. */
  function WindowSteps(ctx: SyncContext, ws: seq<GridWindow>, mainWindow: GridWindow, mainPlayer: Player, forceSync: bool): (parts: seq<seq<Command>>)
    ensures |parts| == |ws|
  {
    seq(|ws|, i requires 0 <= i < |ws| => Step(ctx, ws[i], mainWindow, mainPlayer, forceSync))
  }

  /** The pass over `ws` is the concatenation of what its windows receive. */
  lemma {:induction false} PassOverFlattens(ctx: SyncContext, ws: seq<GridWindow>, mainWindow: GridWindow, mainPlayer: Player, forceSync: bool)
    ensures PassOver(ctx, ws, mainWindow, mainPlayer, forceSync) == Flatten(WindowSteps(ctx, ws, mainWindow, mainPlayer, forceSync))
    decreases |ws|
  {
    if ws != [] {
      var n := |ws| - 1;
      var parts := WindowSteps(ctx, ws, mainWindow, mainPlayer, forceSync);
      assert parts[..n] == WindowSteps(ctx, ws[..n], mainWindow, mainPlayer, forceSync);
      PassOverFlattens(ctx, ws[..n], mainWindow, mainPlayer, forceSync);
    }
  }

  /** A command of the pass over `ws` comes from some window `ws[k]`. */
  lemma PassOverSource(ctx: SyncContext, ws: seq<GridWindow>, mainWindow: GridWindow, mainPlayer: Player, forceSync: bool, c: Command)
    returns (k: nat)
    requires c in PassOver(ctx, ws, mainWindow, mainPlayer, forceSync)
    ensures k < |ws| && c in Step(ctx, ws[k], mainWindow, mainPlayer, forceSync)
  {
    PassOverFlattens(ctx, ws, mainWindow, mainPlayer, forceSync);
    k := FlattenSource(WindowSteps(ctx, ws, mainWindow, mainPlayer, forceSync), c);
  }

  /** Every command window `ws[k]` receives is part of the pass over `ws`. */
  lemma StepInPassOver(ctx: SyncContext, ws: seq<GridWindow>, mainWindow: GridWindow, mainPlayer: Player, forceSync: bool, k: nat, c: Command)
    requires k < |ws| && c in Step(ctx, ws[k], mainWindow, mainPlayer, forceSync)
    ensures c in PassOver(ctx, ws, mainWindow, mainPlayer, forceSync)
  {
    PassOverFlattens(ctx, ws, mainWindow, mainPlayer, forceSync);
    PartInFlatten(WindowSteps(ctx, ws, mainWindow, mainPlayer, forceSync), k, c);
  }

  /** The pass over `ws` issues exactly the commands the windows of `ws` receive. */
  lemma PassOverMembers(ctx: SyncContext, ws: seq<GridWindow>, mainWindow: GridWindow, mainPlayer: Player, forceSync: bool, c: Command)
    ensures c in PassOver(ctx, ws, mainWindow, mainPlayer, forceSync) <==>
      exists k :: 0 <= k < |ws| && c in Step(ctx, ws[k], mainWindow, mainPlayer, forceSync)
  {
    if c in PassOver(ctx, ws, mainWindow, mainPlayer, forceSync) {
      var k := PassOverSource(ctx, ws, mainWindow, mainPlayer, forceSync, c);
    }
    if exists k :: 0 <= k < |ws| && c in Step(ctx, ws[k], mainWindow, mainPlayer, forceSync) {
      var k :| 0 <= k < |ws| && c in Step(ctx, ws[k], mainWindow, mainPlayer, forceSync);
      StepInPassOver(ctx, ws, mainWindow, mainPlayer, forceSync, k, c);
    }
  }

  /**
   * Every command of a pass goes to a window of the grid other than the main one
   * whose player is present: the main window never receives a command, and a
   * missing player only takes its own window out of the pass.
   */
  lemma CommandsReachOnlyPlayingNonMainWindows(ctx: SyncContext, forceSync: bool, c: Command)
    requires c in SyncPass(ctx, forceSync)
    ensures FindMain(ctx.windows).Some? && c.target != FindMain(ctx.windows).value.id
    ensures PlayerOf(ctx.handles, FindMain(ctx.windows).value.id).Some? && PlayerOf(ctx.handles, c.target).Some?
    ensures exists k :: 0 <= k < |ctx.windows| && ctx.windows[k].id == c.target
  {
    var mainWindow := FindMain(ctx.windows).value;
    var mainPlayer := PlayerOf(ctx.handles, mainWindow.id).value;
    var k := PassOverSource(ctx, ctx.windows, mainWindow, mainPlayer, forceSync, c);
    StepTargets(ctx, ctx.windows[k], mainWindow, mainPlayer, forceSync);
  }

  /** A forced pass corrects the position of every non-main window whose player is present, whatever its drift. */
  lemma ForcedPassCorrectsEveryWindow(ctx: SyncContext, k: nat)
    requires FindMain(ctx.windows).Some? && PlayerOf(ctx.handles, FindMain(ctx.windows).value.id).Some?
    requires k < |ctx.windows| && ctx.windows[k].id != FindMain(ctx.windows).value.id
    requires PlayerOf(ctx.handles, ctx.windows[k].id).Some?
    ensures exists c :: c in SyncPass(ctx, true) && c.target == ctx.windows[k].id && (c.Seek? || c.TimeShift?)
  {
    var mainWindow := FindMain(ctx.windows).value;
    var mainPlayer := PlayerOf(ctx.handles, mainWindow.id).value;
    var w := ctx.windows[k];
    var p := PlayerOf(ctx.handles, w.id).value;
    var offset := OffsetOf(ctx, w, mainWindow);
    WindowCommandsSpec(w.id, p, mainPlayer, offset, ctx.isLive, true, ctx.driftRule);
    var c := if ctx.isLive then TimeShift(w.id, LiveTarget(offset, mainPlayer)) else Seek(w.id, OnDemandTarget(offset, mainPlayer));
    assert c in Step(ctx, w, mainWindow, mainPlayer, true);
    StepInPassOver(ctx, ctx.windows, mainWindow, mainPlayer, true, k, c);
  }

  /** The on-demand window is within a second of its target, or the target is negative. */
  predicate OnDemandInSync(p: Player, offset: real, mainPlayer: Player)
  {
    var target := OnDemandTarget(offset, mainPlayer);
    Abs(p.currentTime - target) < 1.0 || target < 0.0
  }

  /** Window `w` is within the threshold of the mode: no correction unless forced. */
  predicate InSync(ctx: SyncContext, w: GridWindow, mainWindow: GridWindow, mainPlayer: Player)
  {
    PlayerOf(ctx.handles, w.id).Some? &&
    if ctx.isLive then DriftBy(ctx.driftRule, PlayerOf(ctx.handles, w.id).value, OffsetOf(ctx, w, mainWindow), mainPlayer) < 1.0
    else OnDemandInSync(PlayerOf(ctx.handles, w.id).value, OffsetOf(ctx, w, mainWindow), mainPlayer)
  }

  lemma QuietStep(ctx: SyncContext, w: GridWindow, mainWindow: GridWindow, mainPlayer: Player)
    requires InSync(ctx, w, mainWindow, mainPlayer)
    ensures forall c :: c in Step(ctx, w, mainWindow, mainPlayer, false) ==> !c.Seek? && !c.TimeShift?
  {
    if w.id != mainWindow.id {
      WindowCommandsSpec(w.id, PlayerOf(ctx.handles, w.id).value, mainPlayer, OffsetOf(ctx, w, mainWindow), ctx.isLive, false, ctx.driftRule);
    }
  }

  /**
   * A non-forced pass sends no seek and no time shift to a window within the
   * threshold: live drift below one second, or on-demand distance to the target
   * below one second or a negative target.
   */
  lemma InSyncWindowIsNotMoved(ctx: SyncContext, k: nat)
    requires FindMain(ctx.windows).Some? && PlayerOf(ctx.handles, FindMain(ctx.windows).value.id).Some?
    requires DistinctIds(ctx.windows) && k < |ctx.windows|
    requires InSync(ctx, ctx.windows[k], FindMain(ctx.windows).value, PlayerOf(ctx.handles, FindMain(ctx.windows).value.id).value)
    ensures forall c :: c in SyncPass(ctx, false) && c.target == ctx.windows[k].id ==> !c.Seek? && !c.TimeShift?
  {
    var mainWindow := FindMain(ctx.windows).value;
    var mainPlayer := PlayerOf(ctx.handles, mainWindow.id).value;
    var w := ctx.windows[k];
    forall c | c in SyncPass(ctx, false) && c.target == w.id ensures !c.Seek? && !c.TimeShift? {
      var j := PassOverSource(ctx, ctx.windows, mainWindow, mainPlayer, false, c);
      StepTargets(ctx, ctx.windows[j], mainWindow, mainPlayer, false);
      assert j == k;
      QuietStep(ctx, w, mainWindow, mainPlayer);
    }
  }

  // ---------------------------------------------------------------------------
  // Convergence: what a second pass does once the players obeyed the first

  /** An idealised player's reaction to a command. */
  function ApplyCommand(p: Player, c: Command): Player
  {
    match c
    case Pause(_) => p.(paused := true)
    case Play(_) => p.(paused := false)
    case TimeShift(_, shift) => p.(timeShift := shift)
    case Seek(_, time) => p.(currentTime := time)
  }

  /** The player of window `id` after it obeyed, in order, the commands of `cmds` addressed to it. */
  function PlayerAfter(op: Option<Player>, id: string, cmds: seq<Command>): (r: Option<Player>)
    ensures r.Some? <==> op.Some?
    decreases |cmds|
  {
    if cmds == [] then op
    else PlayerAfter(if op.Some? && cmds[0].target == id then Some(ApplyCommand(op.value, cmds[0])) else op, id, cmds[1..])
  }

  /** The registry after every present player obeyed the commands of `cmds`, in order. */
  function ApplyAll(handles: Handles, cmds: seq<Command>): Handles
    decreases |cmds|
  {
    if cmds == [] then handles
    else
      var c := cmds[0];
      var next := if PlayerOf(handles, c.target).Some?
                  then handles[c.target := Some(ApplyCommand(PlayerOf(handles, c.target).value, c))]
                  else handles;
      ApplyAll(next, cmds[1..])
  }

  lemma {:induction false} ApplyAllPerPlayer(handles: Handles, cmds: seq<Command>, id: string)
    ensures PlayerOf(ApplyAll(handles, cmds), id) == PlayerAfter(PlayerOf(handles, id), id, cmds)
    decreases |cmds|
  {
    if cmds != [] {
      var c := cmds[0];
      var next := if PlayerOf(handles, c.target).Some?
                  then handles[c.target := Some(ApplyCommand(PlayerOf(handles, c.target).value, c))]
                  else handles;
      ApplyAllPerPlayer(next, cmds[1..], id);
    }
  }

  lemma {:induction false} PlayerAfterAppend(op: Option<Player>, id: string, a: seq<Command>, b: seq<Command>)
    ensures PlayerAfter(op, id, a + b) == PlayerAfter(PlayerAfter(op, id, a), id, b)
    decreases |a|
  {
    if a == [] {
      assert a + b == b;
    } else {
      assert (a + b)[1..] == a[1..] + b;
      PlayerAfterAppend(if op.Some? && a[0].target == id then Some(ApplyCommand(op.value, a[0])) else op, id, a[1..], b);
    }
  }

  lemma {:induction false} PlayerAfterUntargeted(op: Option<Player>, id: string, cmds: seq<Command>)
    requires forall c :: c in cmds ==> c.target != id
    ensures PlayerAfter(op, id, cmds) == op
    decreases |cmds|
  {
    if cmds != [] {
      assert cmds[0] in cmds;
      PlayerAfterUntargeted(op, id, cmds[1..]);
    }
  }

  /** With unique ids, the pass over `ws` changes the player of `ws[k]` only by the commands `ws[k]` itself receives. */
  lemma {:induction false} PassOverOnWindow(ctx: SyncContext, ws: seq<GridWindow>, mainWindow: GridWindow, mainPlayer: Player, forceSync: bool, k: nat)
    requires DistinctIds(ws) && k < |ws|
    ensures PlayerAfter(PlayerOf(ctx.handles, ws[k].id), ws[k].id, PassOver(ctx, ws, mainWindow, mainPlayer, forceSync))
         == PlayerAfter(PlayerOf(ctx.handles, ws[k].id), ws[k].id, Step(ctx, ws[k], mainWindow, mainPlayer, forceSync))
    decreases |ws|
  {
    var n := |ws| - 1;
    var init := ws[..n];
    var id := ws[k].id;
    var op := PlayerOf(ctx.handles, id);
    var last := Step(ctx, ws[n], mainWindow, mainPlayer, forceSync);
    var before := PassOver(ctx, init, mainWindow, mainPlayer, forceSync);
    PlayerAfterAppend(op, id, before, last);
    if k == n {
      forall c | c in before ensures c.target != id {
        var j := PassOverSource(ctx, init, mainWindow, mainPlayer, forceSync, c);
        StepTargets(ctx, init[j], mainWindow, mainPlayer, forceSync);
        assert init[j] == ws[j];
      }
      PlayerAfterUntargeted(op, id, before);
    } else {
      assert init[k] == ws[k];
      assert DistinctIds(init);
      PassOverOnWindow(ctx, init, mainWindow, mainPlayer, forceSync, k);
      StepTargets(ctx, ws[n], mainWindow, mainPlayer, forceSync);
      PlayerAfterUntargeted(PlayerAfter(op, id, before), id, last);
    }
  }

  lemma PlayerAfterSingle(p: Player, id: string, c: Command)
    requires c.target == id
    ensures PlayerAfter(Some(p), id, [c]) == Some(ApplyCommand(p, c))
  {
    assert [c][1..] == [];
  }

  /**
   * A window that obeyed its commands has the main player's pause state, and its
   * position is the correction's target when a correction was issued, else unchanged.
   */
  lemma ObeyedWindow(id: string, p: Player, mainPlayer: Player, offset: real, isLive: bool, forceSync: bool, liveDrift: real)
    ensures var cs := Align(id, p, mainPlayer) + Correction(id, p, mainPlayer, offset, isLive, forceSync, liveDrift);
      var after := PlayerAfter(Some(p), id, cs);
      after.Some? && after.value.paused == mainPlayer.paused
      && (if Correction(id, p, mainPlayer, offset, isLive, forceSync, liveDrift) == [] then
            after.value.timeShift == p.timeShift && after.value.currentTime == p.currentTime
          else if isLive then
            after.value.timeShift == LiveTarget(offset, mainPlayer) && after.value.currentTime == p.currentTime
          else
            after.value.timeShift == p.timeShift && after.value.currentTime == OnDemandTarget(offset, mainPlayer))
  {
    var a := Align(id, p, mainPlayer);
    var c := Correction(id, p, mainPlayer, offset, isLive, forceSync, liveDrift);
    PlayerAfterAppend(Some(p), id, a, c);
    var mid := PlayerAfter(Some(p), id, a);
    if a != [] {
      PlayerAfterSingle(p, id, a[0]);
    }
    assert mid.Some? && mid.value.paused == mainPlayer.paused;
    assert mid.value.timeShift == p.timeShift && mid.value.currentTime == p.currentTime;
    if c != [] {
      PlayerAfterSingle(mid.value, id, c[0]);
    }
  }

  /**
   * A window that obeyed one pass receives nothing from a second, non-forced pass:
   * on demand under either drift rule, live under the distance to the target.
   */
  lemma WindowSettles(id: string, p: Player, mainPlayer: Player, offset: real, isLive: bool, forceSync: bool, rule: DriftRule)
    requires !isLive || rule == DistanceToTarget
    ensures PlayerAfter(Some(p), id, WindowCommands(id, p, mainPlayer, offset, isLive, forceSync, rule)).Some?
    ensures WindowCommands(id, PlayerAfter(Some(p), id, WindowCommands(id, p, mainPlayer, offset, isLive, forceSync, rule)).value,
                           mainPlayer, offset, isLive, false, rule) == []
  {
    ObeyedWindow(id, p, mainPlayer, offset, isLive, forceSync, DriftBy(rule, p, offset, mainPlayer));
  }

  /** With no more commands to a window, a later pass leaves it alone too. */
  lemma {:induction false} PassOverSilent(ctx: SyncContext, ws: seq<GridWindow>, mainWindow: GridWindow, mainPlayer: Player, forceSync: bool)
    requires forall k :: 0 <= k < |ws| ==> Step(ctx, ws[k], mainWindow, mainPlayer, forceSync) == []
    ensures PassOver(ctx, ws, mainWindow, mainPlayer, forceSync) == []
    decreases |ws|
  {
    if ws != [] {
      var n := |ws| - 1;
      var init := ws[..n];
      forall k | 0 <= k < |init| ensures Step(ctx, init[k], mainWindow, mainPlayer, forceSync) == [] {
        assert init[k] == ws[k];
      }
      PassOverSilent(ctx, init, mainWindow, mainPlayer, forceSync);
      assert Step(ctx, ws[n], mainWindow, mainPlayer, forceSync) == [];
    }
  }

  /**
   * With unique window ids, once every player has obeyed a pass (forced or not),
   * the next non-forced pass issues no command at all: on demand under either
   * drift rule, live under the distance to the target.
   */
  lemma PassSettles(ctx: SyncContext, forceSync: bool)
    requires DistinctIds(ctx.windows) && (!ctx.isLive || ctx.driftRule == DistanceToTarget)
    ensures SyncPass(ctx.(handles := ApplyAll(ctx.handles, SyncPass(ctx, forceSync))), false) == []
  {
    var first := SyncPass(ctx, forceSync);
    var ctx2 := ctx.(handles := ApplyAll(ctx.handles, first));
    if FindMain(ctx.windows).Some? && PlayerOf(ctx.handles, FindMain(ctx.windows).value.id).Some? {
      var mainWindow := FindMain(ctx.windows).value;
      var mainPlayer := PlayerOf(ctx.handles, mainWindow.id).value;
      var ws := ctx.windows;
      var m :| 0 <= m < |ws| && ws[m] == mainWindow;
      ApplyAllPerPlayer(ctx.handles, first, mainWindow.id);
      PassOverOnWindow(ctx, ws, mainWindow, mainPlayer, forceSync, m);
      assert PlayerOf(ctx2.handles, mainWindow.id) == Some(mainPlayer);
      forall k | 0 <= k < |ws| ensures Step(ctx2, ws[k], mainWindow, mainPlayer, false) == [] {
        var id := ws[k].id;
        ApplyAllPerPlayer(ctx.handles, first, id);
        PassOverOnWindow(ctx, ws, mainWindow, mainPlayer, forceSync, k);
        if id != mainWindow.id && PlayerOf(ctx.handles, id).Some? {
          WindowSettles(id, PlayerOf(ctx.handles, id).value, mainPlayer, OffsetOf(ctx, ws[k], mainWindow), ctx.isLive, forceSync, ctx.driftRule);
        }
      }
      PassOverSilent(ctx2, ws, mainWindow, mainPlayer, false);
    }
  }

  /**
   * Live mode as written: a window that was just time-shifted to its target is
   * time-shifted again by the next non-forced pass unless the main player is less
   * than half a second from the live edge, because the drift adds the two shifts.
   */
  lemma LiveWindowReshiftedUnlessNearEdge(id: string, p: Player, mainPlayer: Player, offset: real, forceSync: bool)
    requires forceSync || LiveDrift(p, offset, mainPlayer) >= 1.0
    ensures PlayerAfter(Some(p), id, WindowCommands(id, p, mainPlayer, offset, true, forceSync, SumAsWritten)).Some?
    ensures var after := PlayerAfter(Some(p), id, WindowCommands(id, p, mainPlayer, offset, true, forceSync, SumAsWritten)).value;
      WindowCommands(id, after, mainPlayer, offset, true, false, SumAsWritten) == [] <==> Abs(mainPlayer.timeShift + mainPlayer.timeShift) < 1.0
  {
    ObeyedWindow(id, p, mainPlayer, offset, true, forceSync, LiveDrift(p, offset, mainPlayer));
  }

  /** The two drift rules give the same commands while the main player is at the live edge. */
  lemma IntendedAgreesAtLiveEdge(id: string, p: Player, mainPlayer: Player, offset: real, isLive: bool, forceSync: bool)
    requires mainPlayer.timeShift == 0.0
    ensures WindowCommands(id, p, mainPlayer, offset, isLive, forceSync, DistanceToTarget)
         == WindowCommands(id, p, mainPlayer, offset, isLive, forceSync, SumAsWritten)
  {
  }

  /**
   * The as-written live pass on two windows: main shifted 2 s behind live, the other
   * window 10 s behind with a 3 s user offset. The first pass shifts it to -5 s,
   * where it is aligned; the second pass still measures a 4 s drift and shifts it again.
   */
  lemma LiveSumFormulaReshiftsAlignedWindow()
    ensures var ctx := SyncContext(
              [GridWindow("m", MainRole), GridWindow("w", OtherRole)],
              map["m" := Some(Player(false, 0.0, -2.0)), "w" := Some(Player(false, 0.0, -10.0))],
              true, PlaybackOffsets(map[]), Some(UserOffsets(map["other" := 3.0])), SumAsWritten);
      SyncPass(ctx, false) == [TimeShift("w", -5.0)]
      && SyncPass(ctx.(handles := ApplyAll(ctx.handles, SyncPass(ctx, false))), false) == [TimeShift("w", -5.0)]
  {
    var ctx := SyncContext(
      [GridWindow("m", MainRole), GridWindow("w", OtherRole)],
      map["m" := Some(Player(false, 0.0, -2.0)), "w" := Some(Player(false, 0.0, -10.0))],
      true, PlaybackOffsets(map[]), Some(UserOffsets(map["other" := 3.0])), SumAsWritten);
    assert "m" != "w" by { assert "m"[0] != "w"[0]; }
    var ws := ctx.windows;
    var mainWindow := ws[0];
    var mainPlayer := Player(false, 0.0, -2.0);
    assert FindMain(ws) == Some(mainWindow);
    assert ws[..1] == [mainWindow] && ws[..2] == ws && [mainWindow][..0] == [];
    assert UserOffsetKey(ws[1]) == "other";
    assert OffsetOf(ctx, ws[1], mainWindow) == 3.0;
    var before := Player(false, 0.0, -10.0);
    var after := Player(false, 0.0, -5.0);
    assert LiveDrift(before, 3.0, mainPlayer) == 9.0;
    assert LiveDrift(after, 3.0, mainPlayer) == 4.0;
    assert Step(ctx, ws[1], mainWindow, mainPlayer, false) == [TimeShift("w", -5.0)];
    assert PassOver(ctx, [mainWindow], mainWindow, mainPlayer, false) == [];
    var first := SyncPass(ctx, false);
    assert first == [TimeShift("w", -5.0)];
    var ctx2 := ctx.(handles := ApplyAll(ctx.handles, first));
    assert first[1..] == [];
    assert ctx2.handles == ctx.handles["w" := Some(after)];
    assert OffsetOf(ctx2, ws[1], mainWindow) == 3.0;
    assert Step(ctx2, ws[1], mainWindow, mainPlayer, false) == [TimeShift("w", -5.0)];
    assert PassOver(ctx2, [mainWindow], mainWindow, mainPlayer, false) == [];
  }
}
