# zium.app video synchronisation and stream picker, in Dafny

zium.app shows several F1 TV video feeds side by side in a grid. One feed is the
"main" window. This project models the logic that keeps the other windows in
step with it, together with the pure helpers that feed that logic, and proves
properties of the model:

- **The sync pass** (`syncVideos`, module `SyncVideos`). The pass finds the
  first main window and its player. It then visits every other window whose
  player exists:
  - it works out the window's offset from the static role-pair table plus the
    user's own adjustment (`getOffset`);
  - it mirrors the main player's pause state;
  - it corrects the position when the window is a second or more off, or when
    the pass is forced. A live session uses `timeShift`; a replay uses `seek`.

  Players are snapshots `(paused, currentTime, timeShift)` in a registry keyed
  by window id. A pass returns the list of commands it issues, in order. To
  prove that passes converge, a player that obeys its commands is modelled by
  `ApplyAll`. The live drift is measured by a drift rule: the formula as
  written, or the corrected one described under "Findings".
- **The hook's lifecycle** (class `SyncLifecycle.SyncEngine`). It covers:
  - the interval tick, every 5 s live and every 100 ms on demand, which runs a
    pass and retries the listener setup until a cleanup is installed;
  - the main player's seek, time-shift and destroy events;
  - the user-offset change event;
  - the visibility trigger;
  - the effect cleanup, which skips `off` on a destroyed main player.

  Timers, DOM events and player events are explicit method calls. Subscriptions
  are recorded as a log of `on`/`off` calls. Each write to the main window's registry entry
  starts a new player generation. Listeners sit on the generation that setup
  captured, so a player that replaces it later is not listened to.
- **Race details** (module `RaceDetails`):
  - the identifier-to-type rule, including the 2021 season rule for "WIF";
  - the pretty-name table;
  - `collectStreams`, which sorts the stream list into the main, data-channel,
    tracker, driver and other buckets;
  - `createF1OffsetsMap`, which builds the nested offset table that
    `getOffset` reads.
- **Stream picker list** (module `StreamPicker`):
  - the entries, which are the present global feeds followed by the drivers;
  - the filter by picker type, hidden ids and case-insensitive search text;
  - the wrap-around arrow-key selection and the Enter choice;
  - the "lagged" state, which keeps the last open configuration while the
    sheet closes.
- **Stream picker requests** (class `StreamPickerState.StreamPickerData`). This
  is the `useStreamPickerData` state: `requestStream` opens the picker with a
  pending request, and `onChoice` / `onCancel` settle that request with a choice
  or with `null` and close the picker. The promise is a request number, and the
  settled results are a map that is never overwritten.

The project has no entry point and does no I/O. Every `.dfy` file belongs to
it; all modules are declared at top level and imported by name.

## Model

| member | source | states |
|---|---|---|
| RaceDetails.PrettyName | src/hooks/useVideoRaceDetails/useVideoRaceDetails.utils.ts:12-27 | "F1 LIVE", "TRACKER", "DATA", "INTERNATIONAL" and "PIT LANE" get their display names; every other name is returned unchanged |
| RaceDetails.PrettyNameIdempotent | src/hooks/useVideoRaceDetails/useVideoRaceDetails.utils.ts:12-27 | prettifying a pretty name changes nothing |
| RaceDetails.StreamTypeRules | src/hooks/useVideoRaceDetails/useVideoRaceDetails.utils.ts:29-51 | main iff "PRES", or "WIF" in a season up to 2021; driver-tracker iff "TRACKER"; data-channel iff "DATA"; driver iff "OBC"; other iff none of these |
| RaceDetails.CollectStreams | src/hooks/useVideoRaceDetails/useVideoRaceDetails.utils.ts:53-142 | with no stream list, the result is the fallback main stream (channel 0, `CONTENT/PLAY?contentId=<raceId>`, title and identifier "main"), empty lists and no tracker or data stream; otherwise the loop's buckets equal the fold `Collected` over the list |
| RaceDetails.SlotIsLastOfType | src/hooks/useVideoRaceDetails/useVideoRaceDetails.utils.ts:87-109 | each of the main, data-channel and tracker slots after the loop equals an independent scan for the last stream of that type |
| RaceDetails.SlotEmptyIffNoneOfType | src/hooks/useVideoRaceDetails/useVideoRaceDetails.utils.ts:87-109 | the main, data-channel and tracker slots are empty exactly when no stream has that type |
| RaceDetails.SlotHoldsLastOfType | src/hooks/useVideoRaceDetails/useVideoRaceDetails.utils.ts:87-109 | a filled slot holds the last stream of its type in input order, with the pretty title |
| RaceDetails.DriverStreamsAreDriverTyped | src/hooks/useVideoRaceDetails/useVideoRaceDetails.utils.ts:111-126 | the driver list is exactly the driver-typed streams in input order, each typed "driver" with its raw title and driver fields |
| RaceDetails.OtherStreamsAreOtherTyped | src/hooks/useVideoRaceDetails/useVideoRaceDetails.utils.ts:129-132 | the other list is exactly the other-typed streams in input order, each typed "other" with the pretty title |
| RaceDetails.ListedStreamsBound | src/hooks/useVideoRaceDetails/useVideoRaceDetails.utils.ts:111-132 | the driver list and the other list together are no longer than the input |
| RaceDetails.BaseChannel | src/hooks/useVideoRaceDetails/useVideoRaceDetails.utils.ts:157 | none exactly when every channel equals the one to adjust; otherwise the first channel that differs |
| RaceDetails.CreateF1OffsetsMap | src/hooks/useVideoRaceDetails/useVideoRaceDetails.utils.ts:144-171 | no offsets give the empty table; otherwise the loop's table equals the fold `OffsetsOf` over the entries |
| RaceDetails.LookupAfterAdd | src/hooks/useVideoRaceDetails/useVideoRaceDetails.utils.ts:163-167 | a kept entry sets exactly its own (adjusted type, base type) cell; every other cell, including other columns of the same row, keeps its value |
| RaceDetails.OffsetAbsentIffNoWriter | src/hooks/useVideoRaceDetails/useVideoRaceDetails.utils.ts:154-168 | a cell is absent exactly when no kept entry writes it |
| RaceDetails.OffsetIsLastWriter | src/hooks/useVideoRaceDetails/useVideoRaceDetails.utils.ts:163-167 | a present cell holds the delay of the last entry that writes it |
| RaceDetails.OffsetRowExists | src/hooks/useVideoRaceDetails/useVideoRaceDetails.utils.ts:154-168 | a row exists exactly when some kept entry adjusts that type |
| SyncVideos.GetOffset | src/views/Viewer/hooks/useSyncVideos.ts:133-149 | the table cell for (window type, main type) plus the user adjustment keyed by driver id for drivers and by type otherwise, each 0 when absent |
| SyncVideos.FindMain | src/views/Viewer/hooks/useSyncVideos.ts:18 | none exactly when no window is main; otherwise the first main window |
| SyncVideos.WindowCommandsSpec | src/views/Viewer/hooks/useSyncVideos.ts:43-71 | a window gets only commands for itself; pause iff its pause state differs and main is paused, play iff it differs and main plays, whatever the drift; live: no seek, and `timeShift(-offset + mainShift)` unless not forced and the drift is below 1; on demand: no time shift, and `seek(mainTime - offset)` unless not forced and it is within 1 s of the target or the target is negative |
| SyncVideos.SyncWindow | src/views/Viewer/hooks/useSyncVideos.ts:30-72 | the `forEach` body issues exactly the window's `Step` commands |
| SyncVideos.SyncVideosPass | src/views/Viewer/hooks/useSyncVideos.ts:17-73 | no main window, or no main player, means no command; otherwise the loop issues the per-window commands in window order |
| SyncVideos.StepTargets | src/views/Viewer/hooks/useSyncVideos.ts:30-39 | a window receives commands only when it is not the main window and its player exists, and only for itself |
| SyncVideos.PassOverMembers | src/views/Viewer/hooks/useSyncVideos.ts:30-72 | a pass issues a command exactly when some window receives it |
| SyncVideos.CommandsReachOnlyPlayingNonMainWindows | src/views/Viewer/hooks/useSyncVideos.ts:18-39 | every command of a pass targets a grid window other than main whose player exists, and the main player exists |
| SyncVideos.ForcedPassCorrectsEveryWindow | src/views/Viewer/hooks/useSyncVideos.ts:51-71 | a forced pass seeks or time-shifts every non-main window with a player, whatever its drift |
| SyncVideos.InSyncWindowIsNotMoved | src/views/Viewer/hooks/useSyncVideos.ts:51-69 | with unique ids, a non-forced pass neither seeks nor time-shifts a window within the threshold |
| SyncVideos.PassOverOnWindow | src/views/Viewer/hooks/useSyncVideos.ts:30-72 | with unique ids, other windows' commands do not change a window's player |
| SyncVideos.WindowSettles | src/views/Viewer/hooks/useSyncVideos.ts:43-71 | once a window has obeyed its commands, a non-forced pass gives it none: on demand under either drift rule, live under the corrected one |
| SyncVideos.PassSettles | src/views/Viewer/hooks/useSyncVideos.ts:17-73 | with unique ids, once the players have obeyed a pass, the next non-forced pass issues nothing: on demand under either drift rule, live under the corrected one |
| SyncVideos.LiveWindowReshiftedUnlessNearEdge | src/views/Viewer/hooks/useSyncVideos.ts:51-58 | live, after a window obeys its time shift, the next non-forced pass leaves it alone exactly when the main player is less than 0.5 s from the live edge |
| SyncVideos.LiveSumFormulaReshiftsAlignedWindow | src/views/Viewer/hooks/useSyncVideos.ts:52 | concrete case: main 2 s behind live, the other window 10 s behind with a 3 s offset; the first pass shifts it to -5 and the second pass shifts it to -5 again |
| SyncVideos.IntendedAgreesAtLiveEdge | src/views/Viewer/hooks/useSyncVideos.ts:52 | the corrected and the as-written drift rules issue the same commands while main is at the live edge |
| SyncLifecycle.TeardownLeavesOnly | src/views/Viewer/hooks/useSyncVideos.ts:98-104 | after setup and cleanup the offset listener is gone; seek and time-shift listeners stay only on a destroyed player; the destroy handler stays |
| SyncLifecycle.SyncEngine.constructor | src/views/Viewer/hooks/useSyncVideos.ts:107-116 | mounting starts with nothing subscribed and no command; the tick period is 5000 live and 100 otherwise |
| SyncLifecycle.SyncEngine.Sync | src/views/Viewer/hooks/useSyncVideos.ts:17-73 | one pass appends exactly `SyncPass` of the current state to the command log |
| SyncLifecycle.SyncEngine.SetupPlayerListeners | src/views/Viewer/hooks/useSyncVideos.ts:76-105 | subscribes seek, time shift, destroy and the offset listener, and installs the cleanup, exactly when the main window and its player exist; otherwise nothing |
| SyncLifecycle.SyncEngine.Tick | src/views/Viewer/hooks/useSyncVideos.ts:107-116 | a tick runs a non-forced pass; it retries the setup only while no cleanup is installed, so a successful setup is never repeated and the destroy flag and the subscribed player are kept |
| SyncLifecycle.SyncEngine.OnMainPlayerEvent | src/views/Viewer/hooks/useSyncVideos.ts:90-95 | only events of the player setup subscribed to act, while the effect runs: seek and time shift force a pass, destroy sets the flag; events of a later main player change nothing |
| SyncLifecycle.SyncEngine.OnOffsetChange | src/views/Viewer/hooks/useSyncVideos.ts:96 | the new user offsets are stored, and a pass over them is forced while the offset listener is attached; the destroy flag is kept |
| SyncLifecycle.SyncEngine.OnVisibilityChange | src/views/Viewer/hooks/useSyncVideos.ts:118-122 | a forced pass when the document becomes visible; nothing when it is hidden; the destroy flag is kept |
| SyncLifecycle.SyncEngine.SetHandle | src/views/Viewer/hooks/useSyncVideos.ts:9 | a player becomes ready or goes away in the registry; a new entry for main starts a new player generation that has no listeners; nothing else changes |
| SyncLifecycle.DestroyedMainSkipsOff | src/views/Viewer/hooks/useSyncVideos.ts:88-104 | after main's destroy, with ticks, a visibility change and an offset change in between, the cleanup makes no `off` call and only removes the offset listener |
| SyncLifecycle.ReplacedMainPlayerIsNotListened | src/views/Viewer/hooks/useSyncVideos.ts:83-93 | after setup, a player that replaces main's gets no listeners: its events issue no command beyond the tick's own pass |
| SyncLifecycle.SyncEngine.Teardown | src/views/Viewer/hooks/useSyncVideos.ts:125-129 | the cleanup calls `off` on seek and time shift only if main was not destroyed, and always removes the offset listener |
| StreamPickerState.StreamPickerData.constructor | src/hooks/useStreamPicker/useStreamPicker.tsx:36 | the picker starts closed with no request |
| StreamPickerState.StreamPickerData.RequestStream | src/hooks/useStreamPicker/useStreamPicker.tsx:38-50 | opens without drag-and-drop, with the given picker type (default "all") and hidden ids (default none), holding a new pending request |
| StreamPickerState.StreamPickerData.Close | src/hooks/useStreamPicker/useStreamPicker.tsx:52-56 | always closed afterwards; nothing is settled |
| StreamPickerState.StreamPickerData.OnChoice | src/hooks/useStreamPicker/useStreamPicker.tsx:58-67 | when open with a pending request, settles it once with `[value, type]` and closes; otherwise nothing changes; no settled request is overwritten |
| StreamPickerState.StreamPickerData.OnCancel | src/hooks/useStreamPicker/useStreamPicker.tsx:69-75 | when open with a pending request, settles it with `null` and closes; otherwise nothing changes |
| StreamPicker.ContainsIffOccurs | src/components/StreamPicker/StreamPicker.tsx:181 | the substring test holds exactly when the needle occurs at some position |
| StreamPicker.IncludesIgnoresCase | src/components/StreamPicker/StreamPicker.tsx:180-182 | lower-casing either argument does not change the answer, and the empty text is found everywhere |
| StreamPicker.LowerStrIdempotent | src/components/StreamPicker/StreamPicker.tsx:181 | lower-casing twice is lower-casing once |
| StreamPicker.GlobalEntriesMembers | src/components/StreamPicker/StreamPicker.tsx:31-37 | the global entries are exactly the non-null feeds, each keyed by its type |
| StreamPicker.GlobalEntriesSingle | src/components/StreamPicker/StreamPicker.tsx:31-37 | a null feed gives no entry; a present feed gives one entry keyed by its type name |
| StreamPicker.GlobalEntriesAppend | src/components/StreamPicker/StreamPicker.tsx:31-37 | the entries of two runs of feeds are those of the first run followed by those of the second, so the present feeds keep their order and multiplicity |
| StreamPicker.DriverEntriesAt | src/components/StreamPicker/StreamPicker.tsx:39-45 | the i-th driver entry is the i-th driver, keyed by its id |
| StreamPicker.AllEntriesLayout | src/components/StreamPicker/StreamPicker.tsx:47 | all global entries come first, then the drivers in order |
| StreamPicker.FilterMembers | src/components/StreamPicker/StreamPicker.tsx:52-78 | an entry survives the filter exactly when it is in the list and the callback keeps it |
| StreamPicker.FilterIsSubsequence | src/components/StreamPicker/StreamPicker.tsx:52-80 | the filtered list keeps the original order |
| StreamPicker.FilterKeepsAll | src/components/StreamPicker/StreamPicker.tsx:52-78 | when the callback keeps every entry, the list is unchanged |
| StreamPicker.ListedEntries | src/components/StreamPicker/StreamPicker.tsx:49-78 | an entry is listed exactly when it is a driver if the open picker asks for drivers, is not hidden by the open picker, and matches the non-empty search, ignoring case, on "lastName firstName" or the title |
| StreamPicker.ListedInOrder | src/components/StreamPicker/StreamPicker.tsx:30-81 | the listed entries are a subsequence of all entries |
| StreamPicker.ClosedListsEverything | src/components/StreamPicker/StreamPicker.tsx:49-50 | a closed lagged state with empty search lists every entry in order: no hidden ids, picker type "all" |
| StreamPicker.LoopSelection | src/components/StreamPicker/StreamPicker.tsx:184-194 | the result lies in [0, max] whenever max >= 0; an index already in range is kept; a negative index wraps to max; an index above max wraps to 0 |
| StreamPicker.PressesStayInRange | src/components/StreamPicker/StreamPicker.tsx:89-94 | from a valid selection, any number of arrow presses keeps it valid |
| StreamPicker.PressesMove | src/components/StreamPicker/StreamPicker.tsx:89-94 | away from the ends, each press moves the selection by one |
| StreamPicker.FullCycle | src/components/StreamPicker/StreamPicker.tsx:89-94 | as many presses as there are entries bring the selection back to where it started |
| StreamPicker.EnterChoice | src/components/StreamPicker/StreamPicker.tsx:95-103 | Enter chooses exactly when the selection points into the list, reporting the entry's id and "driver" or "global" |
| StreamPicker.EnterAfterArrowsChooses | src/components/StreamPicker/StreamPicker.tsx:89-103 | after any arrow presses from a valid selection, Enter on a non-empty list chooses an entry |
| StreamPicker.LaggedData | src/components/StreamPicker/StreamPicker.tsx:221 | the data is the current state when it is open and the lagged copy otherwise; it is open only if the current or the lagged state is |
| StreamPicker.LaggedIsLastOpen | src/components/StreamPicker/StreamPicker.tsx:211-217 | the lagged copy is the last open state the picker went through |
| StreamPicker.LaggedNeverOpened | src/components/StreamPicker/StreamPicker.tsx:211-217 | if the picker never opened, the lagged copy is the initial state |

## Left out

- Bitmovin players: buffering, decoding and the real `seek` / `timeShift` / `play` / `pause` effects are foreign library behaviour. A player is a snapshot. For the convergence lemmas it reacts by taking the commanded value at once (`ApplyCommand`).
- Timers, DOM and events: `setInterval`, `clearInterval`, `visibilitychange`, the Bitmovin `on`/`off` and the offset emitter are not modelled as scheduling. They are the explicit `SyncEngine` methods `Tick`, `OnVisibilityChange`, `OnMainPlayerEvent`, `OnOffsetChange` and `Teardown`. Interleaving and re-entrancy are not modelled.
- Within one pass, commands do not feed back into the players the pass reads. When window ids are unique, a command to one window cannot change what the pass reads for another, because every window reads only its own player and the main player, and the main player receives no command.
- Times are `real`: the model does not capture floating-point rounding in `Math.abs` and the subtractions.
- SyncLifecycle.SyncEngine.OnMainPlayerEvent: a destroy event that arrives after the cleanup has run is ignored. Its handler stays attached, but the flag it sets can no longer be observed.
- StreamPicker.Includes: `toLocaleLowerCase` is modelled as ASCII lower-casing. Locale rules and non-ASCII case folding are not modelled.
- The grid window type file is not part of this model. A window's role is `Main`, `DriverRole(driverId)`, `DataChannelRole`, `DriverTrackerRole` or `OtherRole`, with the stream type names of `useVideoRaceDetails.utils.ts`.
- `requestStream`'s promise is a request number, and `settled` records each result. A request still pending when a new one opens is dropped without being settled, as in the code. Stale-closure effects of React's `useCallback` dependencies are not modelled.
- React rendering, JSX, the scroll and hotkey effects of the picker, and `resetLaggedState` are not modelled. The reset only copies the current state into the lagged copy. `ClosedListsEverything` covers the list it then shows.
- Network fetching, schema validation and date formatting belong to other files and are not part of this model.

## Findings

| source | as written | input that shows it | evidently intended | confidence | as-written member | corrected member |
|---|---|---|---|---|---|---|
| src/views/Viewer/hooks/useSyncVideos.ts:52 | the live drift is `abs(ts + offset + mainTs)`, but a correction sets `ts` to `-offset + mainTs`; after that correction the measured drift is `abs(2 * mainTs)` | main 2 s behind live (`mainTs = -2`), another window at `ts = -10` with a 3 s user offset: each tick shifts the window to -5 again, because the measured drift stays 4 | drift `abs(ts - (-offset + mainTs))`, which is 0 once the window is aligned | not executed | SyncVideos.LiveSumFormulaReshiftsAlignedWindow | SyncVideos.PassSettles |

The sync context carries a drift rule. `SumAsWritten` is the formula at `useSyncVideos.ts` line 52; `DistanceToTarget` is the corrected distance from the shift a correction sets. `SyncVideos.LiveWindowReshiftedUnlessNearEdge` proves the general form of the finding under `SumAsWritten`. `SyncVideos.PassSettles` proves that a live pass converges under `DistanceToTarget`. `SyncVideos.IntendedAgreesAtLiveEdge` shows that the two rules agree whenever the main player is at the live edge. `SyncEngine` takes the rule as a constructor argument: `SumAsWritten` reproduces the repository, and `DistanceToTarget` gives the corrected hook.
