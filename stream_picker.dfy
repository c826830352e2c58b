/**
 * The stream picker list (`StreamPicker`): the entries offered (the available
 * global feeds, then the drivers), the filter by picker type, hidden ids and a
 * case-insensitive search text, the wrap-around keyboard selection and the
 * "lagged behind" state that keeps the last open configuration while the sheet
 * closes.
 */
module StreamPicker {
  import opened Options
  import opened RaceDetails
  import opened StreamPickerState

  /** A driver the picker can offer (the fields the list reads). */
  datatype DriverData = DriverData(id: string, firstName: string, lastName: string)

  /** `StreamPickerEntry`: a global feed keyed by its stream type, or a driver keyed by its id. */
  datatype StreamPickerEntry =
    | GlobalEntry(id: string, streamInfo: StreamInfo)
    | DriverEntry(id: string, driver: DriverData)

  /** The `type` the entry reports when chosen. */
  function EntryType(e: StreamPickerEntry): ChosenValueType
  {
    if e.DriverEntry? then DriverValue else GlobalValue
  }

  // ---------------------------------------------------------------------------
  // Case-insensitive substring search

  /** Lower case, for the ASCII letters only. */
  function Lower(c: char): char
  {
    if 'A' <= c <= 'Z' then (c as int + 32) as char else c
  }

  function LowerStr(s: string): (r: string)
    ensures |r| == |s|
  {
    seq(|s|, i requires 0 <= i < |s| => Lower(s[i]))
  }

  lemma LowerStrIdempotent(s: string)
    ensures LowerStr(LowerStr(s)) == LowerStr(s)
  {
  }

  predicate StartsWith(s: string, prefix: string)
  {
    |prefix| <= |s| && s[..|prefix|] == prefix
  }

  /** `String.prototype.includes`: `needle` occurs in `hay`. */
  predicate Contains(hay: string, needle: string)
    decreases |hay|
  {
    StartsWith(hay, needle) || (hay != [] && Contains(hay[1..], needle))
  }

  /** `needle` occurs in `hay` at position `i`. */
  predicate OccursAt(hay: string, needle: string, i: int)
  {
    0 <= i <= |hay| - |needle| && hay[i..i + |needle|] == needle
  }

  /** `Contains` holds exactly when `needle` occurs at some position of `hay`. */
  lemma {:induction false} ContainsIffOccurs(hay: string, needle: string)
    ensures Contains(hay, needle) <==> exists i :: OccursAt(hay, needle, i)
    decreases |hay|
  {
    if StartsWith(hay, needle) {
      assert OccursAt(hay, needle, 0);
    }
    if hay != [] {
      ContainsIffOccurs(hay[1..], needle);
      if Contains(hay[1..], needle) {
        var i :| OccursAt(hay[1..], needle, i);
        assert hay[1..][i..i + |needle|] == hay[i + 1..i + 1 + |needle|];
        assert OccursAt(hay, needle, i + 1);
      }
      if exists i :: OccursAt(hay, needle, i) {
        var i :| OccursAt(hay, needle, i);
        if i > 0 {
          assert hay[1..][i - 1..i - 1 + |needle|] == hay[i..i + |needle|];
          assert OccursAt(hay[1..], needle, i - 1);
        }
      }
    } else if exists i :: OccursAt(hay, needle, i) {
      var i :| OccursAt(hay, needle, i);
      assert i == 0;
    }
  }

  /** `includes(a, b)`: `b` occurs in `a`, both lower-cased. */
  predicate Includes(a: string, b: string)
  {
    Contains(LowerStr(a), LowerStr(b))
  }

  /** The search ignores case on either side, and the empty text occurs everywhere. */
  lemma IncludesIgnoresCase(a: string, b: string)
    ensures Includes(LowerStr(a), b) == Includes(a, b)
    ensures Includes(a, LowerStr(b)) == Includes(a, b)
    ensures Includes(a, "")
  {
    LowerStrIdempotent(a);
    LowerStrIdempotent(b);
    assert LowerStr("") == "";
    assert StartsWith(LowerStr(a), "");
  }

  // ---------------------------------------------------------------------------
  // Entries

  /** The non-null global feeds in order, each keyed by its stream type. */
  function GlobalEntries(feeds: seq<Option<StreamInfo>>): (r: seq<StreamPickerEntry>)
    ensures |r| <= |feeds|
    decreases |feeds|
  {
    if feeds == [] then []
    else
      var init := GlobalEntries(feeds[..|feeds| - 1]);
      match feeds[|feeds| - 1]
      case None => init
      case Some(si) => init + [GlobalEntry(TypeName(si.streamType), si)]
  }

  /** The drivers in order. */
  function DriverEntries(drivers: seq<DriverData>): (r: seq<StreamPickerEntry>)
    ensures |r| == |drivers|
    decreases |drivers|
  {
    if drivers == [] then []
    else
      var d := drivers[|drivers| - 1];
      DriverEntries(drivers[..|drivers| - 1]) + [DriverEntry(d.id, d)]
  }

  /** `allEntries`: global entries first, then driver entries. */
  function AllEntries(feeds: seq<Option<StreamInfo>>, drivers: seq<DriverData>): seq<StreamPickerEntry>
  {
    GlobalEntries(feeds) + DriverEntries(drivers)
  }

  /** A missing feed adds no entry; a present one adds one entry keyed by its type name. */
  lemma GlobalEntriesSingle(feed: Option<StreamInfo>)
    ensures feed.None? ==> GlobalEntries([feed]) == []
    ensures feed.Some? ==> GlobalEntries([feed]) == [GlobalEntry(TypeName(feed.value.streamType), feed.value)]
  {
    assert [feed][..0] == [];
  }

  /** The global entries of two runs of feeds are those of the first run, then those of the second: order is kept. */
  lemma {:induction false} GlobalEntriesAppend(a: seq<Option<StreamInfo>>, b: seq<Option<StreamInfo>>)
    ensures GlobalEntries(a + b) == GlobalEntries(a) + GlobalEntries(b)
    decreases |b|
  {
    if b == [] {
      assert a + b == a;
    } else {
      var n := |b| - 1;
      assert (a + b)[..|a + b| - 1] == a + b[..n];
      assert (a + b)[|a + b| - 1] == b[n];
      GlobalEntriesAppend(a, b[..n]);
    }
  }

  /** The global entries are exactly the present feeds, each keyed by its type name. */
  lemma {:induction false} GlobalEntriesMembers(feeds: seq<Option<StreamInfo>>, e: StreamPickerEntry)
    ensures e in GlobalEntries(feeds) <==>
      exists i :: 0 <= i < |feeds| && feeds[i].Some? && e == GlobalEntry(TypeName(feeds[i].value.streamType), feeds[i].value)
    decreases |feeds|
  {
    if feeds != [] {
      var n := |feeds| - 1;
      var init := feeds[..n];
      GlobalEntriesMembers(init, e);
      if e in GlobalEntries(init) {
        var i :| 0 <= i < |init| && init[i].Some? && e == GlobalEntry(TypeName(init[i].value.streamType), init[i].value);
        assert feeds[i] == init[i];
      }
      if exists i :: 0 <= i < |feeds| && feeds[i].Some? && e == GlobalEntry(TypeName(feeds[i].value.streamType), feeds[i].value) {
        var i :| 0 <= i < |feeds| && feeds[i].Some? && e == GlobalEntry(TypeName(feeds[i].value.streamType), feeds[i].value);
        if i < n {
          assert feeds[i] == init[i];
        }
      }
    }
  }

  /** The `i`-th driver entry is the `i`-th driver, keyed by its id. */
  lemma {:induction false} DriverEntriesAt(drivers: seq<DriverData>, i: nat)
    requires i < |drivers|
    ensures DriverEntries(drivers)[i] == DriverEntry(drivers[i].id, drivers[i])
    decreases |drivers|
  {
    var n := |drivers| - 1;
    if i < n {
      DriverEntriesAt(drivers[..n], i);
    }
  }

  /** The entries list: every global entry precedes every driver entry, and the drivers follow in order. */
  lemma AllEntriesLayout(feeds: seq<Option<StreamInfo>>, drivers: seq<DriverData>, i: nat)
    requires i < |AllEntries(feeds, drivers)|
    ensures i < |GlobalEntries(feeds)| ==> AllEntries(feeds, drivers)[i].GlobalEntry?
    ensures i >= |GlobalEntries(feeds)| ==>
      AllEntries(feeds, drivers)[i] == DriverEntry(drivers[i - |GlobalEntries(feeds)|].id, drivers[i - |GlobalEntries(feeds)|])
  {
    var g := GlobalEntries(feeds);
    if i < |g| {
      GlobalEntriesMembers(feeds, g[i]);
    } else {
      DriverEntriesAt(drivers, i - |g|);
    }
  }

  // ---------------------------------------------------------------------------
  // Filtering

  /** The hidden ids in effect: those of the lagged state when open, none when closed. */
  function EffectiveHidden(lagged: PickerState): seq<string>
  {
    if lagged.Open? then lagged.hiddenEntries else []
  }

  /** The picker type in effect: that of the lagged state when open, "all" when closed. */
  function EffectivePickerType(lagged: PickerState): PickerType
  {
    if lagged.Open? then lagged.pickerType else AllStreams
  }

  /** What the search text is matched against: `"lastName firstName"` for a driver, the title for a feed. */
  function SearchKey(e: StreamPickerEntry): string
  {
    match e
    case DriverEntry(_, d) => d.lastName + " " + d.firstName
    case GlobalEntry(_, si) => si.title
  }

  /** The filter callback of `streamPickerEntries`. */
  predicate Keeps(e: StreamPickerEntry, pickerType: PickerType, hidden: seq<string>, searchText: string)
  {
    if pickerType == DriversOnly && !e.DriverEntry? then false
    else if e.id in hidden then false
    else if searchText == "" then true
    else Includes(SearchKey(e), searchText)
  }

  /** `allEntries.filter(...)`. */
  function FilterEntries(entries: seq<StreamPickerEntry>, pickerType: PickerType, hidden: seq<string>, searchText: string): (r: seq<StreamPickerEntry>)
    ensures |r| <= |entries|
    decreases |entries|
  {
    if entries == [] then []
    else
      var init := FilterEntries(entries[..|entries| - 1], pickerType, hidden, searchText);
      var e := entries[|entries| - 1];
      if Keeps(e, pickerType, hidden, searchText) then init + [e] else init
  }

  /** `xs` is `ys` with some elements left out, order kept. */
  predicate IsSubsequence(xs: seq<StreamPickerEntry>, ys: seq<StreamPickerEntry>)
    decreases |ys|
  {
    if xs == [] then true
    else if ys == [] then false
    else if xs[|xs| - 1] == ys[|ys| - 1] then IsSubsequence(xs[..|xs| - 1], ys[..|ys| - 1])
    else IsSubsequence(xs, ys[..|ys| - 1])
  }

  lemma {:induction false} FilterMembers(entries: seq<StreamPickerEntry>, pickerType: PickerType, hidden: seq<string>, searchText: string, e: StreamPickerEntry)
    ensures e in FilterEntries(entries, pickerType, hidden, searchText) <==> e in entries && Keeps(e, pickerType, hidden, searchText)
    decreases |entries|
  {
    if entries != [] {
      var n := |entries| - 1;
      FilterMembers(entries[..n], pickerType, hidden, searchText, e);
      assert entries == entries[..n] + [entries[n]];
    }
  }

  lemma {:induction false} FilterIsSubsequence(entries: seq<StreamPickerEntry>, pickerType: PickerType, hidden: seq<string>, searchText: string)
    ensures IsSubsequence(FilterEntries(entries, pickerType, hidden, searchText), entries)
    decreases |entries|
  {
    if entries != [] {
      var n := |entries| - 1;
      var init := FilterEntries(entries[..n], pickerType, hidden, searchText);
      FilterIsSubsequence(entries[..n], pickerType, hidden, searchText);
      if Keeps(entries[n], pickerType, hidden, searchText) {
        assert (init + [entries[n]])[..|init|] == init;
      } else if init != [] {
        SubsequenceOfPrefix(init, entries[..n], entries[n]);
      }
    }
  }

  /** Appending to the longer list keeps a subsequence one. */
  lemma {:induction false} SubsequenceOfPrefix(xs: seq<StreamPickerEntry>, ys: seq<StreamPickerEntry>, y: StreamPickerEntry)
    requires IsSubsequence(xs, ys)
    ensures IsSubsequence(xs, ys + [y])
    decreases |ys|, 1
  {
    if xs != [] {
      var zs := ys + [y];
      assert zs[..|zs| - 1] == ys;
      if xs[|xs| - 1] == y {
        SubsequencePrefix(xs, ys);
      }
    }
  }

  /** Dropping the last element of a subsequence keeps it a subsequence. */
  lemma {:induction false} SubsequencePrefix(xs: seq<StreamPickerEntry>, ys: seq<StreamPickerEntry>)
    requires xs != [] && IsSubsequence(xs, ys)
    ensures IsSubsequence(xs[..|xs| - 1], ys)
    decreases |ys|, 0
  {
    var init := xs[..|xs| - 1];
    if init != [] {
      var m := |ys| - 1;
      assert ys[..m] + [ys[m]] == ys;
      if xs[|xs| - 1] != ys[m] {
        SubsequencePrefix(xs, ys[..m]);
      }
      SubsequenceOfPrefix(init, ys[..m], ys[m]);
    }
  }

  /** When every entry passes, the filter keeps the list as it is. */
  lemma {:induction false} FilterKeepsAll(entries: seq<StreamPickerEntry>, pickerType: PickerType, hidden: seq<string>, searchText: string)
    requires forall k :: 0 <= k < |entries| ==> Keeps(entries[k], pickerType, hidden, searchText)
    ensures FilterEntries(entries, pickerType, hidden, searchText) == entries
    decreases |entries|
  {
    if entries != [] {
      var n := |entries| - 1;
      var init := entries[..n];
      forall k | 0 <= k < |init| ensures Keeps(init[k], pickerType, hidden, searchText) {
        assert init[k] == entries[k];
      }
      FilterKeepsAll(init, pickerType, hidden, searchText);
      assert Keeps(entries[n], pickerType, hidden, searchText);
      assert init + [entries[n]] == entries;
    }
  }

  /** `streamPickerEntries`: the entries filtered with the lagged state's settings and the search text. */
  function StreamPickerEntries(feeds: seq<Option<StreamInfo>>, drivers: seq<DriverData>, lagged: PickerState, searchText: string): seq<StreamPickerEntry>
  {
    FilterEntries(AllEntries(feeds, drivers), EffectivePickerType(lagged), EffectiveHidden(lagged), searchText)
  }

  /**
   * An entry is listed exactly when it is one of the entries, is a driver when the
   * open picker asks for drivers, is not hidden by the open picker, and, unless
   * the search text is empty, contains the text ignoring case.
   */
  lemma ListedEntries(feeds: seq<Option<StreamInfo>>, drivers: seq<DriverData>, lagged: PickerState, searchText: string, e: StreamPickerEntry)
    ensures e in StreamPickerEntries(feeds, drivers, lagged, searchText) <==>
      && e in AllEntries(feeds, drivers)
      && (lagged.Open? && lagged.pickerType == DriversOnly ==> e.DriverEntry?)
      && (lagged.Open? ==> e.id !in lagged.hiddenEntries)
      && (searchText != "" ==> Includes(SearchKey(e), searchText))
  {
    FilterMembers(AllEntries(feeds, drivers), EffectivePickerType(lagged), EffectiveHidden(lagged), searchText, e);
  }

  /** The listed entries keep the order of the full list. */
  lemma ListedInOrder(feeds: seq<Option<StreamInfo>>, drivers: seq<DriverData>, lagged: PickerState, searchText: string)
    ensures IsSubsequence(StreamPickerEntries(feeds, drivers, lagged, searchText), AllEntries(feeds, drivers))
  {
    FilterIsSubsequence(AllEntries(feeds, drivers), EffectivePickerType(lagged), EffectiveHidden(lagged), searchText);
  }

  /** With a closed lagged state and no search text, every entry is listed, in order. */
  lemma ClosedListsEverything(feeds: seq<Option<StreamInfo>>, drivers: seq<DriverData>)
    ensures StreamPickerEntries(feeds, drivers, Closed, "") == AllEntries(feeds, drivers)
  {
    FilterKeepsAll(AllEntries(feeds, drivers), AllStreams, [], "");
  }

  // ---------------------------------------------------------------------------
  // Keyboard selection

  /** `loopSelection(n, max)`: below zero wraps to `max`, above `max` wraps to zero. */
  function LoopSelection(n: int, max: int): (r: int)
    ensures max >= 0 ==> 0 <= r <= max
    ensures 0 <= n <= max ==> r == n
    ensures n < 0 ==> r == max
    ensures 0 <= n && max < n ==> r == 0
  {
    if n < 0 then max
    else if n > max then 0
    else n
  }

  /** `ArrowDown` on a list of `count` entries. */
  function ArrowDown(selection: int, count: nat): int
  {
    LoopSelection(selection + 1, count - 1)
  }

  /** `ArrowUp` on a list of `count` entries. */
  function ArrowUp(selection: int, count: nat): int
  {
    LoopSelection(selection - 1, count - 1)
  }

  /** The selection after `presses` arrow presses in one direction. */
  function Pressed(selection: int, presses: nat, count: nat, down: bool): int
  {
    if presses == 0 then selection
    else
      var before := Pressed(selection, presses - 1, count, down);
      if down then ArrowDown(before, count) else ArrowUp(before, count)
  }

  /** Presses split at any point: `a + b` presses are `a` presses, then `b` more. */
  lemma {:induction false} PressesCompose(selection: int, a: nat, b: nat, count: nat, down: bool)
    ensures Pressed(selection, a + b, count, down) == Pressed(Pressed(selection, a, count, down), b, count, down)
    decreases b
  {
    if b > 0 {
      PressesCompose(selection, a, b - 1, count, down);
    }
  }

  /** From a valid selection, the selection stays valid however many arrows are pressed. */
  lemma {:induction false} PressesStayInRange(selection: int, presses: nat, count: nat, down: bool)
    requires 0 <= selection < count
    ensures 0 <= Pressed(selection, presses, count, down) < count
    decreases presses
  {
    if presses > 0 {
      PressesStayInRange(selection, presses - 1, count, down);
    }
  }

  /** Away from the ends, each press moves the selection by one. */
  lemma {:induction false} PressesMove(selection: int, presses: nat, count: nat, down: bool)
    requires 0 <= selection < count
    requires down ==> selection + presses < count
    requires !down ==> presses <= selection
    ensures Pressed(selection, presses, count, down) == if down then selection + presses else selection - presses
    decreases presses
  {
    if presses > 0 {
      PressesMove(selection, presses - 1, count, down);
    }
  }

  /** `count` presses in one direction go once round the list and back to the start. */
  lemma FullCycle(selection: int, count: nat, down: bool)
    requires 0 <= selection < count
    ensures Pressed(selection, count, count, down) == selection
  {
    if down {
      var toEnd := count - 1 - selection;
      PressesMove(selection, toEnd, count, true);
      PressesCompose(selection, toEnd, 1, count, true);
      assert Pressed(selection, toEnd + 1, count, true) == 0;
      PressesCompose(selection, toEnd + 1, selection, count, true);
      PressesMove(0, selection, count, true);
    } else {
      PressesMove(selection, selection, count, false);
      PressesCompose(selection, selection, 1, count, false);
      assert Pressed(selection, selection + 1, count, false) == count - 1;
      PressesCompose(selection, selection + 1, count - 1 - selection, count, false);
      PressesMove(count - 1, count - 1 - selection, count, false);
    }
  }

  /** `onEnter`: the chosen entry's id and type, when the selection points into the list. */
  function EnterChoice(entries: seq<StreamPickerEntry>, selection: int): (r: Option<Choice>)
    ensures r.Some? <==> 0 <= selection < |entries|
    ensures r.Some? ==> r.value.value == entries[selection].id
    ensures r.Some? ==> (r.value.elementType == DriverValue <==> entries[selection].DriverEntry?)
  {
    if 0 <= selection < |entries| then Some(Choice(entries[selection].id, EntryType(entries[selection])))
    else None
  }

  /** Any number of arrow presses from a valid selection keeps Enter choosing an entry of a non-empty list. */
  lemma EnterAfterArrowsChooses(entries: seq<StreamPickerEntry>, selection: int, presses: nat, down: bool)
    requires 0 <= selection < |entries|
    ensures EnterChoice(entries, Pressed(selection, presses, |entries|, down)).Some?
  {
    PressesStayInRange(selection, presses, |entries|, down);
  }

  // ---------------------------------------------------------------------------
  // Lagged state

  /** The effect: the lagged copy follows the picker state while it is open. */
  function StoreLagged(lagged: PickerState, current: PickerState): PickerState
  {
    if current.Open? then current else lagged
  }

  /** The lagged copy after the picker went through `states`, starting from `initial`. */
  function LaggedAfter(initial: PickerState, states: seq<PickerState>): PickerState
    decreases |states|
  {
    if states == [] then initial
    else StoreLagged(LaggedAfter(initial, states[..|states| - 1]), states[|states| - 1])
  }

  /** `data`: the current state when open, otherwise the lagged copy. */
  function LaggedData(current: PickerState, lagged: PickerState): (r: PickerState)
    ensures current.Open? ==> r == current
    ensures !current.Open? ==> r == lagged
    ensures r.Open? ==> current.Open? || lagged.Open?
  {
    if current.Open? then current else lagged
  }

  /** The lagged copy is the last open state the picker went through. */
  lemma {:induction false} LaggedIsLastOpen(initial: PickerState, states: seq<PickerState>, i: nat)
    requires i < |states| && states[i].Open?
    requires forall j :: i < j < |states| ==> !states[j].Open?
    ensures LaggedAfter(initial, states) == states[i]
    decreases |states|
  {
    var n := |states| - 1;
    if i < n {
      assert forall j :: i < j < n ==> states[..n][j] == states[j];
      LaggedIsLastOpen(initial, states[..n], i);
    }
  }

  /** A picker that was never open leaves the lagged copy as it started. */
  lemma {:induction false} LaggedNeverOpened(initial: PickerState, states: seq<PickerState>)
    requires forall j :: 0 <= j < |states| ==> !states[j].Open?
    ensures LaggedAfter(initial, states) == initial
    decreases |states|
  {
    if states != [] {
      var n := |states| - 1;
      assert forall j :: 0 <= j < n ==> states[..n][j] == states[j];
      LaggedNeverOpened(initial, states[..n]);
    }
  }
}
