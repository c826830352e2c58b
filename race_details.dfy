/**
 * Stream classification and the playback-offset table, as computed from the
 * race metadata (src/hooks/useVideoRaceDetails/useVideoRaceDetails.utils.ts).
 */
module RaceDetails {
  import opened Options

  /** The stream types a race can carry (`StreamInfoWithDriver["type"]`). */
  datatype StreamType = Main | DataChannel | DriverTracker | Driver | Other

  /** The string by which the application keys its tables on a stream type. */
  function TypeName(t: StreamType): string
  {
    match t
    case Main => "main"
    case DataChannel => "data-channel"
    case DriverTracker => "driver-tracker"
    case Driver => "driver"
    case Other => "other"
  }

  /** The raw titles that have a display name of their own. */
  const RawTitles: set<string> := {"F1 LIVE", "TRACKER", "DATA", "INTERNATIONAL", "PIT LANE"}

  /** `getStreamPrettyName`: display name of a raw stream title. */
  function PrettyName(name: string): (pretty: string)
    ensures name == "F1 LIVE" ==> pretty == "F1 Live"
    ensures name == "TRACKER" ==> pretty == "Tracker"
    ensures name == "DATA" ==> pretty == "Data"
    ensures name == "INTERNATIONAL" ==> pretty == "International"
    ensures name == "PIT LANE" ==> pretty == "Pit Lane"
    ensures name !in RawTitles ==> pretty == name
  {
    if name == "F1 LIVE" then "F1 Live"
    else if name == "TRACKER" then "Tracker"
    else if name == "DATA" then "Data"
    else if name == "INTERNATIONAL" then "International"
    else if name == "PIT LANE" then "Pit Lane"
    else name
  }

  /** A display name is never itself a raw title, so prettifying twice changes nothing. */
  lemma PrettyNameIdempotent(name: string)
    ensures PrettyName(name) !in RawTitles || PrettyName(name) == name
    ensures PrettyName(PrettyName(name)) == PrettyName(name)
  {
    var p := PrettyName(name);
    if name in RawTitles {
      assert p[1..] != "1 LIVE" && p[1..] != "RACKER" && p[1..] != "ATA"
        && p[1..] != "NTERNATIONAL" && p[1..] != "IT LANE";
      assert p !in RawTitles;
    }
  }

  /** `mapStreamIdentifierToType`: the stream type of a channel identifier in a given season. */
  function StreamTypeOf(identifier: string, season: int): StreamType
  {
    if identifier == "PRES" then Main
    else if identifier == "WIF" && season <= 2021 then Main
    else if identifier == "TRACKER" then DriverTracker
    else if identifier == "DATA" then DataChannel
    else if identifier == "OBC" then Driver
    else Other
  }

  /**
   * The classification rules: "PRES" is the main feed in every season, "WIF" only
   * up to 2021; "TRACKER", "DATA" and "OBC" name the tracker, the data channel and
   * the driver onboards; everything else is "other".
   */
  lemma StreamTypeRules(identifier: string, season: int)
    ensures StreamTypeOf(identifier, season) == Main <==>
      identifier == "PRES" || (identifier == "WIF" && season <= 2021)
    ensures StreamTypeOf(identifier, season) == DriverTracker <==> identifier == "TRACKER"
    ensures StreamTypeOf(identifier, season) == DataChannel <==> identifier == "DATA"
    ensures StreamTypeOf(identifier, season) == Driver <==> identifier == "OBC"
    ensures StreamTypeOf(identifier, season) == Other <==>
      identifier !in {"PRES", "TRACKER", "DATA", "OBC"} && !(identifier == "WIF" && season <= 2021)
  {
  }

  /** The driver details a driver stream carries (the extra fields of `DriverStreamDataDTO`). */
  datatype DriverFields = DriverFields(
    racingNumber: int,
    reportingName: string,
    driverFirstName: string,
    driverLastName: string,
    teamName: string,
    constructorName: string,
    hex: string)

  /** One stream as the metadata service lists it (`StreamDataDTO`). */
  datatype StreamDataDTO = StreamDataDTO(
    identifier: string,
    channelId: int,
    playbackUrl: string,
    title: string,
    driver: DriverFields)

  /** A classified stream (`StreamInfo`). */
  datatype StreamInfo = StreamInfo(
    streamType: StreamType,
    channelId: int,
    playbackUrl: string,
    title: string,
    identifier: string)

  /** A classified driver stream (`DriverStreamInfo`). */
  datatype DriverStreamInfo = DriverStreamInfo(info: StreamInfo, driver: DriverFields)

  /** The buckets `collectStreams` returns. */
  datatype CollectedStreams = CollectedStreams(
    defaultStream: Option<StreamInfo>,
    driverStreams: seq<DriverStreamInfo>,
    otherStreams: seq<StreamInfo>,
    driverTrackerStream: Option<StreamInfo>,
    dataChannelStream: Option<StreamInfo>)

  function TypeOf(s: StreamDataDTO, season: int): StreamType
  {
    StreamTypeOf(s.identifier, season)
  }

  /** `baseStreamInfo` tagged with a type: the title is the pretty one. */
  function BaseInfo(s: StreamDataDTO, t: StreamType): StreamInfo
  {
    StreamInfo(t, s.channelId, s.playbackUrl, PrettyName(s.title), s.identifier)
  }

  /** A driver stream keeps its raw title. */
  function DriverInfo(s: StreamDataDTO): DriverStreamInfo
  {
    DriverStreamInfo(StreamInfo(Driver, s.channelId, s.playbackUrl, s.title, s.identifier), s.driver)
  }

  /** The stream played when the race has no stream list. */
  function FallbackMainStream(raceId: string): StreamInfo
  {
    StreamInfo(Main, 0, "CONTENT/PLAY?contentId=" + raceId, "main", "main")
  }

  /** One iteration of the loop in `collectStreams`. */
  function Bucket(acc: CollectedStreams, s: StreamDataDTO, season: int): CollectedStreams
  {
    match TypeOf(s, season)
    case Main => acc.(defaultStream := Some(BaseInfo(s, Main)))
    case DataChannel => acc.(dataChannelStream := Some(BaseInfo(s, DataChannel)))
    case DriverTracker => acc.(driverTrackerStream := Some(BaseInfo(s, DriverTracker)))
    case Driver => acc.(driverStreams := acc.driverStreams + [DriverInfo(s)])
    case Other => acc.(otherStreams := acc.otherStreams + [BaseInfo(s, Other)])
  }

  /** The buckets after the loop has seen every stream of `streams`, in order. */
  function Collected(streams: seq<StreamDataDTO>, season: int): CollectedStreams
    decreases |streams|
  {
    if streams == [] then CollectedStreams(None, [], [], None, None)
    else Bucket(Collected(streams[..|streams| - 1], season), streams[|streams| - 1], season)
  }

  /** `collectStreams`. */
  method CollectStreams(streams: Option<seq<StreamDataDTO>>, season: int, raceId: string)
    returns (r: CollectedStreams)
    ensures streams.None? ==> r == CollectedStreams(Some(FallbackMainStream(raceId)), [], [], None, None)
    ensures streams.Some? ==> r == Collected(streams.value, season)
  {
    var defaultStream: Option<StreamInfo> := None;
    var driverTrackerStream: Option<StreamInfo> := None;
    var dataChannelStream: Option<StreamInfo> := None;
    var driverStreams: seq<DriverStreamInfo> := [];
    var otherStreams: seq<StreamInfo> := [];

    if streams.None? {
      defaultStream := Some(FallbackMainStream(raceId));
      return CollectedStreams(defaultStream, driverStreams, otherStreams, driverTrackerStream, dataChannelStream);
    }

    var ss := streams.value;
    for i := 0 to |ss|
      invariant CollectedStreams(defaultStream, driverStreams, otherStreams, driverTrackerStream, dataChannelStream)
             == Collected(ss[..i], season)
    {
      var stream := ss[i];
      assert ss[..i + 1][..i] == ss[..i];
      var streamType := StreamTypeOf(stream.identifier, season);
      if streamType == Main {
        defaultStream := Some(BaseInfo(stream, streamType));
        continue;
      }
      if streamType == DataChannel {
        dataChannelStream := Some(BaseInfo(stream, streamType));
        continue;
      }
      if streamType == DriverTracker {
        driverTrackerStream := Some(BaseInfo(stream, streamType));
        continue;
      }
      if streamType == Driver {
        driverStreams := driverStreams + [DriverInfo(stream)];
        continue;
      }
      otherStreams := otherStreams + [BaseInfo(stream, Other)];
    }
    assert ss[..|ss|] == ss;
    r := CollectedStreams(defaultStream, driverStreams, otherStreams, driverTrackerStream, dataChannelStream);
  }

  /** The streams of one type, in input order (an independent filter). */
  function OfType(streams: seq<StreamDataDTO>, season: int, t: StreamType): (f: seq<StreamDataDTO>)
    ensures |f| <= |streams|
  {
    if streams == [] then []
    else if TypeOf(streams[0], season) == t then [streams[0]] + OfType(streams[1..], season, t)
    else OfType(streams[1..], season, t)
  }

  lemma {:induction false} OfTypeAppend(a: seq<StreamDataDTO>, b: seq<StreamDataDTO>, season: int, t: StreamType)
    ensures OfType(a + b, season, t) == OfType(a, season, t) + OfType(b, season, t)
  {
    if a == [] {
      assert a + b == b;
    } else {
      assert (a + b)[1..] == a[1..] + b;
      OfTypeAppend(a[1..], b, season, t);
    }
  }

  /** The single-stream slot `collectStreams` fills for a type, if it has one. */
  function Slot(c: CollectedStreams, t: StreamType): Option<StreamInfo>
  {
    if t == Main then c.defaultStream
    else if t == DataChannel then c.dataChannelStream
    else if t == DriverTracker then c.driverTrackerStream
    else None
  }

  /** How one more stream changes a single-stream slot. */
  lemma SlotStep(streams: seq<StreamDataDTO>, season: int, t: StreamType)
    requires streams != []
    ensures Slot(Collected(streams, season), t)
         == if TypeOf(streams[|streams| - 1], season) == t && (t == Main || t == DataChannel || t == DriverTracker)
            then Some(BaseInfo(streams[|streams| - 1], t))
            else Slot(Collected(streams[..|streams| - 1], season), t)
  {
  }

  /** The record of the last stream of type `t`, if any (an independent scan from the end). */
  function LastOfType(streams: seq<StreamDataDTO>, season: int, t: StreamType): Option<StreamInfo>
    decreases |streams|
  {
    if streams == [] then None
    else if TypeOf(streams[|streams| - 1], season) == t then Some(BaseInfo(streams[|streams| - 1], t))
    else LastOfType(streams[..|streams| - 1], season, t)
  }

  /** Each single-stream slot holds the last stream of its type. */
  lemma {:induction false} SlotIsLastOfType(streams: seq<StreamDataDTO>, season: int, t: StreamType)
    requires t == Main || t == DataChannel || t == DriverTracker
    ensures Slot(Collected(streams, season), t) == LastOfType(streams, season, t)
    decreases |streams|
  {
    if streams != [] {
      SlotIsLastOfType(streams[..|streams| - 1], season, t);
      SlotStep(streams, season, t);
    }
  }

  /** The main, data-channel and driver-tracker slots are empty exactly when no stream has their type. */
  lemma {:induction false} SlotEmptyIffNoneOfType(streams: seq<StreamDataDTO>, season: int, t: StreamType)
    requires t == Main || t == DataChannel || t == DriverTracker
    ensures Slot(Collected(streams, season), t).None? <==>
      forall i :: 0 <= i < |streams| ==> TypeOf(streams[i], season) != t
  {
    SlotIsLastOfType(streams, season, t);
    LastOfTypeNone(streams, season, t);
  }

  lemma {:induction false} LastOfTypeNone(streams: seq<StreamDataDTO>, season: int, t: StreamType)
    ensures LastOfType(streams, season, t).None? <==>
      forall i :: 0 <= i < |streams| ==> TypeOf(streams[i], season) != t
    decreases |streams|
  {
    if streams != [] {
      var n := |streams| - 1;
      var init := streams[..n];
      LastOfTypeNone(init, season, t);
      forall i | 0 <= i < n ensures streams[i] == init[i] {
      }
    }
  }

  /**
   * A filled main, data-channel or driver-tracker slot holds the LAST stream of
   * its type in input order: earlier ones are overwritten.
   */
  lemma SlotHoldsLastOfType(streams: seq<StreamDataDTO>, season: int, t: StreamType)
    requires t == Main || t == DataChannel || t == DriverTracker
    requires Slot(Collected(streams, season), t).Some?
    ensures exists i :: (0 <= i < |streams| && TypeOf(streams[i], season) == t
      && Slot(Collected(streams, season), t).value == BaseInfo(streams[i], t)
      && forall j :: i < j < |streams| ==> TypeOf(streams[j], season) != t)
  {
    SlotIsLastOfType(streams, season, t);
    var i := LastOfTypeAt(streams, season, t);
  }

  /** Where the last stream of type `t` sits, when there is one. */
  lemma {:induction false} LastOfTypeAt(streams: seq<StreamDataDTO>, season: int, t: StreamType) returns (i: nat)
    requires LastOfType(streams, season, t).Some?
    ensures i < |streams| && TypeOf(streams[i], season) == t
    ensures LastOfType(streams, season, t).value == BaseInfo(streams[i], t)
    ensures forall j :: i < j < |streams| ==> TypeOf(streams[j], season) != t
    decreases |streams|
  {
    var n := |streams| - 1;
    if TypeOf(streams[n], season) == t {
      i := n;
    } else {
      var init := streams[..n];
      i := LastOfTypeAt(init, season, t);
      forall j | i < j < |streams| ensures TypeOf(streams[j], season) != t {
        if j < n { assert streams[j] == init[j]; }
      }
    }
  }

  /** The driver-stream record of each stream of `xs`, in order. */
  function DriverInfos(xs: seq<StreamDataDTO>): (r: seq<DriverStreamInfo>)
    ensures |r| == |xs|
    decreases |xs|
  {
    if xs == [] then [] else DriverInfos(xs[..|xs| - 1]) + [DriverInfo(xs[|xs| - 1])]
  }

  /** The "other" record of each stream of `xs`, in order. */
  function OtherInfos(xs: seq<StreamDataDTO>): (r: seq<StreamInfo>)
    ensures |r| == |xs|
    decreases |xs|
  {
    if xs == [] then [] else OtherInfos(xs[..|xs| - 1]) + [BaseInfo(xs[|xs| - 1], Other)]
  }

  lemma {:induction false} DriverInfosAppend(a: seq<StreamDataDTO>, b: seq<StreamDataDTO>)
    ensures DriverInfos(a + b) == DriverInfos(a) + DriverInfos(b)
    decreases |b|
  {
    if b != [] {
      var n := |b| - 1;
      assert (a + b)[..|a + b| - 1] == a + b[..n];
      DriverInfosAppend(a, b[..n]);
    } else {
      assert a + b == a;
    }
  }

  lemma {:induction false} OtherInfosAppend(a: seq<StreamDataDTO>, b: seq<StreamDataDTO>)
    ensures OtherInfos(a + b) == OtherInfos(a) + OtherInfos(b)
    decreases |b|
  {
    if b != [] {
      var n := |b| - 1;
      assert (a + b)[..|a + b| - 1] == a + b[..n];
      OtherInfosAppend(a, b[..n]);
    } else {
      assert a + b == a;
    }
  }

  /** How one more stream changes the two lists. */
  lemma ListsStep(streams: seq<StreamDataDTO>, season: int)
    requires streams != []
    ensures var last := streams[|streams| - 1];
      var before := Collected(streams[..|streams| - 1], season);
      && Collected(streams, season).driverStreams
         == before.driverStreams + (if TypeOf(last, season) == Driver then [DriverInfo(last)] else [])
      && Collected(streams, season).otherStreams
         == before.otherStreams + (if TypeOf(last, season) == Other then [BaseInfo(last, Other)] else [])
  {
  }

  /** The records of a single stream of the wanted type, or none. */
  lemma InfosOfOne(x: StreamDataDTO, season: int)
    ensures DriverInfos(OfType([x], season, Driver)) == if TypeOf(x, season) == Driver then [DriverInfo(x)] else []
    ensures OtherInfos(OfType([x], season, Other)) == if TypeOf(x, season) == Other then [BaseInfo(x, Other)] else []
  {
    assert [x][1..] == [] && [x][..0] == [];
  }

  /** `driverStreams` is exactly the driver-typed streams, in input order, each with its raw title. */
  lemma {:induction false} DriverStreamsAreDriverTyped(streams: seq<StreamDataDTO>, season: int)
    ensures Collected(streams, season).driverStreams == DriverInfos(OfType(streams, season, Driver))
    decreases |streams|
  {
    if streams != [] {
      var n := |streams| - 1;
      var init := streams[..n];
      DriverStreamsAreDriverTyped(init, season);
      ListsStep(streams, season);
      InfosOfOne(streams[n], season);
      assert streams == init + [streams[n]];
      OfTypeAppend(init, [streams[n]], season, Driver);
      DriverInfosAppend(OfType(init, season, Driver), OfType([streams[n]], season, Driver));
    }
  }

  /** `otherStreams` is exactly the "other"-typed streams, in input order, each typed Other with its pretty title. */
  lemma {:induction false} OtherStreamsAreOtherTyped(streams: seq<StreamDataDTO>, season: int)
    ensures Collected(streams, season).otherStreams == OtherInfos(OfType(streams, season, Other))
    decreases |streams|
  {
    if streams != [] {
      var n := |streams| - 1;
      var init := streams[..n];
      OtherStreamsAreOtherTyped(init, season);
      ListsStep(streams, season);
      InfosOfOne(streams[n], season);
      assert streams == init + [streams[n]];
      OfTypeAppend(init, [streams[n]], season, Other);
      OtherInfosAppend(OfType(init, season, Other), OfType([streams[n]], season, Other));
    }
  }

  /** Each stream lands in at most one of the two lists. */
  lemma {:induction false} ListedStreamsBound(streams: seq<StreamDataDTO>, season: int)
    ensures |Collected(streams, season).driverStreams| + |Collected(streams, season).otherStreams| <= |streams|
    decreases |streams|
  {
    if streams != [] {
      ListedStreamsBound(streams[..|streams| - 1], season);
    }
  }

  // ---------------------------------------------------------------------------
  // createF1OffsetsMap

  /** One entry of the offsets service (`F1PlaybackOffsetsApiResponse`). */
  datatype OffsetEntry = OffsetEntry(channelToAdjust: string, channels: seq<string>, delaySeconds: real)

  /** `F1PlaybackOffsetsData`: delay of the stream of the outer type against the stream of the inner type. */
  type OffsetTable = map<StreamType, map<StreamType, real>>

  /** `channels.find(channel => channel !== channelToAdjust)`. */
  function BaseChannel(channels: seq<string>, adjust: string): (r: Option<string>)
    ensures r.None? <==> forall k :: 0 <= k < |channels| ==> channels[k] == adjust
    ensures r.Some? ==> exists k :: (0 <= k < |channels| && channels[k] == r.value && r.value != adjust
      && forall j :: 0 <= j < k ==> channels[j] == adjust)
  {
    if channels == [] then None
    else if channels[0] != adjust then Some(channels[0])
    else
      var r := BaseChannel(channels[1..], adjust);
      assert r.Some? ==> exists k :: (0 <= k < |channels| && channels[k] == r.value && r.value != adjust
        && forall j :: 0 <= j < k ==> channels[j] == adjust) by {
        if r.Some? {
          var k :| 0 <= k < |channels[1..]| && channels[1..][k] == r.value && r.value != adjust
            && forall j :: 0 <= j < k ==> channels[1..][j] == adjust;
          assert channels[k + 1] == r.value;
          assert forall j :: 0 <= j < k + 1 ==> channels[j] == adjust by {
            forall j | 0 <= j < k + 1 ensures channels[j] == adjust {
              if j > 0 { assert channels[j] == channels[1..][j - 1]; }
            }
          }
        }
      }
      r
  }

  /** One iteration of the loop in `createF1OffsetsMap`. */
  function AddOffset(data: OffsetTable, e: OffsetEntry, season: int): OffsetTable
  {
    match BaseChannel(e.channels, e.channelToAdjust)
    case None => data
    case Some(base) =>
      var key := StreamTypeOf(e.channelToAdjust, season);
      var otherValues := if key in data then data[key] else map[];
      data[key := otherValues[StreamTypeOf(base, season) := e.delaySeconds]]
  }

  /** The table after the loop has seen every entry of `entries`, in order. */
  function OffsetsOf(entries: seq<OffsetEntry>, season: int): OffsetTable
    decreases |entries|
  {
    if entries == [] then map[]
    else AddOffset(OffsetsOf(entries[..|entries| - 1], season), entries[|entries| - 1], season)
  }

  /** `createF1OffsetsMap`. */
  method CreateF1OffsetsMap(playbackOffsets: Option<seq<OffsetEntry>>, season: int) returns (data: OffsetTable)
    ensures playbackOffsets.None? ==> data == map[]
    ensures playbackOffsets.Some? ==> data == OffsetsOf(playbackOffsets.value, season)
  {
    data := map[];
    if playbackOffsets.None? {
      return;
    }
    var entries := playbackOffsets.value;
    for i := 0 to |entries|
      invariant data == OffsetsOf(entries[..i], season)
    {
      var offset := entries[i];
      assert entries[..i + 1][..i] == entries[..i];
      var key := StreamTypeOf(offset.channelToAdjust, season);
      var value := offset.delaySeconds;
      var baseChannel := BaseChannel(offset.channels, offset.channelToAdjust);
      if baseChannel.None? {
        continue;
      }
      var baseChannelType := StreamTypeOf(baseChannel.value, season);
      var otherValues := if key in data then data[key] else map[];
      otherValues := otherValues[baseChannelType := value];
      data := data[key := otherValues];
    }
    assert entries[..|entries|] == entries;
  }

  /** Whether an entry is kept and adjusts the pair (`adjusted`, `base`). */
  predicate Writes(e: OffsetEntry, season: int, adjusted: StreamType, base: StreamType)
  {
    var b := BaseChannel(e.channels, e.channelToAdjust);
    b.Some? && StreamTypeOf(e.channelToAdjust, season) == adjusted && StreamTypeOf(b.value, season) == base
  }

  /** Whether an entry is kept and adjusts some pair whose first type is `adjusted`. */
  predicate WritesRow(e: OffsetEntry, season: int, adjusted: StreamType)
  {
    BaseChannel(e.channels, e.channelToAdjust).Some? && StreamTypeOf(e.channelToAdjust, season) == adjusted
  }

  function Lookup(data: OffsetTable, adjusted: StreamType, base: StreamType): Option<real>
  {
    if adjusted in data && base in data[adjusted] then Some(data[adjusted][base]) else None
  }

  lemma LookupAfterAdd(data: OffsetTable, e: OffsetEntry, season: int, adjusted: StreamType, base: StreamType)
    ensures Lookup(AddOffset(data, e, season), adjusted, base)
         == if Writes(e, season, adjusted, base) then Some(e.delaySeconds) else Lookup(data, adjusted, base)
  {
  }

  /** A pair is absent from the table exactly when no kept entry adjusts that pair. */
  lemma {:induction false} OffsetAbsentIffNoWriter(entries: seq<OffsetEntry>, season: int, adjusted: StreamType, base: StreamType)
    ensures Lookup(OffsetsOf(entries, season), adjusted, base).None? <==>
      forall i :: 0 <= i < |entries| ==> !Writes(entries[i], season, adjusted, base)
    decreases |entries|
  {
    if entries != [] {
      var n := |entries| - 1;
      var init := entries[..n];
      OffsetAbsentIffNoWriter(init, season, adjusted, base);
      LookupAfterAdd(OffsetsOf(init, season), entries[n], season, adjusted, base);
      assert forall i :: 0 <= i < n ==> entries[i] == init[i];
    }
  }

  /**
   * A pair present in the table holds the delay of the LAST kept entry for that
   * pair: entries naming no other channel are skipped, other pairs of the same
   * row are preserved, and later entries overwrite earlier ones.
   */
  lemma {:induction false} OffsetIsLastWriter(entries: seq<OffsetEntry>, season: int, adjusted: StreamType, base: StreamType)
    requires Lookup(OffsetsOf(entries, season), adjusted, base).Some?
    ensures exists i :: (0 <= i < |entries| && Writes(entries[i], season, adjusted, base)
      && Lookup(OffsetsOf(entries, season), adjusted, base).value == entries[i].delaySeconds
      && forall j :: i < j < |entries| ==> !Writes(entries[j], season, adjusted, base))
    decreases |entries|
  {
    var n := |entries| - 1;
    var init := entries[..n];
    var after := Lookup(OffsetsOf(entries, season), adjusted, base);
    LookupAfterAdd(OffsetsOf(init, season), entries[n], season, adjusted, base);
    if Writes(entries[n], season, adjusted, base) {
      assert after.value == entries[n].delaySeconds;
    } else {
      OffsetIsLastWriter(init, season, adjusted, base);
      var i :| 0 <= i < |init| && Writes(init[i], season, adjusted, base)
        && after.value == init[i].delaySeconds
        && forall j :: i < j < |init| ==> !Writes(init[j], season, adjusted, base);
      assert forall j :: i < j < |entries| ==> !Writes(entries[j], season, adjusted, base) by {
        forall j | i < j < |entries| ensures !Writes(entries[j], season, adjusted, base) {
          if j < n { assert entries[j] == init[j]; }
        }
      }
      assert entries[i] == init[i];
    }
  }

  /** A row of the table exists exactly when some kept entry adjusts a stream of that type. */
  lemma {:induction false} OffsetRowExists(entries: seq<OffsetEntry>, season: int, adjusted: StreamType)
    ensures adjusted in OffsetsOf(entries, season) <==>
      exists i :: 0 <= i < |entries| && WritesRow(entries[i], season, adjusted)
    decreases |entries|
  {
    if entries != [] {
      var n := |entries| - 1;
      var init := entries[..n];
      OffsetRowExists(init, season, adjusted);
      assert forall i :: 0 <= i < n ==> entries[i] == init[i];
      if adjusted in OffsetsOf(init, season) {
        var i :| 0 <= i < |init| && WritesRow(init[i], season, adjusted);
        assert entries[i] == init[i];
      }
    }
  }
}
