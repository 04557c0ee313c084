/** The pure part of the vision screen: what arrives on the streaming socket,
    how one decoded message changes what the screen shows, the commands the
    client sends, and when the three control buttons are enabled. */
module VisionProtocol {
  import opened Js

  /** The six detection counters shown on the vision screen. */
  datatype Stats = Stats(zonesTotal: int, zonesOccupied: int, vehiclesInZone: int,
                         parked: int, frontal: int, reversa: int)

  /** The counters before any stats message arrived. */
  const ZeroStats := Stats(0, 0, 0, 0, 0, 0)

  /** The fields of a decoded JSON message that the handler reads; a field
      that is missing (or is not of the expected JSON type) is `None`. */
  datatype Payload = Payload(
    msgType: Option<string>, status: Option<string>,
    source: Option<string>, message: Option<string>,
    zonesTotal: Option<int>, zonesOccupied: Option<int>, vehiclesInZone: Option<int>,
    parked: Option<int>, frontal: Option<int>, reversa: Option<int>)

  /** One unit delivered by the socket's message event, already classified:
      a binary video frame, a text unit that parsed to a JSON object, or a
      text unit whose parse (or field access) throws. */
  datatype Inbound = Binary | Parsed(payload: Payload) | Unparseable

  /** The part of the screen state the message handler writes. */
  datatype Display = Display(stats: Stats, processing: bool, status: string)

  /** The commands the client writes to the socket:
      `{action:'start', source_type:'webcam'}`,
      `{action:'start', source_type:'video', video_path}` (`None` covers
      both a reply without filename, whose key `JSON.stringify` drops, and
      a `null` filename, sent as `null`),
      `{action:'stop'}` and `{action:'stats'}`. */
  datatype Command = StartWebcam | StartVideo(videoPath: Option<string>) | Stop | RequestStats

  /** The radio group's two sources; the webcam is a disabled choice. */
  datatype SourceKind = Webcam | Video

  /** A file picked in the file input. */
  datatype VideoFile = VideoFile(name: string)

  /** `WebSocket.readyState` of the socket held in the component's ref. */
  datatype ReadyState = Connecting | Open | Closing | Closed

  /** What `WebSocket.send` does in each ready state. */
  datatype SendOutcome = Transmitted | Discarded | Throws

  /** The reply of the upload request: a JSON object with the fields read,
      or a failure of `fetch` or of decoding the body as a JSON object. */
  datatype UploadOutcome =
    | Replied(status: Option<string>, filename: Option<string>, message: Option<string>)
    | TransportError

  // ---------------------------------------------------------------------
  // Stats and status messages

  /** The counters a stats message carries, each defaulting to 0. */
  function StatsFrom(p: Payload): (s: Stats)
    ensures p.zonesTotal.Some? ==> s.zonesTotal == p.zonesTotal.value
    ensures p.zonesTotal.None? ==> s.zonesTotal == 0
    ensures p.zonesOccupied.Some? ==> s.zonesOccupied == p.zonesOccupied.value
    ensures p.zonesOccupied.None? ==> s.zonesOccupied == 0
    ensures p.vehiclesInZone.Some? ==> s.vehiclesInZone == p.vehiclesInZone.value
    ensures p.vehiclesInZone.None? ==> s.vehiclesInZone == 0
    ensures p.parked.Some? ==> s.parked == p.parked.value
    ensures p.parked.None? ==> s.parked == 0
    ensures p.frontal.Some? ==> s.frontal == p.frontal.value
    ensures p.frontal.None? ==> s.frontal == 0
    ensures p.reversa.Some? ==> s.reversa == p.reversa.value
    ensures p.reversa.None? ==> s.reversa == 0
  {
    Stats(OrZero(p.zonesTotal), OrZero(p.zonesOccupied), OrZero(p.vehiclesInZone),
          OrZero(p.parked), OrZero(p.frontal), OrZero(p.reversa))
  }

  /** The stats message a server sends for a full snapshot. */
  function StatsMessage(s: Stats): Payload
  {
    Payload(Some("stats"), None, None, None,
            Some(s.zonesTotal), Some(s.zonesOccupied), Some(s.vehiclesInZone),
            Some(s.parked), Some(s.frontal), Some(s.reversa))
  }

  /** Status text of a `started` message: `LIVE - ` and the source label,
      or the generic camera label when the source is missing or empty. */
  function LiveStatus(source: Option<string>): (r: string)
    ensures |r| > 7 && r[..7] == "LIVE - "
    ensures Truthy(source) ==> r[7..] == source.value
    ensures !Truthy(source) ==> r[7..] == "Cámara"
  {
    "LIVE - " + OrDefault(source, "Cámara")
  }

  predicate IsStatsPayload(p: Payload)
  {
    p.msgType == Some("stats")
  }

  /** A status message with one of the three sub-kinds the handler reacts to. */
  predicate IsStatusUpdate(p: Payload)
  {
    p.msgType == Some("status") &&
    (p.status == Some("started") || p.status == Some("stopped") || p.status == Some("error"))
  }

  /** The status text a recognised status message sets. */
  function StatusText(p: Payload): (r: string)
    requires IsStatusUpdate(p)
    ensures p.status == Some("started") ==> r == LiveStatus(p.source)
    ensures p.status == Some("stopped") ==> r == "Detenido"
    ensures p.status == Some("error") ==> r == OrDefault(p.message, "Error")
  {
    if p.status == Some("started") then LiveStatus(p.source)
    else if p.status == Some("stopped") then "Detenido"
    else OrDefault(p.message, "Error")
  }

  /** The branch of the message handler that runs on a parsed message. */
  function ApplyPayload(d: Display, p: Payload): (r: Display)
    ensures IsStatsPayload(p) ==> r == d.(stats := StatsFrom(p))
    ensures IsStatusUpdate(p) ==>
              r == d.(processing := p.status == Some("started"), status := StatusText(p))
    ensures !IsStatsPayload(p) && !IsStatusUpdate(p) ==> r == d
  {
    if p.msgType == Some("stats") then
      d.(stats := StatsFrom(p))
    else if p.msgType == Some("status") then
      if p.status == Some("started") then
        d.(processing := true, status := LiveStatus(p.source))
      else if p.status == Some("stopped") then
        d.(processing := false, status := "Detenido")
      else if p.status == Some("error") then
        d.(status := OrDefault(p.message, "Error"), processing := false)
      else
        d
    else
      d
  }

  /** The whole message handler: frames and unparseable text leave the
      display as it is (frame drawing touches only the canvas). */
  function Dispatch(d: Display, u: Inbound): Display
  {
    match u
    case Parsed(p) => ApplyPayload(d, p)
    case Binary => d
    case Unparseable => d
  }

  /** A stream of units handled one after the other, in arrival order. */
  function DispatchAll(d: Display, us: seq<Inbound>): Display
    decreases |us|
  {
    if us == [] then d else DispatchAll(Dispatch(d, us[0]), us[1..])
  }

  /** The last stats message in a stream, if any: no stats message comes
      after the unit it is taken from. */
  function LastStats(us: seq<Inbound>): (r: Option<Payload>)
    ensures r.Some? ==> IsStatsPayload(r.value) && Parsed(r.value) in us
    ensures r.Some? ==> exists i :: 0 <= i < |us| && us[i] == Parsed(r.value) &&
                                   forall j :: i < j < |us| ==> !(us[j].Parsed? && IsStatsPayload(us[j].payload))
    ensures r.None? ==> forall i :: 0 <= i < |us| ==> !(us[i].Parsed? && IsStatsPayload(us[i].payload))
    decreases |us|
  {
    if us == [] then None
    else if us[|us| - 1].Parsed? && IsStatsPayload(us[|us| - 1].payload) then Some(us[|us| - 1].payload)
    else LastStats(us[..|us| - 1])
  }

  /** The last recognised status message in a stream, if any: no
      recognised status message comes after the unit it is taken from. */
  function LastStatusUpdate(us: seq<Inbound>): (r: Option<Payload>)
    ensures r.Some? ==> IsStatusUpdate(r.value) && Parsed(r.value) in us
    ensures r.Some? ==> exists i :: 0 <= i < |us| && us[i] == Parsed(r.value) &&
                                   forall j :: i < j < |us| ==> !(us[j].Parsed? && IsStatusUpdate(us[j].payload))
    ensures r.None? ==> forall i :: 0 <= i < |us| ==> !(us[i].Parsed? && IsStatusUpdate(us[i].payload))
    decreases |us|
  {
    if us == [] then None
    else if us[|us| - 1].Parsed? && IsStatusUpdate(us[|us| - 1].payload) then Some(us[|us| - 1].payload)
    else LastStatusUpdate(us[..|us| - 1])
  }

  /** The units of a stream that parsed to a JSON object, in order. */
  function ParsedOnly(us: seq<Inbound>): (r: seq<Inbound>)
    ensures |r| <= |us|
    ensures forall i :: 0 <= i < |r| ==> r[i].Parsed?
    decreases |us|
  {
    if us == [] then []
    else if us[0].Parsed? then [us[0]] + ParsedOnly(us[1..])
    else ParsedOnly(us[1..])
  }

  // ---------------------------------------------------------------------
  // Properties of the message handler

  /** A full snapshot survives the trip through a stats message unchanged. */
  lemma StatsRoundTrip(s: Stats)
    ensures StatsFrom(StatsMessage(s)) == s
    ensures ApplyPayload(Display(ZeroStats, false, ""), StatsMessage(s)).stats == s
  {
  }

  /** A stats message replaces all six counters: the counters before it
      have no influence on the counters after it, and nothing else moves. */
  lemma StatsReplaceWholesale(d1: Display, d2: Display, p: Payload)
    requires IsStatsPayload(p)
    ensures ApplyPayload(d1, p).stats == ApplyPayload(d2, p).stats == StatsFrom(p)
    ensures ApplyPayload(d1, p).processing == d1.processing
    ensures ApplyPayload(d1, p).status == d1.status
  {
  }

  /** Only a stats message changes the counters, and only a recognised
      status message changes the processing flag or the status text. */
  lemma WhatChangesWhat(d: Display, p: Payload)
    ensures ApplyPayload(d, p).stats != d.stats ==> IsStatsPayload(p)
    ensures ApplyPayload(d, p).processing != d.processing ==> IsStatusUpdate(p)
    ensures ApplyPayload(d, p).status != d.status ==> IsStatusUpdate(p)
  {
  }

  /** Message kinds the handler does not know, and the sub-kinds of a status
      message it does not know, leave the display untouched. */
  lemma UnknownMessagesIgnored(d: Display, p: Payload)
    requires p.msgType != Some("stats")
    requires p.msgType != Some("status") ||
             (p.status != Some("started") && p.status != Some("stopped") && p.status != Some("error"))
    ensures Dispatch(d, Parsed(p)) == d
  {
  }

  /** Handling a stream extended by one unit is handling the stream, then the unit. */
  lemma {:induction false} DispatchAllSnoc(d: Display, us: seq<Inbound>, u: Inbound)
    ensures DispatchAll(d, us + [u]) == Dispatch(DispatchAll(d, us), u)
    decreases |us|
  {
    if us == [] {
      assert [] + [u] == [u];
    } else {
      assert (us + [u])[0] == us[0];
      assert (us + [u])[1..] == us[1..] + [u];
      DispatchAllSnoc(Dispatch(d, us[0]), us[1..], u);
    }
  }

  /** After a stream, the counters are those of its last stats message (with
      missing fields 0), or the earlier counters when it carried none. */
  lemma {:induction false} LatestStatsWin(d: Display, us: seq<Inbound>)
    ensures DispatchAll(d, us).stats ==
              (if LastStats(us).Some? then StatsFrom(LastStats(us).value) else d.stats)
    decreases |us|
  {
    if us != [] {
      var init, u := us[..|us| - 1], us[|us| - 1];
      assert us == init + [u];
      DispatchAllSnoc(d, init, u);
      LatestStatsWin(d, init);
    }
  }

  /** After a stream, the processing flag and the status text are those set
      by its last recognised status message, or the earlier ones when there
      was none: live exactly when that message said `started`. */
  lemma {:induction false} LatestStatusWins(d: Display, us: seq<Inbound>)
    ensures LastStatusUpdate(us).Some? ==>
              DispatchAll(d, us).processing == (LastStatusUpdate(us).value.status == Some("started")) &&
              DispatchAll(d, us).status == StatusText(LastStatusUpdate(us).value)
    ensures LastStatusUpdate(us).None? ==>
              DispatchAll(d, us).processing == d.processing && DispatchAll(d, us).status == d.status
    decreases |us|
  {
    if us != [] {
      var init, u := us[..|us| - 1], us[|us| - 1];
      assert us == init + [u];
      DispatchAllSnoc(d, init, u);
      LatestStatusWins(d, init);
    }
  }

  /** Frames and unparseable text units can be removed from a stream without
      changing the outcome: they neither act nor block later messages. */
  lemma {:induction false} OnlyParsedUnitsAct(d: Display, us: seq<Inbound>)
    ensures DispatchAll(d, us) == DispatchAll(d, ParsedOnly(us))
    decreases |us|
  {
    if us != [] {
      OnlyParsedUnitsAct(Dispatch(d, us[0]), us[1..]);
      if us[0].Parsed? {
        var r := [us[0]] + ParsedOnly(us[1..]);
        assert r[0] == us[0] && r[1..] == ParsedOnly(us[1..]);
      }
    }
  }

  /** The stats message `{type:'stats', zones_total:5, parked:2}` gives
      5 total zones, 2 parked vehicles and 0 for the other four counters. */
  lemma PartialStatsMessage()
    ensures StatsFrom(Payload(Some("stats"), None, None, None,
                              Some(5), None, None, Some(2), None, None))
            == Stats(5, 0, 0, 2, 0, 0)
  {
  }

  // ---------------------------------------------------------------------
  // Socket sends and controls

  /** `WebSocket.send`: writes while OPEN, throws an InvalidStateError while
      CONNECTING, and silently drops the data once CLOSING or CLOSED. */
  function SendOn(rs: ReadyState): (r: SendOutcome)
    ensures r == Transmitted <==> rs == Open
    ensures r == Throws <==> rs == Connecting
  {
    match rs
    case Open => Transmitted
    case Connecting => Throws
    case Closing => Discarded
    case Closed => Discarded
  }

  /** `WebSocket.close`: a live socket starts closing; otherwise no effect. */
  function AfterClose(rs: ReadyState): (r: ReadyState)
    ensures r != Open && r != Connecting
    ensures rs == Closing || rs == Closed ==> r == rs
  {
    if rs == Connecting || rs == Open then Closing else rs
  }

  /** The upload reply that lets the client send the video start command. */
  predicate UploadAccepted(o: UploadOutcome)
  {
    o.Replied? && o.status == Some("success")
  }

  /** Status text after a rejected or failed upload. */
  function UploadFailureText(o: UploadOutcome): (r: string)
    requires !UploadAccepted(o)
    ensures o.Replied? && Truthy(o.message) ==> r == o.message.value
    ensures o.TransportError? || !Truthy(o.message) ==> r == "Error al subir video"
  {
    match o
    case TransportError => "Error al subir video"
    case Replied(_, _, message) => OrDefault(message, "Error al subir video")
  }

  /** Start button: connected, not already processing, and a file chosen when
      the source is a video file. */
  predicate StartEnabled(connected: bool, processing: bool, source: SourceKind, file: Option<VideoFile>)
  {
    !(!connected || processing || (source == Video && file.None?))
  }

  /** Stop button: connected and processing. */
  predicate StopEnabled(connected: bool, processing: bool)
  {
    !(!connected || !processing)
  }

  /** Refresh-stats button: connected. */
  predicate RefreshEnabled(connected: bool)
  {
    connected
  }

  /** Radio inputs: the webcam choice is always disabled, the video choice
      while processing. */
  predicate SourceChoiceEnabled(kind: SourceKind, processing: bool)
  {
    kind == Video && !processing
  }

  /** The enablement rules, stated positively: Start and Stop are never
      enabled together, and every button needs the connection. */
  lemma ButtonRules(connected: bool, processing: bool, source: SourceKind, file: Option<VideoFile>)
    ensures StartEnabled(connected, processing, source, file) <==>
              connected && !processing && (source != Video || file.Some?)
    ensures StopEnabled(connected, processing) <==> connected && processing
    ensures !(StartEnabled(connected, processing, source, file) && StopEnabled(connected, processing))
    ensures (StartEnabled(connected, processing, source, file) || StopEnabled(connected, processing))
              ==> RefreshEnabled(connected)
  {
  }

  // ---------------------------------------------------------------------
  // The outbox

  /** The video paths of the start-video commands in a command log, in order. */
  function StartVideoPaths(cs: seq<Command>): seq<Option<string>>
    decreases |cs|
  {
    if cs == [] then []
    else (if cs[0].StartVideo? then [cs[0].videoPath] else []) + StartVideoPaths(cs[1..])
  }

  /** Appending one command adds its path exactly when it is a start-video command. */
  lemma {:induction false} StartVideoPathsSnoc(cs: seq<Command>, c: Command)
    ensures StartVideoPaths(cs + [c]) ==
              StartVideoPaths(cs) + (if c.StartVideo? then [c.videoPath] else [])
    decreases |cs|
  {
    if cs == [] {
      assert [] + [c] == [c];
    } else {
      assert (cs + [c])[0] == cs[0];
      assert (cs + [c])[1..] == cs[1..] + [c];
      StartVideoPathsSnoc(cs[1..], c);
    }
  }

  /** `xs` is `ys` with some elements left out, the rest kept in order;
      matched greedily from the end. */
  predicate Subsequence<T(==)>(xs: seq<T>, ys: seq<T>)
    decreases |ys|
  {
    if xs == [] then true
    else if ys == [] then false
    else if xs[|xs| - 1] == ys[|ys| - 1] then Subsequence(xs[..|xs| - 1], ys[..|ys| - 1])
    else Subsequence(xs, ys[..|ys| - 1])
  }

  /** A subsequence stays one when the longer sequence grows. */
  lemma {:induction false} SubsequenceExtend<T>(xs: seq<T>, ys: seq<T>, y: T)
    requires Subsequence(xs, ys)
    ensures Subsequence(xs, ys + [y])
    decreases |ys|, 1
  {
    var ys' := ys + [y];
    assert ys'[..|ys'| - 1] == ys;
    if xs != [] && xs[|xs| - 1] == y {
      SubsequenceDropLast(xs, ys);
    }
  }

  /** Leaving out the last element of a subsequence keeps it one. */
  lemma {:induction false} SubsequenceDropLast<T>(xs: seq<T>, ys: seq<T>)
    requires xs != [] && Subsequence(xs, ys)
    ensures Subsequence(xs[..|xs| - 1], ys)
    decreases |ys|, 0
  {
    var xs', ys' := xs[..|xs| - 1], ys[..|ys| - 1];
    assert ys == ys' + [ys[|ys| - 1]];
    if xs[|xs| - 1] == ys[|ys| - 1] {
      SubsequenceExtend(xs', ys', ys[|ys| - 1]);
    } else {
      SubsequenceDropLast(xs, ys');
      SubsequenceExtend(xs', ys', ys[|ys| - 1]);
    }
  }

  /** Growing both sequences by the same element keeps the relation. */
  lemma SubsequenceMatch<T>(xs: seq<T>, ys: seq<T>, y: T)
    requires Subsequence(xs, ys)
    ensures Subsequence(xs + [y], ys + [y])
  {
    assert (xs + [y])[..|xs|] == xs && (ys + [y])[..|ys|] == ys;
  }

  /** The start-video commands in the log are backed, one by one and in the
      same order, by accepted uploads of the same path. */
  predicate Backed(cs: seq<Command>, accepted: seq<Option<string>>)
  {
    Subsequence(StartVideoPaths(cs), accepted)
  }

  /** Sending any other command keeps the log backed. */
  lemma BackedAfterOtherCommand(cs: seq<Command>, accepted: seq<Option<string>>, c: Command)
    requires Backed(cs, accepted) && !c.StartVideo?
    ensures Backed(cs + [c], accepted)
  {
    StartVideoPathsSnoc(cs, c);
    assert StartVideoPaths(cs + [c]) == StartVideoPaths(cs);
  }

  /** Accepting an upload without sending its start command keeps the log backed. */
  lemma BackedAfterAcceptedUpload(cs: seq<Command>, accepted: seq<Option<string>>, path: Option<string>)
    requires Backed(cs, accepted)
    ensures Backed(cs, accepted + [path])
  {
    SubsequenceExtend(StartVideoPaths(cs), accepted, path);
  }

  /** Accepting an upload and sending its start command keeps the log backed. */
  lemma BackedAfterStartVideo(cs: seq<Command>, accepted: seq<Option<string>>, path: Option<string>)
    requires Backed(cs, accepted)
    ensures Backed(cs + [StartVideo(path)], accepted + [path])
  {
    StartVideoPathsSnoc(cs, StartVideo(path));
    SubsequenceMatch(StartVideoPaths(cs), accepted, path);
  }
}
