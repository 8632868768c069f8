/**
 * The trace file writer: it opens a backend for the configured format on a
 * working path, writes one OSI message per `Step`, and on `Term` closes the
 * backend and renames the file to its final, metadata-bearing name.
 *
 * The backends (MCAP, single-channel binary, TXTH), protobuf parsing and the
 * file system are foreign; each call into them is recorded as a
 * `BackendCall`, and what they return is an input of the model. The
 * `std::function` members `serialized_writer_function_` and
 * `writer_function_consecutive_` become the explicit `Phase`.
 */
module TraceFile {
  import opened Fmi
  import opened Optional
  import opened FileFormats
  import opened TraceFileNames
  import PointerCodec

  /** The three OSI message types the writer can record. */
  datatype MessageKind = SensorView | SensorData | GroundTruth

  /** The short type tag each kind goes by in a trace file name. */
  function MessageTypeTag(k: MessageKind): string {
    match k
    case SensorView => "sv"
    case SensorData => "sd"
    case GroundTruth => "gt"
  }

  /** The dispatch of `SetupDeserializedWriterFunction` on `type_`. */
  function MessageKindOf(messageType: string): (k: Option<MessageKind>)
    ensures k.Some? <==> messageType == "sv" || messageType == "sd" || messageType == "gt"
    ensures k.Some? ==> MessageTypeTag(k.value) == messageType
  {
    if messageType == "sv" then Some(SensorView)
    else if messageType == "sd" then Some(SensorData)
    else if messageType == "gt" then Some(GroundTruth)
    else None
  }

  /** Every kind is selected by its own tag. */
  lemma MessageKindOfTag(k: MessageKind)
    ensures MessageKindOf(MessageTypeTag(k)) == Some(k)
  {
  }

  /** A `std::filesystem::path` of the form `folder / name`. */
  datatype Path = Path(folder: string, name: string)

  /**
   * Which write strategy `serialized_writer_function_` holds: none yet (an
   * empty `std::function`), the first-message strategy, or the consecutive
   * one. `target` is the format whose backend the consecutive strategy was
   * bound to when it was set up.
   */
  datatype Phase =
    | Unbound
    | AwaitingFirst(kind: MessageKind, target: FileFormat)
    | Streaming(kind: MessageKind, target: FileFormat)

  /** The exceptions the writer throws. */
  datatype WriterError =
    | UnknownFileFormat     // `SetupWriter`: "Unknown file format"
    | UnknownMessageType    // `SetupDeserializedWriterFunction`: "Unknown message type"
    | BadFunctionCall       // calling the empty `serialized_writer_function_`

  /** How a setup call ends: normally, or with an exception. */
  datatype Outcome = Pass | Fail(error: WriterError)

  /** How `Step` ends: with the backend's write result, or with an exception. */
  datatype StepOutcome = Written(success: bool) | StepThrew(error: WriterError)

  /** The calls the writer makes into the backend library and the file system, in order. */
  datatype BackendCall =
    | Open(format: FileFormat, path: Path)
    | AddRequiredFileMetadata
    | AddChannel(channel: string, schema: MessageKind, metadata: map<string, string>)
    | WriteMessage(target: FileFormat, kind: MessageKind, data: PointerCodec.Address, size: Int32, topic: Option<string>)
    | Close
    | Rename(from: Path, to: Path)

  /** The MCAP topic, and the writer's name in the channel metadata. */
  const ChannelTopic := "sl-5-6-osi-trace-file-writer"

  const DescriptionKey := "net.asam.osi.trace.channel.description"
  const VersionKey := "net.asam.osi.trace.channel.osi_version"
  const ChannelDescription := "Channel added via openMSL sl-5-6-osi-trace-file-writer"

  /** The metadata of the MCAP channel, built from the first message's version. */
  function ChannelMetadata(v: Version): (m: map<string, string>)
    ensures m.Keys == {DescriptionKey, VersionKey}
  {
    map[
      DescriptionKey := ChannelDescription,
      VersionKey := DottedVersion(v)
    ]
  }

  /**
   * Unlike the concatenated `osi_version_` of the file name, the channel
   * metadata tells every two versions apart.
   */
  lemma ChannelMetadataRecordsVersion(v: Version, w: Version)
    requires ChannelMetadata(v) == ChannelMetadata(w)
    ensures v == w
  {
    assert ChannelMetadata(v)[VersionKey] == DottedVersion(v);
    assert ChannelMetadata(w)[VersionKey] == DottedVersion(w);
    DottedVersionInjective(v, w);
  }

  /** `SetupWriter`'s calls for a known format: open the working path; MCAP also adds the required file metadata. */
  function OpenCalls(f: FileFormat, p: Path): (calls: seq<BackendCall>)
    ensures |calls| == (if f == MCAP then 2 else 1)
    ensures calls[0] == Open(f, p)
    ensures forall i :: 1 <= i < |calls| ==> calls[i] == AddRequiredFileMetadata
  {
    [Open(f, p)] + (if f == MCAP then [AddRequiredFileMetadata] else [])
  }

  /** The first-message strategy's channel creation: one `AddChannel`, for MCAP only. */
  function ChannelCalls(f: FileFormat, k: MessageKind, v: Version): (calls: seq<BackendCall>)
    ensures |calls| == (if f == MCAP then 1 else 0)
  {
    if f == MCAP then [AddChannel(ChannelTopic, k, ChannelMetadata(v))] else []
  }

  /**
   * One `Step` call as the model sees it: the buffer address and size handed
   * over, the version triple the parsed message carries, and what the
   * backend's `WriteMessage` returned.
   */
  datatype StepInput = StepInput(data: PointerCodec.Address, size: Int32, version: Version, written: bool)

  /** The topic a backend write names: only the MCAP writer takes one. */
  function WriteTopic(target: FileFormat): (t: Option<string>)
    ensures t.Some? <==> target == MCAP
  {
    if target == MCAP then Some(ChannelTopic) else None
  }

  /** The consecutive strategy's single backend call. */
  function WriteCall(target: FileFormat, k: MessageKind, x: StepInput): BackendCall {
    WriteMessage(target, k, x.data, x.size, WriteTopic(target))
  }

  /** The write calls of a sequence of steps under the consecutive strategy. */
  function Writes(target: FileFormat, k: MessageKind, xs: seq<StepInput>): (calls: seq<BackendCall>)
    ensures |calls| == |xs|
    ensures forall i :: 0 <= i < |xs| ==> calls[i] == WriteCall(target, k, xs[i])
  {
    if |xs| == 0 then [] else [WriteCall(target, k, xs[0])] + Writes(target, k, xs[1..])
  }

  /** The writer's fields, as one value. */
  datatype WriterState = WriterState(
    fileFormat: FileFormat,
    phase: Phase,
    backendOpen: bool,
    traceFolder: string,
    traceTemp: Path,
    startTime: string,
    numFrames: nat,
    osiVersion: string,
    protobufVersion: string,
    customName: string,
    messageType: string,
    omitTimestamp: bool,
    backendCalls: seq<BackendCall>)

  /** A default-constructed writer: unknown format, no frames, empty strings, no backend. */
  const InitialState := WriterState(Unknown, Unbound, false, "", Path("", ""), "", 0, "", "", "", "", false, [])

  /**
   * The specification of `Step`: the frame counter goes up first, then the
   * current strategy runs. The first-message strategy records the version,
   * adds the MCAP channel, writes, and installs the consecutive strategy.
   */
  function StepSpec(s: WriterState, x: StepInput): (r: (WriterState, StepOutcome))
    ensures r.0.numFrames == s.numFrames + 1
    ensures s.phase.Unbound? <==> r.1.StepThrew?
    ensures !s.phase.Unbound? ==> r.1 == Written(x.written) && r.0.phase.Streaming?
  {
    var counted := s.(numFrames := s.numFrames + 1);
    match s.phase
    case Unbound =>
      (counted, StepThrew(BadFunctionCall))
    case AwaitingFirst(k, t) =>
      (counted.(phase := Streaming(k, t), osiVersion := VersionTag(x.version),
                backendCalls := s.backendCalls + ChannelCalls(s.fileFormat, k, x.version) + [WriteCall(t, k, x)]),
       Written(x.written))
    case Streaming(k, t) =>
      (counted.(backendCalls := s.backendCalls + [WriteCall(t, k, x)]), Written(x.written))
  }

  /**
   * The fields a step never changes: the configuration `Init` recorded, the
   * working path and whether a backend is open.
   */
  predicate SameConfiguration(s: WriterState, t: WriterState) {
    && s.fileFormat == t.fileFormat && s.backendOpen == t.backendOpen
    && s.traceFolder == t.traceFolder && s.traceTemp == t.traceTemp && s.startTime == t.startTime
    && s.protobufVersion == t.protobufVersion && s.customName == t.customName
    && s.messageType == t.messageType && s.omitTimestamp == t.omitTimestamp
  }

  /** A step keeps the configuration and only appends to the call log. */
  lemma StepKeepsConfiguration(s: WriterState, x: StepInput)
    ensures SameConfiguration(s, StepSpec(s, x).0)
    ensures var calls := StepSpec(s, x).0.backendCalls;
      |calls| >= |s.backendCalls| && calls[..|s.backendCalls|] == s.backendCalls
  {
  }

  /** The state after a sequence of `Step` calls: the configuration stays and the call log only grows. */
  function Run(s: WriterState, xs: seq<StepInput>): (t: WriterState)
    ensures SameConfiguration(s, t)
    ensures |t.backendCalls| >= |s.backendCalls| && t.backendCalls[..|s.backendCalls|] == s.backendCalls
    decreases |xs|
  {
    if |xs| == 0 then s else StepKeepsConfiguration(s, xs[0]); Run(StepSpec(s, xs[0]).0, xs[1..])
  }

  /** What each of a sequence of `Step` calls returns. */
  function RunOutcomes(s: WriterState, xs: seq<StepInput>): (r: seq<StepOutcome>)
    ensures |r| == |xs|
    decreases |xs|
  {
    if |xs| == 0 then [] else [StepSpec(s, xs[0]).1] + RunOutcomes(StepSpec(s, xs[0]).0, xs[1..])
  }

  /** Every call counts a frame: after N calls the counter has grown by exactly N. */
  lemma {:induction false} RunCountsFrames(s: WriterState, xs: seq<StepInput>)
    ensures Run(s, xs).numFrames == s.numFrames + |xs|
    decreases |xs|
  {
    if |xs| > 0 {
      RunCountsFrames(StepSpec(s, xs[0]).0, xs[1..]);
    }
  }

  /** Under the consecutive strategy a step only counts and writes; the version and the strategy stay. */
  lemma {:induction false} RunStreaming(s: WriterState, xs: seq<StepInput>)
    requires s.phase.Streaming?
    ensures Run(s, xs) == s.(numFrames := s.numFrames + |xs|,
                             backendCalls := s.backendCalls + Writes(s.phase.target, s.phase.kind, xs))
    decreases |xs|
  {
    if |xs| > 0 {
      var k, t := s.phase.kind, s.phase.target;
      var next := StepSpec(s, xs[0]).0;
      assert next == s.(numFrames := s.numFrames + 1, backendCalls := s.backendCalls + [WriteCall(t, k, xs[0])]);
      RunStreaming(next, xs[1..]);
      assert Writes(t, k, xs) == [WriteCall(t, k, xs[0])] + Writes(t, k, xs[1..]);
      AppendAssoc(s.backendCalls, [WriteCall(t, k, xs[0])], Writes(t, k, xs[1..]));
    }
  }

  /**
   * From the first-message strategy, a nonempty run records the first
   * message's version, adds the MCAP channel once before any message is
   * written (no channel for OSI or TXTH), writes every message, and ends
   * under the consecutive strategy.
   */
  lemma RunFromFirst(s: WriterState, xs: seq<StepInput>)
    requires s.phase.AwaitingFirst? && |xs| > 0
    ensures var k, t := s.phase.kind, s.phase.target;
      Run(s, xs) == s.(phase := Streaming(k, t),
                       osiVersion := VersionTag(xs[0].version),
                       numFrames := s.numFrames + |xs|,
                       backendCalls := s.backendCalls + ChannelCalls(s.fileFormat, k, xs[0].version) + Writes(t, k, xs))
  {
    var k, t := s.phase.kind, s.phase.target;
    var prefix := s.backendCalls + ChannelCalls(s.fileFormat, k, xs[0].version);
    var first, rest := [WriteCall(t, k, xs[0])], Writes(t, k, xs[1..]);
    var next := StepSpec(s, xs[0]).0;
    assert next == s.(phase := Streaming(k, t), osiVersion := VersionTag(xs[0].version),
                      numFrames := s.numFrames + 1, backendCalls := prefix + first);
    assert Run(s, xs) == Run(next, xs[1..]);
    RunStreaming(next, xs[1..]);
    assert Writes(t, k, xs) == first + rest;
    AppendAssoc(prefix, first, rest);
  }

  /** The calls a first run adds: the MCAP channel first, then only message writes. */
  lemma ChannelBeforeMessages(s: WriterState, xs: seq<StepInput>)
    requires s.phase.AwaitingFirst? && |xs| > 0
    ensures |Run(s, xs).backendCalls| >= |s.backendCalls|
    ensures var added := Run(s, xs).backendCalls[|s.backendCalls|..];
      && |added| == |xs| + (if s.fileFormat == MCAP then 1 else 0)
      && (s.fileFormat == MCAP ==> added[0].AddChannel? && forall i :: 1 <= i < |added| ==> added[i].WriteMessage?)
      && (s.fileFormat != MCAP ==> forall i :: 0 <= i < |added| ==> added[i].WriteMessage?)
  {
    RunFromFirst(s, xs);
    var k, t := s.phase.kind, s.phase.target;
    var channel := ChannelCalls(s.fileFormat, k, xs[0].version);
    var added := Run(s, xs).backendCalls[|s.backendCalls|..];
    assert added == channel + Writes(t, k, xs);
  }

  /** Without a bound strategy every step throws, after counting its frame, and touches nothing else. */
  lemma {:induction false} RunUnbound(s: WriterState, xs: seq<StepInput>)
    requires s.phase.Unbound?
    ensures Run(s, xs) == s.(numFrames := s.numFrames + |xs|)
    ensures forall i :: 0 <= i < |xs| ==> RunOutcomes(s, xs)[i] == StepThrew(BadFunctionCall)
    decreases |xs|
  {
    if |xs| > 0 {
      RunUnbound(StepSpec(s, xs[0]).0, xs[1..]);
      assert forall i :: 1 <= i < |xs| ==> RunOutcomes(s, xs)[i] == RunOutcomes(StepSpec(s, xs[0]).0, xs[1..])[i - 1];
    }
  }

  /** Once a strategy is bound, every step, the first included, returns the backend's write result. */
  lemma {:induction false} RunOutcomesWritten(s: WriterState, xs: seq<StepInput>)
    requires !s.phase.Unbound?
    ensures |RunOutcomes(s, xs)| == |xs|
    ensures forall i :: 0 <= i < |xs| ==> RunOutcomes(s, xs)[i] == Written(xs[i].written)
    decreases |xs|
  {
    if |xs| > 0 {
      var next := StepSpec(s, xs[0]).0;
      RunOutcomesWritten(next, xs[1..]);
      assert forall i :: 1 <= i < |xs| ==> RunOutcomes(s, xs)[i] == RunOutcomes(next, xs[1..])[i - 1];
    }
  }

  class TraceFileWriter {
    var fileFormat: FileFormat
    var phase: Phase
    var backendOpen: bool          // `writer_` holds a backend
    var traceFolder: string
    var traceTemp: Path
    var startTime: string
    var numFrames: nat
    var osiVersion: string
    var protobufVersion: string
    var customName: string
    var messageType: string
    var omitTimestamp: bool
    var backendCalls: seq<BackendCall>

    function State(): WriterState
      reads this
    {
      WriterState(fileFormat, phase, backendOpen, traceFolder, traceTemp, startTime, numFrames,
                  osiVersion, protobufVersion, customName, messageType, omitTimestamp, backendCalls)
    }

    /** The field defaults of the class declaration. */
    constructor ()
      ensures State() == InitialState
    {
      fileFormat := Unknown;
      phase := Unbound;
      backendOpen := false;
      traceFolder := "";
      traceTemp := Path("", "");
      startTime := "";
      numFrames := 0;
      osiVersion := "";
      protobufVersion := "";
      customName := "";
      messageType := "";
      omitTimestamp := false;
      backendCalls := [];
    }

    /**
     * Records the configuration, names the working file, opens the backend
     * and sets up the first-message strategy. The frame counter and the OSI
     * version are left as they were.
     */
    method Init(tracePath: string, protobufVersion: string, customName: string, messageType: string,
                fileFormat: FileFormat, omitTimestamp: bool, clock: string) returns (r: Outcome)
      modifies this`omitTimestamp, this`traceFolder, this`protobufVersion, this`customName, this`messageType,
               this`fileFormat, this`startTime, this`traceTemp, this`backendOpen, this`backendCalls, this`phase
      ensures && this.omitTimestamp == omitTimestamp && traceFolder == tracePath
              && this.protobufVersion == protobufVersion && this.customName == customName
              && this.messageType == messageType && this.fileFormat == fileFormat
      ensures startTime == StartTime(omitTimestamp, clock)
      ensures traceTemp == Path(tracePath, WorkingFileName(startTime, messageType, customName, fileFormat))
      ensures fileFormat == Unknown ==>
                r == Fail(UnknownFileFormat) && backendOpen == old(backendOpen)
                && backendCalls == old(backendCalls) && phase == old(phase)
      ensures fileFormat != Unknown ==> backendOpen && backendCalls == old(backendCalls) + OpenCalls(fileFormat, traceTemp)
      ensures fileFormat != Unknown && MessageKindOf(messageType).None? ==>
                r == Fail(UnknownMessageType) && phase == old(phase)
      ensures fileFormat != Unknown && MessageKindOf(messageType).Some? ==>
                r == Pass && phase == AwaitingFirst(MessageKindOf(messageType).value, fileFormat)
    {
      this.omitTimestamp := omitTimestamp;
      traceFolder := tracePath;
      this.protobufVersion := protobufVersion;
      this.customName := customName;
      this.messageType := messageType;
      this.fileFormat := fileFormat;
      SetFileName(clock);
      r := SetupWriter();
      if r.Fail? {
        return;
      }
      r := SetupDeserializedWriterFunction();
    }

    /** Counts the frame, then runs the current write strategy. */
    method Step(data: PointerCodec.Address, size: Int32, version: Version, written: bool) returns (r: StepOutcome)
      modifies this`numFrames, this`phase, this`osiVersion, this`backendCalls
      ensures (State(), r) == StepSpec(old(State()), StepInput(data, size, version, written))
      ensures numFrames == old(numFrames) + 1
      ensures !old(phase).Unbound? ==> r == Written(written) && phase.Streaming?
      ensures old(phase).AwaitingFirst? ==> osiVersion == VersionTag(version)
      ensures !old(phase).AwaitingFirst? ==> osiVersion == old(osiVersion)
    {
      numFrames := numFrames + 1;
      match phase
      case Unbound =>
        r := StepThrew(BadFunctionCall);
      case AwaitingFirst(kind, target) =>
        r := WriteFirst(kind, target, data, size, version, written);
      case Streaming(kind, target) =>
        r := WriteConsecutive(kind, target, data, size, written);
    }

    /**
     * The first-message strategy: record the message's OSI version, add the
     * MCAP channel, write the message, and install the consecutive strategy.
     */
    method WriteFirst(kind: MessageKind, target: FileFormat, data: PointerCodec.Address, size: Int32,
                      version: Version, written: bool) returns (r: StepOutcome)
      modifies this`phase, this`osiVersion, this`backendCalls
      ensures osiVersion == VersionTag(version)
      ensures backendCalls == old(backendCalls) + ChannelCalls(fileFormat, kind, version)
                              + [WriteCall(target, kind, StepInput(data, size, version, written))]
      ensures phase == Streaming(kind, target)
      ensures r == Written(written)
    {
      osiVersion := VersionTag(version);
      if fileFormat == MCAP {
        backendCalls := backendCalls + [AddChannel(ChannelTopic, kind, ChannelMetadata(version))];
      }
      r := WriteConsecutive(kind, target, data, size, written);
      phase := Streaming(kind, target);
    }

    /** `writer_function_consecutive_`: parse the buffer as `kind` and hand it to the backend. */
    method WriteConsecutive(kind: MessageKind, target: FileFormat, data: PointerCodec.Address, size: Int32, written: bool)
      returns (r: StepOutcome)
      modifies this`backendCalls
      ensures backendCalls == old(backendCalls) + [WriteMessage(target, kind, data, size, WriteTopic(target))]
      ensures r == Written(written)
    {
      backendCalls := backendCalls + [WriteMessage(target, kind, data, size, WriteTopic(target))];
      r := Written(written);
    }

    /** Fixes the start time and the working path `<folder>/<start>_<type>[_<custom>]<ext>`. */
    method SetFileName(clock: string)
      modifies this`startTime, this`traceTemp
      ensures startTime == StartTime(omitTimestamp, clock)
      ensures traceTemp == Path(traceFolder, WorkingFileName(startTime, messageType, customName, fileFormat))
    {
      if omitTimestamp {
        startTime := ZeroTimestamp;
      } else {
        startTime := clock;
      }
      traceTemp := Path(traceFolder, WorkingFileName(startTime, messageType, customName, fileFormat));
    }

    /** Opens a backend for the configured format on the working path; throws on `Unknown`. */
    method SetupWriter() returns (r: Outcome)
      modifies this`backendCalls, this`backendOpen
      ensures fileFormat == Unknown ==> r == Fail(UnknownFileFormat) && backendCalls == old(backendCalls) && backendOpen == old(backendOpen)
      ensures fileFormat != Unknown ==> r == Pass && backendOpen && backendCalls == old(backendCalls) + OpenCalls(fileFormat, traceTemp)
    {
      match fileFormat
      case MCAP =>
        backendCalls := backendCalls + [Open(MCAP, traceTemp), AddRequiredFileMetadata];
        backendOpen := true;
        r := Pass;
      case OSI =>
        backendCalls := backendCalls + [Open(OSI, traceTemp)];
        backendOpen := true;
        r := Pass;
      case TXTH =>
        backendCalls := backendCalls + [Open(TXTH, traceTemp)];
        backendOpen := true;
        r := Pass;
      case Unknown =>
        r := Fail(UnknownFileFormat);
    }

    /** Binds the first-message strategy for the configured message type; throws on an unknown type. */
    method SetupDeserializedWriterFunction() returns (r: Outcome)
      requires fileFormat != Unknown
      modifies this`phase
      ensures MessageKindOf(messageType).None? ==> r == Fail(UnknownMessageType) && phase == old(phase)
      ensures MessageKindOf(messageType).Some? ==> r == Pass && phase == AwaitingFirst(MessageKindOf(messageType).value, fileFormat)
    {
      if messageType == "sv" {
        phase := AwaitingFirst(SensorView, fileFormat);
        r := Pass;
      } else if messageType == "sd" {
        phase := AwaitingFirst(SensorData, fileFormat);
        r := Pass;
      } else if messageType == "gt" {
        phase := AwaitingFirst(GroundTruth, fileFormat);
        r := Pass;
      } else {
        r := Fail(UnknownMessageType);
      }
    }

    /** Closes the backend and renames the working file to its final name. */
    method Term() returns (finalPath: Path)
      requires backendOpen
      modifies this`backendCalls
      ensures finalPath == Path(traceFolder, FinalFileName(startTime, messageType, osiVersion, protobufVersion, numFrames, customName, fileFormat))
      ensures backendCalls == old(backendCalls) + [Close, Rename(traceTemp, finalPath)]
    {
      backendCalls := backendCalls + [Close];
      var name := FinalFileName(startTime, messageType, osiVersion, protobufVersion, numFrames, customName, fileFormat);
      finalPath := Path(traceFolder, name);
      backendCalls := backendCalls + [Rename(traceTemp, finalPath)];
    }
  }

  /**
   * `sd` messages into an `.osi` trace with declared version 3.5.0 and
   * timestamps suppressed: three steps and termination give the final name
   * `00000000T000000Z_sd_<observed>_3.5.0_3.osi`, where the observed version
   * is the first message's.
   */
  method ThreeFrameTrace(clock: string, data: PointerCodec.Address, size: Int32, v: Version, later: Version)
    returns (start: Path, finalPath: Path)
    ensures start == Path("traces", "00000000T000000Z_sd.osi")
    ensures finalPath == Path("traces", "00000000T000000Z_sd_" + VersionTag(v) + "_3.5.0_3.osi")
  {
    var w := new TraceFileWriter();
    var r := w.Init("traces", "3.5.0", "", "sd", OSI, true, clock);
    assert w.phase == AwaitingFirst(SensorData, OSI) && w.numFrames == 0 && w.backendOpen;
    assert w.startTime == ZeroTimestamp && w.customName == "" && w.fileFormat == OSI;
    start := w.traceTemp;
    var s1 := w.Step(data, size, v, true);
    var s2 := w.Step(data, size, later, true);
    var s3 := w.Step(data, size, v, false);
    assert s3 == Written(false);
    assert w.osiVersion == VersionTag(v) && w.numFrames == 3;
    finalPath := w.Term();
    ThreeFrameName(VersionTag(v));
    ThreeFrameWorkingName();
  }

  /** Terminating before any step: no OSI version is claimed and the frame count is 0. */
  method EmptyTrace(clock: string) returns (finalPath: Path)
    ensures finalPath == Path("out", clock + "_gt__4.0_0_run.mcap")
  {
    var w := new TraceFileWriter();
    var r := w.Init("out", "4.0", "run", "gt", MCAP, false, clock);
    assert w.startTime == clock && w.osiVersion == "" && w.numFrames == 0 && w.backendOpen;
    finalPath := w.Term();
    EmptyTraceName(clock);
  }
}
