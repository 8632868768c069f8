/**
 * The host-facing component: an FMI 2.0 co-simulation slave packaged by the
 * OSI Sensor Model Packaging convention. It holds four fixed-size variable
 * arrays, the logging settings, the `simulation_started_` flag and a trace
 * file writer; the host drives it through the FMI calls modelled here.
 *
 * The array sizes and slot indices come from OSMP.h, which is not part of
 * this model; they are the component's `Layout`.
 */
module Osmp {
  import opened Fmi
  import opened Optional
  import opened FileFormats
  import opened FormatTag
  import opened VariableTable
  import opened TraceFileNames
  import PointerCodec
  import TraceFile

  /** The `FMI_*_VARS` array sizes and the `FMI_*_IDX` slots the component uses. */
  datatype Layout = Layout(
    booleanVars: nat, integerVars: nat, realVars: nat, stringVars: nat,
    validIdx: nat, omitTimestampIdx: nat,
    baseLoIdx: nat, baseHiIdx: nat, sizeIdx: nat,
    tracePathIdx: nat, protobufVersionIdx: nat, customNameIdx: nat, messageTypeIdx: nat, fileFormatIdx: nat)
  {
    /** Every named slot lies in its array, and the three buffer slots are distinct. */
    predicate WellFormed() {
      && validIdx < booleanVars && omitTimestampIdx < booleanVars
      && baseLoIdx < integerVars && baseHiIdx < integerVars && sizeIdx < integerVars
      && baseLoIdx != baseHiIdx && baseLoIdx != sizeIdx && baseHiIdx != sizeIdx
      && tracePathIdx < stringVars && protobufVersionIdx < stringVars && customNameIdx < stringVars
      && messageTypeIdx < stringVars && fileFormatIdx < stringVars
    }
  }

  /** The logging categories the component knows. */
  const KnownCategories: set<string> := {"FMI", "OSMP", "OSI"}

  /**
   * How a host call ends: with a status, or with an exception from the trace
   * file writer that nothing in the component catches.
   */
  datatype Completion = Returned(status: Status) | Threw(error: TraceFile.WriterError)

  /** The handoff buffer announced in the integer slots: its address and its size. */
  datatype Buffer = Buffer(address: PointerCodec.Address, size: Int32)

  class OSMP {
    const layout: Layout
    const width: PointerCodec.AddressWidth
    const booleanVars: array<Int32>
    const integerVars: array<Int32>
    const realVars: array<real>
    const stringVars: array<string>
    const writer: TraceFile.TraceFileWriter
    var loggingOn: bool
    var loggingCategories: set<string>
    var simulationStarted: bool

    /** The arrays have their layout's sizes; the two `fmi2Integer`-typed arrays are distinct. */
    ghost predicate Valid()
      reads this
    {
      && layout.WellFormed()
      && booleanVars.Length == layout.booleanVars && integerVars.Length == layout.integerVars
      && realVars.Length == layout.realVars && stringVars.Length == layout.stringVars
      && booleanVars != integerVars
    }

    /** All booleans false, all integers 0, all reals 0.0, all strings empty. */
    ghost predicate Cleared()
      reads booleanVars, integerVars, realVars, stringVars
    {
      && (forall i :: 0 <= i < booleanVars.Length ==> booleanVars[i] == False)
      && (forall i :: 0 <= i < integerVars.Length ==> integerVars[i] == 0)
      && (forall i :: 0 <= i < realVars.Length ==> realVars[i] == 0.0)
      && (forall i :: 0 <= i < stringVars.Length ==> stringVars[i] == "")
    }

    /** The constructor: logging as the host asked, all three categories, not started, a fresh writer. */
    constructor (layout: Layout, width: PointerCodec.AddressWidth, on: Int32)
      requires layout.WellFormed()
      ensures Valid() && this.layout == layout && this.width == width
      ensures loggingOn == (on != 0) && loggingCategories == KnownCategories && !simulationStarted
      ensures fresh(writer) && writer.State() == TraceFile.InitialState
      ensures fresh(booleanVars) && fresh(integerVars) && fresh(realVars) && fresh(stringVars)
    {
      this.layout := layout;
      this.width := width;
      booleanVars := new Int32[layout.booleanVars];
      integerVars := new Int32[layout.integerVars];
      realVars := new real[layout.realVars];
      stringVars := new string[layout.stringVars];
      writer := new TraceFile.TraceFileWriter();
      loggingOn := on != 0;
      loggingCategories := KnownCategories;
      simulationStarted := false;
    }

    /** `Instantiate`: construct, then `DoInit`, which cannot fail. */
    static method Instantiate(layout: Layout, width: PointerCodec.AddressWidth, loggingOn: Int32) returns (c: OSMP)
      requires layout.WellFormed()
      ensures fresh(c) && fresh(c.writer) && c.Valid() && c.Cleared()
      ensures fresh(c.booleanVars) && fresh(c.integerVars) && fresh(c.realVars) && fresh(c.stringVars)
      ensures c.layout == layout && c.width == width && c.loggingOn == (loggingOn != 0)
      ensures c.loggingCategories == KnownCategories && !c.simulationStarted
      ensures c.writer.State() == TraceFile.InitialState
    {
      c := new OSMP(layout, width, loggingOn);
      var status := c.DoInit();
    }

    /** `DoInit`: clear every variable, then clear the omit-timestamp flag. */
    method DoInit() returns (status: Status)
      requires Valid()
      modifies booleanVars, integerVars, realVars, stringVars
      ensures status == OK && Cleared()
      ensures booleanVars[layout.omitTimestampIdx] == False
    {
      Fill(booleanVars, False);
      Fill(integerVars, 0);
      Fill(realVars, 0.0);
      Fill(stringVars, "");
      booleanVars[layout.omitTimestampIdx] := False;
      status := OK;
    }

    /** `SetDebugLogging`: a non-empty list selects the names it recognises; no list selects all three. */
    method SetDebugLogging(on: Int32, categories: Option<seq<string>>) returns (status: Status)
      modifies this`loggingOn, this`loggingCategories
      ensures status == OK && loggingOn == (on != 0)
      ensures loggingCategories <= KnownCategories
      ensures categories.Some? && |categories.value| > 0 ==>
        forall c :: c in loggingCategories <==> c in KnownCategories && c in categories.value
      ensures categories.None? || |categories.value| == 0 ==> loggingCategories == KnownCategories
    {
      loggingOn := on != 0;
      if categories.Some? && |categories.value| > 0 {
        var names := categories.value;
        loggingCategories := {};
        var i := 0;
        while i < |names|
          invariant 0 <= i <= |names| && loggingOn == (on != 0)
          invariant forall c :: c in loggingCategories <==> c in KnownCategories && c in names[..i]
        {
          assert names[..i + 1] == names[..i] + [names[i]];
          if names[i] == "FMI" {
            loggingCategories := loggingCategories + {"FMI"};
          } else if names[i] == "OSMP" {
            loggingCategories := loggingCategories + {"OSMP"};
          } else if names[i] == "OSI" {
            loggingCategories := loggingCategories + {"OSI"};
          }
          i := i + 1;
        }
        assert names[..i] == names;
      } else {
        loggingCategories := KnownCategories;
      }
      status := OK;
    }

    /** `SetupExperiment` / `DoStart`: the tolerance and the time window are accepted and ignored. */
    method SetupExperiment(toleranceDefined: Int32, tolerance: real, startTime: real,
                           stopTimeDefined: Int32, stopTime: real) returns (status: Status)
      ensures status == OK
    {
      status := OK;
    }

    /** `EnterInitializationMode` / `DoEnterInitializationMode`: accepted without effect. */
    method EnterInitializationMode() returns (status: Status)
      ensures status == OK
    {
      status := OK;
    }

    /**
     * `ExitInitializationMode`: mark the simulation started, resolve the
     * file-format parameter, and either refuse it with `Error` before the
     * writer is touched, or initialise the writer from the string and boolean
     * parameters. A resolved format is never `Unknown`, so the writer can
     * only throw on the message type.
     */
    method ExitInitializationMode(clock: string) returns (r: Completion)
      requires Valid()
      modifies this`simulationStarted
      modifies writer`omitTimestamp, writer`traceFolder, writer`protobufVersion, writer`customName,
               writer`messageType, writer`fileFormat, writer`startTime, writer`traceTemp, writer`backendOpen,
               writer`backendCalls, writer`phase
      ensures simulationStarted
      ensures writer.numFrames == old(writer.numFrames) && writer.osiVersion == old(writer.osiVersion)
      ensures ResolvedFormat(stringVars[layout.fileFormatIdx]).None? ==>
        r == Returned(Error) && writer.State() == old(writer.State())
      ensures ResolvedFormat(stringVars[layout.fileFormatIdx]).Some? ==>
        var format := ResolvedFormat(stringVars[layout.fileFormatIdx]).value;
        var messageType := stringVars[layout.messageTypeIdx];
        && writer.fileFormat == format && writer.backendOpen
        && writer.traceFolder == stringVars[layout.tracePathIdx]
        && writer.protobufVersion == stringVars[layout.protobufVersionIdx]
        && writer.customName == stringVars[layout.customNameIdx]
        && writer.messageType == messageType
        && writer.omitTimestamp == (booleanVars[layout.omitTimestampIdx] != 0)
        && writer.startTime == StartTime(writer.omitTimestamp, clock)
        && writer.traceTemp == TraceFile.Path(stringVars[layout.tracePathIdx],
                                 WorkingFileName(writer.startTime, messageType, writer.customName, format))
        && writer.backendCalls == old(writer.backendCalls) + TraceFile.OpenCalls(format, writer.traceTemp)
        && (TraceFile.MessageKindOf(messageType).Some? ==>
              r == Returned(OK) && writer.phase == TraceFile.AwaitingFirst(TraceFile.MessageKindOf(messageType).value, format))
        && (TraceFile.MessageKindOf(messageType).None? ==>
              r == Threw(TraceFile.UnknownMessageType) && writer.phase == old(writer.phase))
    {
      simulationStarted := true;
      var format := ResolveFileFormat(stringVars[layout.fileFormatIdx]);
      if format.None? {
        return Returned(Error);
      }
      var outcome := writer.Init(stringVars[layout.tracePathIdx], stringVars[layout.protobufVersionIdx],
                                 stringVars[layout.customNameIdx], stringVars[layout.messageTypeIdx],
                                 format.value, booleanVars[layout.omitTimestampIdx] != 0, clock);
      if outcome.Fail? {
        return Threw(outcome.error);
      }
      r := Returned(OK);
    }

    /** `GetFmiSensorDataIn`'s guard and decoding: a buffer is announced exactly when the size slot is positive. */
    function SensorDataIn(): (b: Option<Buffer>)
      requires Valid()
      reads this, integerVars
      ensures b.Some? <==> integerVars[layout.sizeIdx] > 0
      ensures b.Some? ==> b.value.size == integerVars[layout.sizeIdx]
    {
      if integerVars[layout.sizeIdx] > 0 then
        Some(Buffer(PointerCodec.Decode(width, integerVars[layout.baseHiIdx], integerVars[layout.baseLoIdx]),
                    integerVars[layout.sizeIdx]))
      else None
    }

    /**
     * The address `DoCalc` decodes from the `base.hi` / `base.lo` slots: the
     * address `GetFmiSensorDataIn` announces when the size is positive, but
     * decoded whatever the size.
     */
    function InputAddress(): (a: PointerCodec.Address)
      requires Valid()
      reads this, integerVars
      ensures a < PointerCodec.AddressBound(width)
      ensures integerVars[layout.sizeIdx] > 0 ==> SensorDataIn() == Some(Buffer(a, integerVars[layout.sizeIdx]))
    {
      PointerCodec.Decode(width, integerVars[layout.baseHiIdx], integerVars[layout.baseLoIdx])
    }

    /**
     * `DoStep` / `DoCalc`: hand the announced buffer to the writer, size
     * unchecked, and report its write result in the valid flag and the
     * status. An exception from the writer leaves the flag alone.
     * `version` and `written` are what parsing and the backend yield.
     */
    method DoStep(version: Version, written: bool) returns (r: Completion)
      requires Valid()
      modifies booleanVars, writer`numFrames, writer`phase, writer`osiVersion, writer`backendCalls
      ensures var spec := TraceFile.StepSpec(old(writer.State()),
                            TraceFile.StepInput(InputAddress(), integerVars[layout.sizeIdx], version, written));
        && writer.State() == spec.0
        && (spec.1.StepThrew? ==> r == Threw(spec.1.error) && booleanVars[..] == old(booleanVars[..]))
        && (spec.1 == TraceFile.Written(true) ==>
              r == Returned(OK) && booleanVars[..] == old(booleanVars[..])[layout.validIdx := True])
        && (spec.1 == TraceFile.Written(false) ==>
              r == Returned(Error) && booleanVars[..] == old(booleanVars[..])[layout.validIdx := False])
      ensures !old(writer.phase).Unbound? ==> (r == Returned(OK) <==> written) && !r.Threw?
    {
      var buffer := PointerCodec.Decode(width, integerVars[layout.baseHiIdx], integerVars[layout.baseLoIdx]);
      var outcome := writer.Step(buffer, integerVars[layout.sizeIdx], version, written);
      match outcome
      case StepThrew(e) =>
        r := Threw(e);
      case Written(success) =>
        if !success {
          booleanVars[layout.validIdx] := False;
          r := Returned(Error);
        } else {
          booleanVars[layout.validIdx] := True;
          r := Returned(OK);
        }
    }

    /** `Terminate` / `DoTerm`: close and rename the trace, and report `OK`. */
    method Terminate() returns (status: Status)
      requires writer.backendOpen
      modifies writer`backendCalls
      ensures status == OK
      ensures writer.backendCalls == old(writer.backendCalls) + [
        TraceFile.Close,
        TraceFile.Rename(writer.traceTemp,
          TraceFile.Path(writer.traceFolder,
            FinalFileName(writer.startTime, writer.messageType, writer.osiVersion, writer.protobufVersion,
                          writer.numFrames, writer.customName, writer.fileFormat)))]
    {
      var finalPath := writer.Term();
      status := OK;
    }

    /** `Reset`: not started any more, every variable cleared; the writer and the logging settings stay. */
    method Reset() returns (status: Status)
      requires Valid()
      modifies this`simulationStarted, booleanVars, integerVars, realVars, stringVars
      ensures status == OK && !simulationStarted && Cleared()
    {
      simulationStarted := false;
      status := DoInit();
    }

    /*
     * The batch `Get*` / `Set*` calls: each runs the shared loop over its own
     * array, so a reference is checked against that array's bound only.
     */

    method GetReal(vr: seq<nat>, value: array<real>) returns (status: Status)
      requires Valid() && |vr| <= value.Length && value != realVars
      modifies value
      ensures status == BatchStatus(vr, layout.realVars)
      ensures var k := FirstOutOfRange(vr, layout.realVars);
        && (forall i :: 0 <= i < k ==> value[i] == realVars[vr[i]])
        && (forall i :: k <= i < value.Length ==> value[i] == old(value[i]))
    {
      status := GetSlots(realVars, vr, value);
    }

    method GetInteger(vr: seq<nat>, value: array<Int32>) returns (status: Status)
      requires Valid() && |vr| <= value.Length && value != integerVars
      modifies value
      ensures status == BatchStatus(vr, layout.integerVars)
      ensures var k := FirstOutOfRange(vr, layout.integerVars);
        && (forall i :: 0 <= i < k ==> value[i] == integerVars[vr[i]])
        && (forall i :: k <= i < value.Length ==> value[i] == old(value[i]))
    {
      status := GetSlots(integerVars, vr, value);
    }

    method GetBoolean(vr: seq<nat>, value: array<Int32>) returns (status: Status)
      requires Valid() && |vr| <= value.Length && value != booleanVars
      modifies value
      ensures status == BatchStatus(vr, layout.booleanVars)
      ensures var k := FirstOutOfRange(vr, layout.booleanVars);
        && (forall i :: 0 <= i < k ==> value[i] == booleanVars[vr[i]])
        && (forall i :: k <= i < value.Length ==> value[i] == old(value[i]))
    {
      status := GetSlots(booleanVars, vr, value);
    }

    method GetString(vr: seq<nat>, value: array<string>) returns (status: Status)
      requires Valid() && |vr| <= value.Length && value != stringVars
      modifies value
      ensures status == BatchStatus(vr, layout.stringVars)
      ensures var k := FirstOutOfRange(vr, layout.stringVars);
        && (forall i :: 0 <= i < k ==> value[i] == stringVars[vr[i]])
        && (forall i :: k <= i < value.Length ==> value[i] == old(value[i]))
    {
      status := GetSlots(stringVars, vr, value);
    }

    method SetReal(vr: seq<nat>, value: seq<real>) returns (status: Status)
      requires Valid() && |vr| == |value|
      modifies realVars
      ensures status == BatchStatus(vr, layout.realVars)
      ensures var k := FirstOutOfRange(vr, layout.realVars);
        realVars[..] == ApplyWrites(old(realVars[..]), vr[..k], value[..k])
    {
      status := SetSlots(realVars, vr, value);
    }

    method SetInteger(vr: seq<nat>, value: seq<Int32>) returns (status: Status)
      requires Valid() && |vr| == |value|
      modifies integerVars
      ensures status == BatchStatus(vr, layout.integerVars)
      ensures var k := FirstOutOfRange(vr, layout.integerVars);
        integerVars[..] == ApplyWrites(old(integerVars[..]), vr[..k], value[..k])
      ensures booleanVars[..] == old(booleanVars[..])
    {
      status := SetSlots(integerVars, vr, value);
    }

    method SetBoolean(vr: seq<nat>, value: seq<Int32>) returns (status: Status)
      requires Valid() && |vr| == |value|
      modifies booleanVars
      ensures status == BatchStatus(vr, layout.booleanVars)
      ensures var k := FirstOutOfRange(vr, layout.booleanVars);
        booleanVars[..] == ApplyWrites(old(booleanVars[..]), vr[..k], value[..k])
      ensures integerVars[..] == old(integerVars[..])
    {
      status := SetSlots(booleanVars, vr, value);
    }

    method SetString(vr: seq<nat>, value: seq<string>) returns (status: Status)
      requires Valid() && |vr| == |value|
      modifies stringVars
      ensures status == BatchStatus(vr, layout.stringVars)
      ensures var k := FirstOutOfRange(vr, layout.stringVars);
        stringVars[..] == ApplyWrites(old(stringVars[..]), vr[..k], value[..k])
    {
      status := SetSlots(stringVars, vr, value);
    }
  }

  /**
   * The OSMP handoff end to end: the host encodes a buffer address into the
   * `base.lo` / `base.hi` slots and announces its size with one `SetInteger`
   * call; the component then decodes exactly that buffer.
   */
  method HandOff(c: OSMP, address: PointerCodec.Address, size: Int32) returns (status: Status, received: Option<Buffer>)
    requires c.Valid() && address < PointerCodec.AddressBound(c.width)
    modifies c.integerVars
    ensures status == OK
    ensures size > 0 ==> received == Some(Buffer(address, size))
    ensures size <= 0 ==> received == None
  {
    var slots := PointerCodec.Encode(c.width, address);
    var lo, hi, sz := c.layout.baseLoIdx, c.layout.baseHiIdx, c.layout.sizeIdx;
    ghost var before := c.integerVars[..];
    var vr, values := [lo, hi, sz], [slots.lo, slots.hi, size];
    status := c.SetInteger(vr, values);
    assert FirstOutOfRange(vr, c.layout.integerVars) == 3;
    assert vr[..3] == vr && values[..3] == values;
    ApplyWritesLastWins(before, vr, values, 0);
    ApplyWritesLastWins(before, vr, values, 1);
    ApplyWritesLastWins(before, vr, values, 2);
    received := c.SensorDataIn();
  }
}
