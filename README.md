# OSI trace file writer FMU, modelled in Dafny

The component is an FMI 2.0 co-simulation slave. It follows the OSI Sensor
Model Packaging (OSMP) convention: each step it receives a serialized OSI
message, whose address arrives split over the `base.hi` / `base.lo` integer
variables and whose length arrives in `size`. It appends the message to a
trace file. When the component terminates, it renames the file so that the
name records the OSI version of the first message, the declared protobuf
version and the number of frames.

The model has three parts.

- **Pointer handoff codec** (`PointerCodec`). Encoding an address into two
  signed 32-bit slots and decoding it back, for 64-bit and 32-bit builds.
- **The OSMP component** (`Osmp.OSMP`). A class holding:
  - the four variable arrays and their batch `Get*`/`Set*` loops
    (`VariableTable`);
  - the initialisation that clears them;
  - the logging-category update;
  - the resolution of the file-format parameter (`FormatTag`);
  - the step that hands the buffer to the writer and sets the valid flag;
  - terminate and reset.
- **The trace file writer** (`TraceFile.TraceFileWriter`). A class with the
  writer's fields, and:
  - the working and final file names (`TraceFileNames`, `FileFormats`,
    `DecimalText`);
  - the frame counter and the message-type guard;
  - the two-phase write strategy, as the explicit `Phase`: unbound, awaiting
    the first message, streaming.

The backends, protobuf parsing, the clock and the file system are foreign.
- Each call into a backend or the file system is recorded as a
  `BackendCall` in the writer's `backendCalls` log.
- What the foreign code returns is a parameter: the clock text, the version
  triple a parsed message carries, and a backend write's `bool`.
- The writer's own three exceptions become explicit outcomes (`Outcome`,
  `StepOutcome` or `Completion`): the unknown file format, the unknown
  message type, and the `bad_function_call` of an empty `std::function`.
  Exceptions thrown inside the backend library or by the file system are
  not modelled (see "Left out").

Points of the code that the model keeps as they are:
- `DoCalc` passes `size` to `Step` unchecked (src/OSMP.cpp:193-194). A zero
  or negative size still counts a frame and writes. The `size > 0` guard
  exists only in `GetFmiSensorDataIn` (src/OSMP.cpp:104), which nothing
  calls.
- The results of `ParseFromArray` (src/TraceFileWriter.cpp:93, 102, 111,
  121) are ignored, so no step fails because a message is malformed, and
  every call is counted.
- `DoExitInitializationMode` calls `Init` outside any `try`
  (src/OSMP.cpp:186), so the writer's exceptions reach the host instead of
  becoming status codes.
- The header declares `Init` without `omit_timestamp`
  (src/TraceFileWriter.h:27); the model follows the definition in
  src/TraceFileWriter.cpp:21, which has it.

## Model

| member | source | states |
|---|---|---|
| `PointerCodec.Encode` | src/OSMP.cpp:79-100 | Decoding the slots gives the address back, including 0. `lo` holds bits 0-31 and, on 64-bit, `hi` holds bits 32-63, both read as two's-complement `int`s. On a 32-bit build `hi` is 0 and `lo` holds the address. |
| `PointerCodec.Decode` | src/OSMP.cpp:57-77 | The address lies within the build's width. Its low 32 bits are `lo`'s bits, and on 64-bit its high 32 bits are `hi`'s. |
| `PointerCodec.ToSigned32` | src/OSMP.cpp:60-70 | Storing a 32-bit word in an `int` and reading it back as unsigned loses nothing. |
| `PointerCodec.ToUnsigned32` | src/OSMP.cpp:60-70 | Reading an `int`'s bits as unsigned gives a 32-bit word that is congruent to the value modulo 2^32: the same bit pattern. |
| `PointerCodec.EncodeDecode64` | src/OSMP.cpp:57-100 | On a 64-bit build, decoding then encoding returns exactly the two slots. |
| `PointerCodec.EncodeDecode32` | src/OSMP.cpp:72-73 | On a 32-bit build, decoding ignores `hi`, and re-encoding gives `hi = 0` with the same `lo`. |
| `PointerCodec.NullAddress` | src/OSMP.cpp:79-100 | The null address is carried as two zero slots, and two zero slots decode to null. |
| `VariableTable.FirstOutOfRange` | src/OSMP.cpp:368-378 | The returned index is the first reference at or above the bound: every reference before it is in range. |
| `VariableTable.BatchStatus` | src/OSMP.cpp:365-380 | A batch call returns OK exactly when every reference is below the bound, and Error otherwise. |
| `VariableTable.ApplyWrites` | src/OSMP.cpp:433-448 | Writing each value in turn leaves the array's size unchanged. |
| `VariableTable.ApplyWritesUntouched` | src/OSMP.cpp:433-448 | A slot that no reference names keeps its value. |
| `VariableTable.ApplyWritesLastWins` | src/OSMP.cpp:433-448 | For a slot named several times, the last value written wins. |
| `VariableTable.GetSlots` | src/OSMP.cpp:365-380 | The loop's status is the batch status. The entries before the first bad reference are copied, and every entry from it on is untouched. |
| `VariableTable.SetSlots` | src/OSMP.cpp:433-448 | The loop's status is the batch status. The array becomes the writes of the entries before the first bad reference, applied in order, and nothing else. |
| `VariableTable.Fill` | src/OSMP.cpp:121-143 | Each range-for loop of `DoInit` sets every slot of its array. |
| `FileFormats.Code` | src/TraceFileWriter.h:16-22 | `kUnknown` is 0, the other enumerators are non-zero, and all fit in `u_int8_t`. |
| `FileFormats.CodeInjective` | src/TraceFileWriter.h:16-22 | Distinct enumerators have distinct values. |
| `FileFormats.FormatName` | src/TraceFileWriter.h:51-54 | Each format's name is at least three lower-case letters. |
| `FileFormats.Extension` | src/TraceFileWriter.h:51-54 | The extension map is total, and every extension starts with '.'. |
| `FileFormats.ExtensionIsDotName` | src/TraceFileWriter.h:51-54 | Each extension is '.' followed by the format's name: `.unknown`, `.mcap`, `.osi`, `.txth`. |
| `FileFormats.FormatNameInjective` | src/TraceFileWriter.h:51-54 | Distinct formats have distinct names. |
| `FileFormats.ExtensionInjective` | src/TraceFileWriter.h:51-54 | The extension map is injective. |
| `FormatTag.ToLower` | src/OSMP.cpp:170 | `tolower` in the C locale never yields an upper-case letter, and yields a lower-case letter exactly when it is given a letter of either case. |
| `FormatTag.Lowercase` | src/OSMP.cpp:170 | The transform keeps the length, leaves no upper-case letter, and has a letter exactly where the input has one. |
| `FormatTag.LowercaseIdempotent` | src/OSMP.cpp:170 | Lowercasing a second time changes nothing. |
| `FormatTag.NormalisedTag` | src/OSMP.cpp:163-176 | The normalised tag has no upper-case letter. An empty tag becomes "osi"; a non-empty one keeps its length unless it starts with '.', which alone is dropped. |
| `FormatTag.LookupFormat` | src/OSMP.cpp:179-181 | The map accepts exactly "osi", "mcap" and "txth", and never yields `kUnknown`. |
| `FormatTag.ResolveFileFormat` | src/OSMP.cpp:163-185 | The in-place normalisation agrees with the reference: default to "osi", lowercase, drop one leading '.', look up. |
| `FormatTag.LowercaseOfLower` | src/OSMP.cpp:170 | Lowercasing a lower-case name changes nothing. |
| `FormatTag.LowercaseDot` | src/OSMP.cpp:170-176 | Only '.' lowercases to '.', and lowercasing commutes with dropping the first character. |
| `FormatTag.ResolvedFormatIff` | src/OSMP.cpp:163-185 | A format is selected exactly when it is known and either the tag is empty (for OSI), or the tag lowercases to its name or to '.' followed by its name. |
| `FormatTag.ResolvedByExtension` | src/OSMP.cpp:163-185 | Every known format is selected by its own file extension. |
| `FormatTag.ResolutionAcceptsOsi` | src/OSMP.cpp:163-185 | "", "OSI", ".osi" and ".Osi" all select OSI. |
| `FormatTag.ResolutionAcceptsOthers` | src/OSMP.cpp:163-185 | "MCAP" selects MCAP and ".TxtH" selects TXTH. |
| `FormatTag.ResolutionRejects` | src/OSMP.cpp:163-185 | "..osi", "." and "xyz" select no format. |
| `DecimalText.DigitChar` | src/TraceFileWriter.cpp:175 | A digit value becomes the character that denotes it. |
| `DecimalText.NatToDecimal` | src/TraceFileWriter.cpp:175 | `std::to_string` gives a non-empty string of digits with no leading zero. |
| `DecimalText.DecimalRoundTrip` | src/TraceFileWriter.cpp:175 | Reading the digits back gives the number. |
| `DecimalText.NatToDecimalInjective` | src/TraceFileWriter.cpp:175 | Distinct frame counts have distinct decimal texts. |
| `TraceFileNames.StartTime` | src/TraceFileWriter.cpp:47-51 | The start time has the `%Y%m%dT%H%M%SZ` shape (eight digits, 'T', six digits, 'Z') whenever the clock text does, and always when timestamps are omitted. |
| `TraceFileNames.VersionTag` | src/TraceFileWriter.cpp:123 | `osi_version_` is a string of at least three digits. |
| `TraceFileNames.VersionTagAmbiguous` | src/TraceFileWriter.cpp:123 | Without separators the tag loses information: versions 3.10.0 and 31.0.0 both give "3100". |
| `TraceFileNames.DottedVersionInjective` | src/TraceFileWriter.cpp:132 | The dotted version of the channel metadata determines the version triple. |
| `TraceFileNames.WorkingNameParts` | src/TraceFileWriter.cpp:53-59 | The working name starts with `<start>_<type>` and ends with the format's extension. |
| `TraceFileNames.WorkingNameRecordsCustomName` | src/TraceFileWriter.cpp:53-59 | Working names that agree in every other field agree in the custom name. |
| `TraceFileNames.FinalDiffersFromWorking` | src/TraceFileWriter.cpp:175-182 | The final name (built with `FinalHead`/`FinalFileName`) is longer than the working name by three separators, the two versions and the frame count, so the rename always changes the name. |
| `TraceFileNames.CustomSuffix` | src/TraceFileWriter.cpp:54-57 | The `_<custom>` part is empty exactly when the custom name is empty. |
| `TraceFileNames.FinalExtendsWorking` | src/TraceFileWriter.cpp:53-61 | The working and the final name share the `<start>_<type>` head and the `[_<custom>]<ext>` tail. Between them the final name inserts `_<osi>_<protobuf>_<frames>`. |
| `TraceFileNames.FinalNameRecordsFrames` | src/TraceFileWriter.cpp:175-180 | Final names that agree in every other field agree in the frame count. |
| `TraceFileNames.ThreeFrameName` | src/TraceFileWriter.cpp:175-180 | A three-frame untimestamped `sd` `.osi` trace with protobuf 3.5.0 is named `00000000T000000Z_sd_<osi>_3.5.0_3.osi`. |
| `TraceFileNames.ThreeFrameWorkingName` | src/TraceFileWriter.cpp:47-61 | That trace is written to `00000000T000000Z_sd.osi` while open. |
| `TraceFileNames.EmptyTraceName` | src/TraceFileWriter.cpp:175-180 | A frameless `gt` MCAP trace named `run` with protobuf 4.0 gets `<clock>_gt__4.0_0_run.mcap`. |
| `TraceFileNames.FinalNameWithoutMessages` | src/TraceFileWriter.cpp:175-180 | With no message seen, the OSI version is empty: the name shows `<type>__<protobuf>` and frame count 0. |
| `TraceFile.MessageKindOf` | src/TraceFileWriter.cpp:64-82 | A message kind is found exactly for "sv", "sd" and "gt", and its tag is the type string. |
| `TraceFile.MessageKindOfTag` | src/TraceFileWriter.cpp:64-82 | Every kind is selected by its own tag. |
| `TraceFile.ChannelMetadata` | src/TraceFileWriter.cpp:128-132 | The channel metadata has exactly the description and OSI-version keys. |
| `TraceFile.ChannelMetadataRecordsVersion` | src/TraceFileWriter.cpp:128-132 | Unlike the file name's tag, the metadata tells every two versions apart. |
| `TraceFile.OpenCalls` | src/TraceFileWriter.cpp:143-163 | Setting up a known format opens its backend on the working path first. Only MCAP adds a second call, for the required file metadata. |
| `TraceFile.StepSpec` | src/TraceFileWriter.cpp:34-140 | A step counts one frame. It throws exactly when no strategy is bound; otherwise it returns the write result and ends streaming. |
| `TraceFile.StepKeepsConfiguration` | src/TraceFileWriter.cpp:34-140 | A step keeps the configuration, the working path and the backend, and only appends to the call log. |
| `TraceFile.Run` | src/TraceFileWriter.cpp:34-38 | Any sequence of steps keeps the configuration and only appends to the call log. |
| `TraceFile.ChannelCalls` | src/TraceFileWriter.cpp:125-134 | The first message adds one channel for MCAP and none for OSI or TXTH. |
| `TraceFile.WriteTopic` | src/TraceFileWriter.cpp:87-113 | Only the MCAP write names a topic. |
| `TraceFile.Writes` | src/TraceFileWriter.cpp:91-113 | A sequence of consecutive-strategy steps makes one write per step, in order. |
| `TraceFile.RunOutcomes` | src/TraceFileWriter.cpp:34-38 | Each call returns one result. |
| `TraceFile.RunCountsFrames` | src/TraceFileWriter.cpp:34-38 | After N calls the frame counter has grown by exactly N, whatever the writes return. |
| `TraceFile.RunStreaming` | src/TraceFileWriter.cpp:136-139 | Under the consecutive strategy a run only counts and writes. The OSI version, the strategy and every other field stay. |
| `TraceFile.RunFromFirst` | src/TraceFileWriter.cpp:119-140 | From the first-message strategy, a run sets the OSI version from the first message only, adds the channel once before any write, writes every message, and ends streaming. |
| `TraceFile.ChannelBeforeMessages` | src/TraceFileWriter.cpp:125-136 | For MCAP, the calls a first run adds are one `AddChannel` followed only by writes. For OSI and TXTH, they are writes only. |
| `TraceFile.RunUnbound` | src/TraceFileWriter.cpp:34-38 | With no strategy bound, every call counts a frame and throws `bad_function_call`; nothing else changes. |
| `TraceFile.RunOutcomesWritten` | src/TraceFileWriter.cpp:91-140 | Once a strategy is bound, every call, the first included, returns the backend's write result. |
| `TraceFile.TraceFileWriter.constructor` | src/TraceFileWriter.h:31-44 | A fresh writer has format `kUnknown`, 0 frames, empty strings and no strategy or backend. |
| `TraceFile.TraceFileWriter.Init` | src/TraceFileWriter.cpp:21-32 | Records the configuration and names the working file. On an unknown format it throws before opening anything. Otherwise it opens the backend, then throws on an unknown message type or binds the first-message strategy. The frame count and OSI version stay. |
| `TraceFile.TraceFileWriter.Step` | src/TraceFileWriter.cpp:34-38 | Agrees with `StepSpec`: counts first, then runs the bound strategy. Once bound, it returns the write result and ends streaming. The OSI version changes only on the first call. |
| `TraceFile.TraceFileWriter.WriteFirst` | src/TraceFileWriter.cpp:119-140 | Records the concatenated version, adds the MCAP channel, writes, and installs the consecutive strategy. |
| `TraceFile.TraceFileWriter.WriteConsecutive` | src/TraceFileWriter.cpp:87-113 | Makes one write to the backend bound at setup, with the topic only for MCAP, and returns its result. |
| `TraceFile.TraceFileWriter.SetFileName` | src/TraceFileWriter.cpp:40-62 | The start time is the zero timestamp when timestamps are omitted and the clock text otherwise. The working path is `<folder>/<start>_<type>[_<custom>]<ext>`. |
| `TraceFile.TraceFileWriter.SetupWriter` | src/TraceFileWriter.cpp:143-168 | Opens the format's backend on the working path (MCAP also adds the required file metadata), or throws on `kUnknown` without opening. |
| `TraceFile.TraceFileWriter.SetupDeserializedWriterFunction` | src/TraceFileWriter.cpp:64-82 | Binds the first-message strategy for "sv", "sd" or "gt", or throws and leaves the strategy as it was. |
| `TraceFile.TraceFileWriter.Term` | src/TraceFileWriter.cpp:170-183 | Closes the backend, then renames the working file to `<start>_<type>_<osi>_<protobuf>_<frames>[_<custom>]<ext>` under the folder. |
| `TraceFile.ThreeFrameTrace` | src/TraceFileWriter.cpp:21-183 | Three `sd` steps into an untimestamped `.osi` trace declared 3.5.0 write to `00000000T000000Z_sd.osi`, which is renamed to `..._sd_<first version>_3.5.0_3.osi`. |
| `TraceFile.EmptyTrace` | src/TraceFileWriter.cpp:170-183 | Terminating before any step names the file `<clock>_gt__4.0_0_run.mcap`. |
| `Osmp.OSMP.constructor` | src/OSMP.cpp:216-236 | Logging is on as the host asked, all three categories are selected, the simulation is not started, and the writer is fresh. |
| `Osmp.OSMP.Instantiate` | src/OSMP.cpp:271-317 | Instantiation always succeeds, with every variable cleared. |
| `Osmp.OSMP.DoInit` | src/OSMP.cpp:118-148 | Returns OK with all booleans false, integers 0, reals 0.0 and strings empty, and the omit-timestamp flag false. |
| `Osmp.OSMP.SetDebugLogging` | src/OSMP.cpp:238-269 | Returns OK and sets logging. The category set stays within {FMI, OSMP, OSI}. A non-null, non-empty list selects exactly the recognised names in it; otherwise all three are selected. |
| `Osmp.OSMP.SetupExperiment` | src/OSMP.cpp:150-153 | Always OK, whatever tolerance and time window the host gives. |
| `Osmp.OSMP.EnterInitializationMode` | src/OSMP.cpp:155-158 | Always OK. |
| `Osmp.OSMP.ExitInitializationMode` | src/OSMP.cpp:160-336 | The wrapper (line 334) marks the simulation started before `DoExitInitializationMode` (lines 160-189) runs, so the flag is set on every path. The frame count and OSI version stay. An unresolvable format returns Error and leaves the writer untouched. Otherwise the writer gets the parameters and the known format, its working path `<folder>/<start>_<type>[_<custom>]<ext>`, and the backend's open calls, and the call returns OK exactly for a valid message type; it throws otherwise and leaves the strategy. |
| `Osmp.OSMP.InputAddress` | src/OSMP.cpp:193 | `DoCalc` decodes an address within the build's width, whatever the size. When the size is positive, it is the address `GetFmiSensorDataIn` announces. |
| `Osmp.OSMP.SensorDataIn` | src/OSMP.cpp:102-112 | A buffer is announced exactly when the size slot is positive, with that size. |
| `Osmp.OSMP.DoStep` | src/OSMP.cpp:191-202 | Steps the writer with the decoded buffer and the unchecked size. A true write gives OK with valid 1 and a false one gives Error with valid 0. A throw leaves the flag. Once a strategy is bound: OK iff the write succeeds. |
| `Osmp.OSMP.Terminate` | src/OSMP.cpp:204-208 | Returns OK after the writer closes and renames the trace to its final name. |
| `Osmp.OSMP.Reset` | src/OSMP.cpp:350-357 | Returns OK, marks the simulation not started and clears every variable. The writer and the logging settings stay. |
| `Osmp.OSMP.GetReal` | src/OSMP.cpp:365-380 | OK iff every reference is in range. Values are read up to the first bad reference, and nothing from it on is touched. |
| `Osmp.OSMP.GetInteger` | src/OSMP.cpp:382-397 | As `GetReal`, for the integer array. |
| `Osmp.OSMP.GetBoolean` | src/OSMP.cpp:399-414 | As `GetReal`, for the boolean array. |
| `Osmp.OSMP.GetString` | src/OSMP.cpp:416-431 | As `GetReal`, for the string array. |
| `Osmp.OSMP.SetReal` | src/OSMP.cpp:433-448 | OK iff every reference is in range. Exactly the writes before the first bad reference are applied, in order; no other array changes. |
| `Osmp.OSMP.SetInteger` | src/OSMP.cpp:450-465 | As `SetReal`, for the integer array; the boolean array, of the same C type, is unchanged. |
| `Osmp.OSMP.SetBoolean` | src/OSMP.cpp:467-482 | As `SetReal`, for the boolean array; the integer array is unchanged. |
| `Osmp.OSMP.SetString` | src/OSMP.cpp:484-499 | As `SetReal`, for the string array. |
| `Osmp.HandOff` | src/OSMP.cpp:57-112 | A host that stores an encoded address and a size with one `SetInteger` call has that exact buffer decoded, when the size is positive. |

## Left out

- Logging: `NormalLog`, `FmiVerboseLog`, the private log file and the debug-break macros. This is formatting and file output with no effect on the modelled state.
- Osmp.OSMP.SetDebugLogging: the verbose log line it prints is not modelled.
- Protobuf parsing and message descriptors are foreign. A message is reduced to its version triple; `ParseFromArray`'s result is ignored by the code anyway.
- Backends, the clock and the file system are foreign:
  - the MCAP, single-channel binary and TXTH writers are calls recorded in `backendCalls`;
  - `time`/`localtime`/`strftime` become the `clock` parameter;
  - `std::filesystem::rename` is the recorded `Rename` call.
- TraceFile.TraceFileWriter.Step: a backend write is not checked or simulated. Its result is the `written` parameter, and reading the buffer's memory is not modelled.
- OSMP.h is not part of this model. The `FMI_*_VARS` sizes, the `FMI_*_IDX` slots and the `Fmi*()`/`SetFmi*()` accessor helpers become the `Layout` parameter. Each accessor is assumed to read or write its one slot, with a boolean read as true when non-zero.
- Real values are Dafny `real`s, not IEEE doubles. The communication-point arguments of `DoStep` are ignored by the code and left out.
- TraceFile.TraceFileWriter.Step: `num_frames_` is an `int`, which the model keeps as an unbounded `nat`, so overflow after 2^31 - 1 frames is not modelled.
- Osmp.OSMP.Terminate: a failing close or rename is assumed not to happen. `std::filesystem::rename` (src/TraceFileWriter.cpp:182) is the overload that throws, and nothing catches it. So a missing working file or a second `Term` makes the code throw, whereas the model returns OK. The same holds for TraceFile.TraceFileWriter.Term.
- Exceptions thrown inside the backend library (`Open`, `AddFileMetadata`, `AddChannel`, `WriteMessage`, `Close`) are not modelled; only the writer's own three exceptions are.
- TraceFile.TraceFileWriter.Term: requires an open backend, since the code dereferences an empty `writer_` otherwise. The same holds for `Osmp.OSMP.Terminate`, so terminating after a failed or missing initialisation is not covered.
- A re-`Init` throws after the backend has been replaced; a stale closure then still holds a pointer to the old backend. The model keeps the old `Phase` and its target format, but not the dangling pointer.
- FormatTag.ToLower: `::tolower` (src/OSMP.cpp:170) follows the process-wide `LC_CTYPE`, which the host program sets, not the component. The model fixes it to the "C" locale, where only 'A'..'Z' change. Under another locale (in ISO-8859-9, `tolower('I')` is 0xFD) a tag such as "OSI" can fail to resolve, so the resolution lemmas hold only in the "C" locale. The model also reads the `std::string`'s bytes as Dafny characters. A byte of 0x80 or more, which a signed `char` passes to `::tolower` as a negative `int` (undefined behaviour), is left unchanged by the model.
- Osmp.OSMP.ExitInitializationMode: the `std::cerr` message for an unknown format is not modelled.
- The `extern "C"` forwarding wrappers (src/OSMP.cpp:505-633) only cast and forward. The unsupported FMI functions (src/OSMP.cpp:638-717) return constants. `FreeInstance`/`DoFree` do nothing, and `delete` is memory management.
- Osmp.OSMP.GetString: strings are copied as values, whereas the code hands out `c_str()` pointers into the component's own strings.
