/**
 * The names the trace file writer gives its file: the working name used
 * while the trace is open, and the final name, which also records the OSI
 * version seen in the first message, the declared protobuf version and the
 * number of frames.
 */
module TraceFileNames {
  import opened FileFormats
  import opened DecimalText

  /** The start time written when timestamps are suppressed. */
  const ZeroTimestamp := "00000000T000000Z"

  /** The shape of `strftime`'s `%Y%m%dT%H%M%SZ`: eight digits, 'T', six digits, 'Z'. */
  predicate TimestampShaped(s: string) {
    && |s| == 16 && s[8] == 'T' && s[15] == 'Z'
    && (forall i :: 0 <= i < 8 ==> IsDigit(s[i]))
    && (forall i :: 9 <= i < 15 ==> IsDigit(s[i]))
  }

  /**
   * `start_time_`: the zero timestamp when `omit_timestamp` is set, the
   * clock's `%Y%m%dT%H%M%SZ` text otherwise. Either way it has the shape of
   * a timestamp whenever the clock text has it, and a suppressed one has
   * that shape whatever the clock says.
   */
  function StartTime(omitTimestamp: bool, clock: string): (r: string)
    ensures TimestampShaped(clock) ==> TimestampShaped(r)
    ensures omitTimestamp ==> TimestampShaped(r)
  {
    if omitTimestamp then ZeroTimestamp else clock
  }

  /** The OSI version triple a message carries (`version_major`, `version_minor`, `version_patch`, each `uint32`). */
  datatype Version = Version(major: nat, minor: nat, patch: nat)

  /** `osi_version_`: the three numbers concatenated, without separators. */
  function VersionTag(v: Version): (r: string)
    ensures |r| >= 3 && AllDigits(r)
  {
    NatToDecimal(v.major) + NatToDecimal(v.minor) + NatToDecimal(v.patch)
  }

  /** Without separators two different versions can share a tag: 3.10.0 and 31.0.0 both give "3100". */
  lemma VersionTagAmbiguous()
    ensures Version(3, 10, 0) != Version(31, 0, 0)
    ensures VersionTag(Version(3, 10, 0)) == VersionTag(Version(31, 0, 0)) == "3100"
  {
    assert NatToDecimal(3) == "3" && NatToDecimal(0) == "0";
    assert NatToDecimal(10) == NatToDecimal(1) + [DigitChar(0)] == "10";
    assert NatToDecimal(31) == NatToDecimal(3) + [DigitChar(1)] == "31";
  }

  /** The dotted version the MCAP channel metadata carries. */
  function DottedVersion(v: Version): string
  {
    NatToDecimal(v.major) + "." + NatToDecimal(v.minor) + "." + NatToDecimal(v.patch)
  }

  /** After a string of digits, the first '.' is the one that follows them. */
  lemma FirstDot(a: string, b: string)
    requires AllDigits(a)
    ensures (a + "." + b)[|a|] == '.'
    ensures forall i :: 0 <= i < |a| ==> (a + "." + b)[i] != '.'
  {
  }

  /** A digit string followed by a '.' can be split at that dot in only one way. */
  lemma SplitAtDot(a: string, b: string, c: string, d: string)
    requires AllDigits(a) && AllDigits(c)
    requires a + "." + b == c + "." + d
    ensures a == c && b == d
  {
    var s := a + "." + b;
    FirstDot(a, b);
    FirstDot(c, d);
    assert |a| == |c|;
    assert a == s[..|a|] && c == (c + "." + d)[..|c|];
    assert b == s[|a| + 1..] && d == (c + "." + d)[|c| + 1..];
  }

  /** The dotted form keeps the three numbers apart: it determines the version. */
  lemma DottedVersionInjective(v: Version, w: Version)
    requires DottedVersion(v) == DottedVersion(w)
    ensures v == w
  {
    var a, b, c := NatToDecimal(v.major), NatToDecimal(v.minor), NatToDecimal(v.patch);
    var x, y, z := NatToDecimal(w.major), NatToDecimal(w.minor), NatToDecimal(w.patch);
    assert DottedVersion(v) == a + "." + (b + "." + c) by {
      AppendAssoc(a + "." + b, ".", c);
      AppendAssoc(a + ".", b, "." + c);
      AppendAssoc(a, ".", b + "." + c);
    }
    assert DottedVersion(w) == x + "." + (y + "." + z) by {
      AppendAssoc(x + "." + y, ".", z);
      AppendAssoc(x + ".", y, "." + z);
      AppendAssoc(x, ".", y + "." + z);
    }
    SplitAtDot(a, b + "." + c, x, y + "." + z);
    SplitAtDot(b, c, y, z);
    NatToDecimalInjective(v.major, w.major);
    NatToDecimalInjective(v.minor, w.minor);
    NatToDecimalInjective(v.patch, w.patch);
  }

  /** The optional `_<custom name>` part: present only for a non-empty custom name. */
  function CustomSuffix(customName: string): (s: string)
    ensures customName == "" <==> s == ""
  {
    if customName == "" then "" else "_" + customName
  }

  /** The file name while the trace is open: `<start>_<type>[_<custom>]<ext>`. */
  function WorkingFileName(startTime: string, messageType: string, customName: string, format: FileFormat): string {
    startTime + "_" + messageType + CustomSuffix(customName) + Extension(format)
  }

  /** The working name starts with `<start>_<type>` and ends with the format's extension. */
  lemma WorkingNameParts(startTime: string, messageType: string, customName: string, format: FileFormat)
    ensures var r := WorkingFileName(startTime, messageType, customName, format);
      && |r| >= |startTime| + 1 + |messageType| + |Extension(format)|
      && r[..|startTime| + 1 + |messageType|] == startTime + "_" + messageType
      && r[|r| - |Extension(format)|..] == Extension(format)
  {
  }

  /** Two working names that agree in every other field agree in the custom name. */
  lemma WorkingNameRecordsCustomName(startTime: string, messageType: string, c: string, d: string, format: FileFormat)
    requires WorkingFileName(startTime, messageType, c, format) == WorkingFileName(startTime, messageType, d, format)
    ensures c == d
  {
    CancelAround(startTime + "_" + messageType, CustomSuffix(c), CustomSuffix(d), Extension(format));
    if c != "" && d != "" {
      assert c == CustomSuffix(c)[1..] && d == CustomSuffix(d)[1..];
    }
  }

  /** The part of the final name before the frame count: `<start>_<type>_<osi>_<protobuf>_`. */
  function FinalHead(startTime: string, messageType: string, osiVersion: string, protobufVersion: string): string {
    startTime + "_" + messageType + "_" + osiVersion + "_" + protobufVersion + "_"
  }

  /** The name the trace gets on termination: `<start>_<type>_<osi>_<protobuf>_<frames>[_<custom>]<ext>`. */
  function FinalFileName(startTime: string, messageType: string, osiVersion: string, protobufVersion: string,
                         numFrames: nat, customName: string, format: FileFormat): string {
    FinalHead(startTime, messageType, osiVersion, protobufVersion) + NatToDecimal(numFrames)
      + CustomSuffix(customName) + Extension(format)
  }

  /**
   * The final name extends the working name: both start with `<start>_<type>`
   * and end with the custom suffix and the extension; the final name inserts
   * the provenance fields between them.
   */
  lemma FinalExtendsWorking(startTime: string, messageType: string, osiVersion: string, protobufVersion: string,
                            numFrames: nat, customName: string, format: FileFormat)
    ensures var stem := startTime + "_" + messageType;
      var tail := CustomSuffix(customName) + Extension(format);
      && WorkingFileName(startTime, messageType, customName, format) == stem + tail
      && FinalFileName(startTime, messageType, osiVersion, protobufVersion, numFrames, customName, format)
         == stem + ("_" + osiVersion + "_" + protobufVersion + "_" + NatToDecimal(numFrames)) + tail
  {
    var stem := startTime + "_" + messageType;
    var cs, ext := CustomSuffix(customName), Extension(format);
    AppendAssoc(stem, cs, ext);
    var n := NatToDecimal(numFrames);
    var mid := "_" + osiVersion + "_" + protobufVersion + "_" + n;
    assert FinalHead(startTime, messageType, osiVersion, protobufVersion) + n == stem + mid;
    AppendAssoc(stem + mid, cs, ext);
  }

  /**
   * The final name is never the working name: it is longer by the three
   * separators, the two versions and the frame count, so the rename on
   * termination always moves the file.
   */
  lemma FinalDiffersFromWorking(startTime: string, messageType: string, osiVersion: string, protobufVersion: string,
                                numFrames: nat, customName: string, format: FileFormat)
    ensures |FinalFileName(startTime, messageType, osiVersion, protobufVersion, numFrames, customName, format)|
         == |WorkingFileName(startTime, messageType, customName, format)|
            + 3 + |osiVersion| + |protobufVersion| + |NatToDecimal(numFrames)|
    ensures FinalFileName(startTime, messageType, osiVersion, protobufVersion, numFrames, customName, format)
         != WorkingFileName(startTime, messageType, customName, format)
  {
    FinalExtendsWorking(startTime, messageType, osiVersion, protobufVersion, numFrames, customName, format);
  }

  /** Equal strings that share a prefix and a suffix share what lies between. */
  lemma CancelAround(head: string, x: string, y: string, tail: string)
    requires head + x + tail == head + y + tail
    ensures x == y
  {
    var s := head + x + tail;
    assert |x| == |y|;
    assert x == s[|head|..|head| + |x|];
    assert y == (head + y + tail)[|head|..|head| + |y|];
  }

  /** Two final names that agree in every other field agree in the frame count: the count is recorded faithfully. */
  lemma FinalNameRecordsFrames(startTime: string, messageType: string, osiVersion: string, protobufVersion: string,
                               m: nat, n: nat, customName: string, format: FileFormat)
    requires FinalFileName(startTime, messageType, osiVersion, protobufVersion, m, customName, format)
          == FinalFileName(startTime, messageType, osiVersion, protobufVersion, n, customName, format)
    ensures m == n
  {
    var head := FinalHead(startTime, messageType, osiVersion, protobufVersion);
    var tail := CustomSuffix(customName) + Extension(format);
    AppendAssoc(head + NatToDecimal(m), CustomSuffix(customName), Extension(format));
    AppendAssoc(head + NatToDecimal(n), CustomSuffix(customName), Extension(format));
    CancelAround(head, NatToDecimal(m), NatToDecimal(n), tail);
    NatToDecimalInjective(m, n);
  }

  /** Concatenation regroups freely; stated once so that proofs can name the step. */
  lemma AppendAssoc<T>(a: seq<T>, b: seq<T>, c: seq<T>)
    ensures a + b + c == a + (b + c)
  {
  }

  /** The name of a three-frame `sd` trace in `.osi` with declared version 3.5.0 and no timestamp. */
  lemma ThreeFrameName(osiVersion: string)
    ensures FinalFileName(ZeroTimestamp, "sd", osiVersion, "3.5.0", 3, "", OSI)
         == "00000000T000000Z_sd_" + osiVersion + "_3.5.0_3.osi"
  {
    var b := "00000000T000000Z_sd_" + osiVersion;
    assert ZeroTimestamp + "_" + "sd" + "_" == "00000000T000000Z_sd_";
    assert FinalHead(ZeroTimestamp, "sd", osiVersion, "3.5.0") == b + "_" + "3.5.0" + "_";
    assert NatToDecimal(3) == "3";
    assert b + "_" + "3.5.0" + "_" + "3" + "" + ".osi" == b + "_3.5.0_3.osi";
  }

  /** The working name of that trace. */
  lemma ThreeFrameWorkingName()
    ensures WorkingFileName(ZeroTimestamp, "sd", "", OSI) == "00000000T000000Z_sd.osi"
  {
    assert ZeroTimestamp + "_" + "sd" == "00000000T000000Z_sd";
  }

  /** The final name of a timestamped `gt` trace in MCAP with custom name `run`, declared version 4.0 and no frames. */
  lemma EmptyTraceName(clock: string)
    ensures FinalFileName(clock, "gt", "", "4.0", 0, "run", MCAP) == clock + "_gt__4.0_0_run.mcap"
  {
    assert FinalHead(clock, "gt", "", "4.0") == clock + "_" + "gt" + "_" + "" + "_" + "4.0" + "_";
    assert NatToDecimal(0) == "0";
    assert clock + "_" + "gt" + "_" + "" + "_" + "4.0" + "_" + "0" + ("_" + "run") + ".mcap"
        == clock + "_gt__4.0_0_run.mcap";
  }

  /** With no message seen, the OSI version is empty and the name shows `<type>__<protobuf>`. */
  lemma FinalNameWithoutMessages(startTime: string, messageType: string, protobufVersion: string,
                                 customName: string, format: FileFormat)
    ensures FinalFileName(startTime, messageType, "", protobufVersion, 0, customName, format)
         == startTime + "_" + messageType + "__" + protobufVersion + "_0" + CustomSuffix(customName) + Extension(format)
  {
  }
}
