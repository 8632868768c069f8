/** The `FileFormat` enum of the trace file writer and its file-name extension map. */
module FileFormats {

  /** `enum class FileFormat : u_int8_t`, in declaration order. */
  datatype FileFormat = Unknown | MCAP | OSI | TXTH

  /** The enum's underlying `u_int8_t` value: `kUnknown = 0`, the others follow in order. */
  function Code(f: FileFormat): (c: nat)
    ensures c < 256
    ensures c == 0 <==> f == Unknown
  {
    match f
    case Unknown => 0
    case MCAP => 1
    case OSI => 2
    case TXTH => 3
  }

  /** Distinct enumerators have distinct underlying values. */
  lemma CodeInjective(f: FileFormat, g: FileFormat)
    ensures Code(f) == Code(g) ==> f == g
  {
  }

  /** The name of a known format without its dot, as the `.mcap`, `.osi` and `.txth` extensions spell it. */
  function FormatName(f: FileFormat): (s: string)
    ensures |s| >= 3
    ensures forall i :: 0 <= i < |s| ==> 'a' <= s[i] <= 'z'
  {
    match f
    case Unknown => "unknown"
    case MCAP => "mcap"
    case OSI => "osi"
    case TXTH => "txth"
  }

  /**
   * `kFileNameMessageTypeMap`: the extension each format gives a trace file name.
   * The map is total over the enum and every extension is a dot followed by the format's name.
   */
  function Extension(f: FileFormat): (e: string)
    ensures |e| >= 4 && e[0] == '.'
  {
    match f
    case Unknown => ".unknown"
    case MCAP => ".mcap"
    case OSI => ".osi"
    case TXTH => ".txth"
  }

  /** Every extension is a dot followed by the format's name. */
  lemma ExtensionIsDotName(f: FileFormat)
    ensures Extension(f) == "." + FormatName(f)
  {
  }

  /** Distinct formats have distinct names. */
  lemma FormatNameInjective(f: FileFormat, g: FileFormat)
    ensures FormatName(f) == FormatName(g) ==> f == g
  {
    if f != g {
      // the four names already differ in their first letter
      assert FormatName(f)[0] != FormatName(g)[0];
    }
  }

  /** The extension map is injective: the extension of a trace file names its format. */
  lemma ExtensionInjective(f: FileFormat, g: FileFormat)
    ensures Extension(f) == Extension(g) ==> f == g
  {
    if Extension(f) == Extension(g) {
      ExtensionIsDotName(f);
      ExtensionIsDotName(g);
      assert FormatName(f) == Extension(f)[1..];
      assert FormatName(g) == Extension(g)[1..];
      FormatNameInjective(f, g);
    }
  }
}
