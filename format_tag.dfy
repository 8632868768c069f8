/**
 * How `ExitInitializationMode` turns the host's file-format parameter into a
 * `FileFormat`: an empty tag means "osi", the tag is lowercased with the C
 * locale's `tolower`, one leading '.' is dropped, and the result must be a key
 * of the map {"osi" -> OSI, "mcap" -> MCAP, "txth" -> TXTH}.
 */
module FormatTag {
  import opened FileFormats
  import opened Optional

  /** `::tolower` in the "C" locale: only 'A'..'Z' change. */
  function ToLower(c: char): (d: char)
    ensures !('A' <= d <= 'Z')
    ensures ('a' <= d <= 'z') <==> ('a' <= c <= 'z' || 'A' <= c <= 'Z')
  {
    if 'A' <= c <= 'Z' then (c as int + 32) as char else c
  }

  /** `std::transform(..., ::tolower)` over a whole string. */
  function Lowercase(s: string): (r: string)
    ensures |r| == |s|
    ensures forall i :: 0 <= i < |r| ==> !('A' <= r[i] <= 'Z')
    ensures forall i :: 0 <= i < |r| ==> (('a' <= r[i] <= 'z') <==> ('a' <= s[i] <= 'z' || 'A' <= s[i] <= 'Z'))
  {
    seq(|s|, i requires 0 <= i < |s| => ToLower(s[i]))
  }

  /**
   * The tag after the three normalisation steps: no upper-case letters are
   * left, an empty tag becomes "osi", and a non-empty one loses at most its
   * leading dot.
   */
  function NormalisedTag(tag: string): (r: string)
    ensures forall i :: 0 <= i < |r| ==> !('A' <= r[i] <= 'Z')
    ensures tag == "" ==> r == "osi"
    ensures tag != "" ==> (|r| == |tag| && tag[0] != '.') || (|r| == |tag| - 1 && tag[0] == '.')
  {
    var named := if tag == "" then "osi" else tag;
    var lowered := Lowercase(named);
    if |lowered| > 0 && lowered[0] == '.' then lowered[1..] else lowered
  }

  /** `FORMAT_MAP.find`: the three accepted keys. */
  function LookupFormat(key: string): (r: Option<FileFormat>)
    ensures r.Some? ==> r.value != Unknown && key == FormatName(r.value)
    ensures key == "osi" ==> r == Some(OSI)
    ensures key == "mcap" ==> r == Some(MCAP)
    ensures key == "txth" ==> r == Some(TXTH)
  {
    if key == "osi" then Some(OSI)
    else if key == "mcap" then Some(MCAP)
    else if key == "txth" then Some(TXTH)
    else None
  }

  /** The format the host's parameter selects, or `None` when it selects none. */
  function ResolvedFormat(tag: string): Option<FileFormat> {
    LookupFormat(NormalisedTag(tag))
  }

  /**
   * The normalisation as the source performs it, on a local copy of the
   * parameter: default, lowercase in place, erase a leading '.', look up.
   */
  method ResolveFileFormat(parameter: string) returns (format: Option<FileFormat>)
    ensures format == ResolvedFormat(parameter)
  {
    var s := parameter;
    if |s| == 0 {
      s := "osi";
    }
    ghost var named := s;
    var i := 0;
    while i < |s|
      invariant |s| == |named| && 0 <= i <= |s|
      invariant forall k :: 0 <= k < i ==> s[k] == ToLower(named[k])
      invariant forall k :: i <= k < |s| ==> s[k] == named[k]
    {
      s := s[i := ToLower(s[i])];
      i := i + 1;
    }
    assert s == Lowercase(named);
    if |s| > 0 && s[0] == '.' {
      s := s[1..];
    }
    if s == "osi" {
      format := Some(OSI);
    } else if s == "mcap" {
      format := Some(MCAP);
    } else if s == "txth" {
      format := Some(TXTH);
    } else {
      format := None;
    }
  }

  /** Lowercasing leaves a string of lower-case letters alone. */
  lemma LowercaseOfLower(s: string)
    requires forall i :: 0 <= i < |s| ==> 'a' <= s[i] <= 'z'
    ensures Lowercase(s) == s
  {
  }

  /** Lowercasing twice is lowercasing once. */
  lemma LowercaseIdempotent(s: string)
    ensures Lowercase(Lowercase(s)) == Lowercase(s)
  {
  }

  /** Only a '.' lowercases to a '.'. */
  lemma LowercaseDot(s: string)
    requires |s| > 0
    ensures Lowercase(s)[0] == '.' <==> s[0] == '.'
    ensures Lowercase(s)[1..] == Lowercase(s[1..])
  {
  }

  /**
   * Reference definition of the accepted tags: a known format `f` is selected
   * exactly by the empty tag (for OSI), and by any tag that lowercases to its
   * name or to its name behind a single dot.
   */
  lemma {:induction false} ResolvedFormatIff(tag: string, f: FileFormat)
    ensures ResolvedFormat(tag) == Some(f) <==>
      f != Unknown &&
      ((tag == "" && f == OSI) || Lowercase(tag) == FormatName(f) || Lowercase(tag) == "." + FormatName(f))
  {
    LowercaseOfLower("osi");
    LowercaseOfLower(FormatName(f));
    if tag != "" {
      LowercaseDot(tag);
      var lowered := Lowercase(tag);
      if lowered[0] == '.' {
        assert lowered == "." + lowered[1..];
        assert lowered != FormatName(f);
      } else if lowered == "." + FormatName(f) {
        assert false;
      }
    }
  }

  /** Every format except `Unknown` can be selected by its own file extension. */
  lemma ResolvedByExtension(f: FileFormat)
    requires f != Unknown
    ensures ResolvedFormat(Extension(f)) == Some(f)
  {
    ExtensionIsDotName(f);
    ResolvedFormatIff(Extension(f), f);
    LowercaseOfLower(FormatName(f));
    LowercaseDot(Extension(f));
    assert Lowercase(Extension(f)) == "." + FormatName(f);
  }

  /** Case and one leading dot do not matter, and an empty tag means OSI. */
  lemma ResolutionAcceptsOsi()
    ensures ResolvedFormat("") == Some(OSI)
    ensures ResolvedFormat("OSI") == Some(OSI)
    ensures ResolvedFormat(".osi") == Some(OSI)
    ensures ResolvedFormat(".Osi") == Some(OSI)
  {
    LowercaseOfLower("osi");
    assert Lowercase("OSI") == "osi";
    assert Lowercase(".osi") == ".osi";
    assert Lowercase(".Osi") == ".osi";
  }

  /** The same holds for the other two formats. */
  lemma ResolutionAcceptsOthers()
    ensures ResolvedFormat("MCAP") == Some(MCAP)
    ensures ResolvedFormat(".TxtH") == Some(TXTH)
  {
    assert Lowercase("MCAP") == "mcap";
    assert Lowercase(".TxtH") == ".txth";
  }

  /** A second dot, a bare dot or an unknown name is refused. */
  lemma ResolutionRejects()
    ensures ResolvedFormat("..osi") == None
    ensures ResolvedFormat(".") == None
    ensures ResolvedFormat("xyz") == None
  {
    assert Lowercase("..osi") == "..osi";
    assert Lowercase(".") == ".";
    assert Lowercase("xyz") == "xyz";
  }
}
