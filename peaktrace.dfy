/**
 * Opening a trace by its file name (`PeakTrace(filename)`), in the package version that knows CAN and LIN
 * traces and in the older script that knows CAN traces only, and the script's `strip` clean-up of a record.
 */
module PeakTrace {
  import opened Errors
  import opened Message
  import CanTrace
  import LinTrace
  import Reader

  // ---------------------------------------------------------------- file names

  /** `str.rfind(c)`: the last index of `c` in `s`, or -1. */
  function RFind(s: string, c: char): (i: int)
    ensures -1 <= i < |s|
    ensures i >= 0 ==> s[i] == c
    ensures forall j :: i < j < |s| ==> s[j] != c
  {
    if s == [] then -1
    else if s[|s| - 1] == c then |s| - 1
    else RFind(s[..|s| - 1], c)
  }

  /** Where the last `/`-separated segment of `p` starts. */
  function SegmentStart(p: string): (k: nat)
    ensures k <= |p|
    ensures k == 0 || p[k - 1] == '/'
    ensures forall j :: k <= j < |p| ==> p[j] != '/'
  {
    if p == [] || p[|p| - 1] == '/' then |p| else SegmentStart(p[..|p| - 1])
  }

  /** `PurePosixPath(p).name`: the last component, ignoring trailing slashes and `.` components. */
  function Name(p: string): string
    decreases |p|
  {
    if p == [] then ""
    else if p[|p| - 1] == '/' then Name(p[..|p| - 1])
    else
      var k := SegmentStart(p);
      if p[k..] == "." then Name(p[..k]) else p[k..]
  }

  /** `PurePath.suffix` of a name: from its last dot, unless that dot starts the name or ends it. */
  function Suffix(name: string): (r: string)
    ensures r != "" ==> 2 <= |r| < |name| && r == name[|name| - |r|..] && r[0] == '.' && '.' !in r[1..]
  {
    var i := RFind(name, '.');
    if 0 < i < |name| - 1 then name[i..] else ""
  }

  /** The ASCII part of `str.casefold` for one character. */
  function Lower(c: char): char {
    if 'A' <= c <= 'Z' then (c as int + 32) as char else c
  }

  function Casefold(s: string): string {
    seq(|s|, i requires 0 <= i < |s| => Lower(s[i]))
  }

  /** The one suffix that matters: the text from the last dot of a name on. */
  lemma FinalSuffix(stem: string, ext: string)
    requires stem != "" && ext != "" && '.' !in ext
    ensures Suffix(stem + "." + ext) == "." + ext
  {
    var s := stem + "." + ext;
    var i := RFind(s, '.');
    assert s[|stem|] == '.';
    assert s[|stem|..] == "." + ext;
  }

  /** A name that is only a dot-extension, such as `.trc`, has no suffix. */
  lemma HiddenName(ext: string)
    requires '.' !in ext
    ensures Suffix("." + ext) == ""
  {
    var s := "." + ext;
    assert forall j :: 0 < j < |s| ==> s[j] == ext[j - 1];
  }

  /** A plain file name in a directory is that directory entry's name. */
  lemma NameInDirectory(dir: string, base: string)
    requires base != "" && base != "." && '/' !in base
    ensures Name(dir + "/" + base) == base
  {
    var p := dir + "/" + base;
    assert p[|p| - 1] == base[|base| - 1];
    var k := |dir| + 1;
    assert p[k - 1] == '/';
    assert forall j :: k <= j < |p| ==> p[j] == base[j - k];
    assert SegmentStart(p) == k by { SegmentStartIs(p, k); }
    assert p[k..] == base;
  }

  /** The segment start is the position after the last slash. */
  lemma SegmentStartIs(p: string, k: nat)
    requires k <= |p| && (k == 0 || p[k - 1] == '/') && forall j :: k <= j < |p| ==> p[j] != '/'
    ensures SegmentStart(p) == k
  {
  }

  // ---------------------------------------------------------------- case folding

  lemma RFindFolded(s: string)
    ensures RFind(Casefold(s), '.') == RFind(s, '.')
  {
    var i, i' := RFind(s, '.'), RFind(Casefold(s), '.');
    assert i' <= i by {
      if i' >= 0 {
        assert Lower(s[i']) == '.';
      }
    }
    assert i <= i' by {
      if i >= 0 {
        assert Casefold(s)[i] == '.';
      }
    }
  }

  lemma SegmentStartFolded(p: string)
    ensures SegmentStart(Casefold(p)) == SegmentStart(p)
  {
    SegmentStartIs(Casefold(p), SegmentStart(p));
  }

  lemma FoldSlices(s: string, k: nat)
    requires k <= |s|
    ensures Casefold(s)[..k] == Casefold(s[..k]) && Casefold(s)[k..] == Casefold(s[k..])
  {
  }

  /** Folding the case of a path folds the case of its name. */
  lemma {:induction false} NameFolded(p: string)
    ensures Name(Casefold(p)) == Casefold(Name(p))
    decreases |p|
  {
    var q := Casefold(p);
    if p != [] {
      FoldSlices(p, |p| - 1);
      if p[|p| - 1] == '/' {
        NameFolded(p[..|p| - 1]);
      } else {
        var k := SegmentStart(p);
        SegmentStartFolded(p);
        FoldSlices(p, k);
        if p[k..] == "." {
          NameFolded(p[..k]);
        } else {
          assert q[k..] != ".";
        }
      }
    }
  }

  /** Folding the case of a name folds the case of its suffix. */
  lemma SuffixFolded(name: string)
    ensures Suffix(Casefold(name)) == Casefold(Suffix(name))
  {
    RFindFolded(name);
    var i := RFind(name, '.');
    if 0 < i < |name| - 1 {
      FoldSlices(name, i);
    }
  }

  lemma FoldIdempotent(s: string)
    ensures Casefold(Casefold(s)) == Casefold(s)
  {
  }

  // ---------------------------------------------------------------- PeakTrace(filename)

  /** The case-folded suffix the package dispatches on. */
  function Extension(filename: string): string {
    Casefold(Suffix(Name(filename)))
  }

  /** A CAN trace's version and grammar as a dialect of the reader. */
  function AsCan(r: Result<(string, CanTrace.Version)>): Result<(string, Reader.Dialect)> {
    match r
    case Success((v, d)) => Success((v, Reader.Can(d)))
    case Failure(e) => Failure(e)
  }

  /** A LIN trace's version and grammar as a dialect of the reader. */
  function AsLin(r: Result<(string, LinTrace.Version)>): Result<(string, Reader.Dialect)> {
    match r
    case Success((v, d)) => Success((v, Reader.Lin(d)))
    case Failure(e) => Failure(e)
  }

  /**
   * `PeakTrace(filename)` of the package: `.trc` opens a CAN trace and `.ltrc` a LIN trace, whatever their
   * case; any other suffix fails with the folded suffix. `firstLine` is the file's first line.
   */
  function Open(filename: string, firstLine: string): (r: Result<(string, Reader.Dialect)>)
    ensures Extension(filename) == ".trc" ==> r == AsCan(CanTrace.Open(firstLine))
    ensures Extension(filename) == ".ltrc" ==> r == AsLin(LinTrace.Open(firstLine))
    ensures r.Success? && r.value.1.Can? ==> Extension(filename) == ".trc"
    ensures r.Success? && r.value.1.Lin? ==>
      Extension(filename) == ".ltrc" && LinTrace.Open(firstLine) == Success((r.value.0, r.value.1.lin))
    ensures Extension(filename) !in {".trc", ".ltrc"} ==>
      r == Failure(ExtensionNotSupported(Extension(filename))) &&
      Errors.Message(r.error) == "File extension " + Extension(filename) + " not supported"
  {
    var suffix := Extension(filename);
    if suffix == ".trc" then AsCan(CanTrace.Open(firstLine))
    else if suffix == ".ltrc" then AsLin(LinTrace.Open(firstLine))
    else Failure(ExtensionNotSupported(suffix))
  }

  /** Dispatch ignores case: a file name and its case-folded form open the same way. */
  lemma OpenIgnoresCase(filename: string, firstLine: string)
    ensures Open(Casefold(filename), firstLine) == Open(filename, firstLine)
  {
    NameFolded(filename);
    SuffixFolded(Name(filename));
    FoldIdempotent(Suffix(Name(filename)));
  }

  /** Only the last extension of a plain file name decides: `stem.<any>.ltrc` opens as LIN when its header does. */
  lemma OpenByFinalSuffix(dir: string, stem: string, ext: string, firstLine: string)
    requires stem != "" && ext != "" && '.' !in ext && '/' !in stem + "." + ext
    ensures Open(dir + "/" + stem + "." + ext, firstLine) == Open(stem + "." + ext, firstLine)
    ensures Extension(stem + "." + ext) == Casefold("." + ext)
  {
    var base := stem + "." + ext;
    assert base != ".";
    assert dir + "/" + stem + "." + ext == dir + "/" + base;
    NameInDirectory(dir, base);
    NameInDirectory("", base);
    assert Name(base) == base by {
      assert SegmentStart(base) == 0 by { SegmentStartIs(base, 0); }
    }
    FinalSuffix(stem, ext);
  }

  /** `PeakTrace(filename)` of the CAN-only script: `.trc` in any case opens a CAN trace; the error reports the suffix unfolded. */
  function OpenTrc(filename: string, firstLine: string): (r: Result<(string, CanTrace.Version)>)
    ensures Extension(filename) == ".trc" ==> r == CanTrace.Open(firstLine)
    ensures Extension(filename) != ".trc" ==>
      r == Failure(ExtensionNotSupported(Suffix(Name(filename)))) &&
      Errors.Message(r.error) == "File extension " + Suffix(Name(filename)) + " not supported"
  {
    var suffix := Suffix(Name(filename));
    if Casefold(suffix) == ".trc" then CanTrace.Open(firstLine) else Failure(ExtensionNotSupported(suffix))
  }

  /** The two dispatchers agree on CAN traces; the script refuses `.ltrc`, which the package opens as LIN. */
  lemma OpenTrcAgrees(filename: string, firstLine: string)
    ensures Extension(filename) == ".trc" ==> AsCan(OpenTrc(filename, firstLine)) == Open(filename, firstLine)
    ensures Extension(filename) == ".ltrc" ==> OpenTrc(filename, firstLine).Failure?
    ensures OpenTrc(filename, firstLine).Success? <==> Open(filename, firstLine).Success? && Open(filename, firstLine).value.1.Can?
  {
  }

  // ---------------------------------------------------------------- strip

  /** Python truthiness of a value, with `'-'` counted as empty: what `strip` keeps. */
  predicate Kept(v: Value) {
    match v
    case Str(s) => s != "" && s != "-"
    case Lst(l) => l != []
  }

  /** `s.rstrip(')')`: `s` without its trailing closing parentheses. */
  function TrimParens(s: string): (r: string)
    ensures r <= s
    ensures r == [] || r[|r| - 1] != ')'
    ensures forall i :: |r| <= i < |s| ==> s[i] == ')'
  {
    if s != [] && s[|s| - 1] == ')' then TrimParens(s[..|s| - 1]) else s
  }

  /**
   * `strip(msg)`: the entries with a kept value, with the closing parentheses trimmed from `#`. Trimming a
   * list-valued `#` raises `AttributeError`; a missing `#` is passed over.
   */
  function Strip(msg: Record): Result<Record> {
    var kept := map k | k in msg && Kept(msg[k]) :: msg[k];
    if "#" in kept then
      match kept["#"]
      case Str(s) => Success(kept["#" := Str(TrimParens(s))])
      case Lst(_) => Failure(NotAString("#"))
    else Success(kept)
  }

  /** What `strip` keeps and changes: exactly the kept keys, every value but `#` unchanged, `#` trimmed. */
  lemma StripSpec(msg: Record)
    ensures Strip(msg).Failure? <==> "#" in msg && Kept(msg["#"]) && msg["#"].Lst?
    ensures Strip(msg).Failure? ==> Strip(msg).error == NotAString("#")
    ensures Strip(msg).Success? ==>
      var r := Strip(msg).value;
      && (forall k :: k in r <==> k in msg && Kept(msg[k]))
      && (forall k :: k in r && k != "#" ==> r[k] == msg[k])
      && ("#" in r ==> msg["#"].Str? && r["#"] == Str(TrimParens(msg["#"].s)))
  {
  }

  /** Trimming twice trims nothing more. */
  lemma TrimParensIdempotent(s: string)
    ensures TrimParens(TrimParens(s)) == TrimParens(s)
  {
  }

  /** The record number of a CAN 1.x line, `12)`, is stripped to `12`. */
  lemma StripNumber(msg: Record)
    requires "#" in msg && msg["#"] == Str("12)")
    ensures Strip(msg).Success? && Strip(msg).value["#"] == Str("12")
  {
    assert "12)"[..2] == "12";
  }

  /** Every record a CAN grammar parses can be stripped: its `#`, when present, is a string. */
  lemma StripParsed(d: CanTrace.Version, t: seq<string>)
    requires CanTrace.Parse(d, t).Success?
    ensures Strip(CanTrace.Parse(d, t).value).Success?
  {
    CanTrace.ParsedLists(d, t);
  }
}
