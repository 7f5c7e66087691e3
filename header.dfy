/** The version tag of a trace file's first line: the regex `(?<=^;\$FILEVERSION=)\S+`, shared by the CAN and LIN readers. */
module Header {
  import opened Errors
  import opened Text

  const Tag: string := ";$FILEVERSION="

  /** The match of `(?<=^;\$FILEVERSION=)\S+` in the first line `s`, if any. */
  function TaggedVersion(s: string): Option<string> {
    if Tag <= s && |s| > |Tag| && !IsSpace(s[|Tag|]) then Some(Word(s[|Tag|..])) else None
  }

  /** A found version is a token placed right after the tag and followed by whitespace or the end of the line. */
  lemma TaggedVersionSound(s: string)
    requires TaggedVersion(s).Some?
    ensures var v := TaggedVersion(s).value;
      && IsToken(v) && Tag + v <= s
      && (|s| == |Tag| + |v| || IsSpace(s[|Tag| + |v|]))
  {
    var v := TaggedVersion(s).value;
    var w := s[|Tag|..];
    assert v <= w;
    assert (Tag + v) == s[..|Tag| + |v|];
    if |s| > |Tag| + |v| {
      assert s[|Tag| + |v|] == w[|v|];
    }
  }

  /** Conversely, whenever the line is the tag, a token and then whitespace or nothing, that token is the version: the match is maximal. */
  lemma TaggedVersionComplete(s: string, v: string, rest: string)
    requires s == Tag + v + rest && IsToken(v) && (rest == [] || IsSpace(rest[0]))
    ensures TaggedVersion(s) == Some(v)
  {
    assert Tag <= s by { assert s[..|Tag|] == Tag; }
    assert s[|Tag|..] == v + rest;
    assert s[|Tag|] == v[0];
    WordOfToken(v, rest);
  }

  /** No version is found exactly when the line does not start with the tag or the tag is followed by whitespace or nothing. */
  lemma TaggedVersionAbsent(s: string)
    ensures TaggedVersion(s).None? <==> !(Tag <= s) || |s| == |Tag| || IsSpace(s[|Tag|])
  {
  }
}
