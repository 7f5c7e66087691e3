/** The dialect a trace file was opened with and `__iter__`, the loop that turns its body lines into records. */
module Reader {
  import opened Errors
  import opened Text
  import opened Message
  import CanTrace
  import LinTrace

  /** The grammar chosen when the trace was opened: one of the CAN or one of the LIN registries. */
  datatype Dialect = Can(can: CanTrace.Version) | Lin(lin: LinTrace.Version)

  function Parse(d: Dialect, t: seq<string>): Result<Record> {
    match d
    case Can(v) => CanTrace.Parse(v, t)
    case Lin(_) => LinTrace.Parse(t)
  }

  /** `is_msg` of the dialect; for CAN 1.x the corrected rule, see `CanTrace.IsMsg10`. */
  function IsMsg(d: Dialect, msg: Record): Result<bool> {
    match d
    case Can(v) => CanTrace.IsMsg(v, msg)
    case Lin(_) => Success(LinTrace.IsMsg(msg))
  }

  /** The field names in the order a dialect's records consume the line's tokens. */
  function ReadOrder(d: Dialect): seq<string> {
    match d
    case Can(v) => CanTrace.ReadOrder(v)
    case Lin(_) => LinTrace.ReadOrder
  }

  /** The line filter of `__iter__`: lines starting with `;` are comments and lines without tokens are blank; the others give their tokens. */
  function Tokens(line: string): (r: Option<seq<string>>)
    ensures r.Some? ==> r.value != [] && AreTokens(r.value)
  {
    if ";" <= line then None
    else
      var items := Split(line);
      if items == [] then None else Some(items)
  }

  /** The token lists of the lines `__iter__` passes on to `parse`, in order. */
  function DataLines(lines: seq<string>): (r: seq<seq<string>>)
    ensures |r| <= |lines|
    ensures forall i :: 0 <= i < |r| ==> r[i] != [] && AreTokens(r[i])
  {
    if lines == [] then []
    else
      var rest := DataLines(lines[1..]);
      match Tokens(lines[0])
      case None => rest
      case Some(t) => [t] + rest
  }

  /** A grammar's `parse`, as a value. */
  type Parser = seq<string> -> Result<Record>

  function ParserOf(d: Dialect): Parser {
    t => Parse(d, t)
  }

  /**
   * What an exception raised by `parse` becomes once it leaves the generator `__iter__`: since
   * Python 3.7 (PEP 479) a `StopIteration` escaping a generator's body is re-raised as
   * `RuntimeError('generator raised StopIteration')`; every other exception passes through unchanged.
   */
  function Escaped(e: Error): (r: Error)
    ensures r != Exhausted
    ensures r == GeneratorStopped <==> e == Exhausted || e == GeneratorStopped
    ensures e != Exhausted ==> r == e
  {
    if e == Exhausted then GeneratorStopped else e
  }

  /** The records `parse` yields for `ts`, in order, up to the first line it raises on, and what that line's error becomes outside the generator. */
  function ParseAll(parse: Parser, ts: seq<seq<string>>): (seq<Record>, Option<Error>) {
    if ts == [] then ([], None)
    else
      match parse(ts[0])
      case Failure(e) => ([], Some(Escaped(e)))
      case Success(r) =>
        var rest := ParseAll(parse, ts[1..]);
        ([r] + rest.0, rest.1)
  }

  /** What iterating over the trace gives: the records of its data lines, stopping at the first raised error. */
  function Run(d: Dialect, lines: seq<string>): (seq<Record>, Option<Error>) {
    ParseAll(ParserOf(d), DataLines(lines))
  }

  /** `for msg in trace`: the loop of `__iter__` over the body lines, collecting what it yields until `parse` raises. */
  method Iterate(parse: Parser, lines: seq<string>) returns (records: seq<Record>, error: Option<Error>)
    ensures (records, error) == ParseAll(parse, DataLines(lines))
  {
    records, error := [], None;
    var i := 0;
    while i < |lines| && error.None?
      invariant 0 <= i <= |lines|
      invariant ParseAll(parse, DataLines(lines[..i])) == (records, error)
      invariant error.Some? ==> ParseAll(parse, DataLines(lines)) == (records, error)
    {
      NextLine(lines, i);
      var items := Tokens(lines[i]);
      if items.Some? {
        ParseAllAppend(parse, DataLines(lines[..i]), [items.value]);
        ParseAllOne(parse, items.value);
        match parse(items.value)
        case Success(msg) =>
          records := records + [msg];
        case Failure(e) =>
          assert records + [] == records;
          error := Some(Escaped(e));
          PrefixFails(parse, lines, i + 1);
      } else {
        assert DataLines(lines[..i]) + [] == DataLines(lines[..i]);
      }
      i := i + 1;
    }
    if error.None? {
      assert lines[..i] == lines;
    }
  }

  /** One more line adds its tokens, if it has any, to the data lines. */
  lemma NextLine(lines: seq<string>, i: nat)
    requires i < |lines|
    ensures DataLines(lines[..i + 1]) ==
      DataLines(lines[..i]) + (if Tokens(lines[i]).Some? then [Tokens(lines[i]).value] else [])
  {
    DataLinesAppend(lines[..i], [lines[i]]);
    assert lines[..i + 1] == lines[..i] + [lines[i]];
    assert [lines[i]][1..] == [];
  }

  lemma ParseAllOne(parse: Parser, t: seq<string>)
    ensures ParseAll(parse, [t]) == if parse(t).Success? then ([parse(t).value], None) else ([], Some(Escaped(parse(t).error)))
  {
    assert [t][1..] == [];
    assert ParseAll(parse, []) == ([], None);
    if parse(t).Success? {
      assert [parse(t).value] + [] == [parse(t).value];
    }
  }

  lemma {:induction false} DataLinesAppend(a: seq<string>, b: seq<string>)
    ensures DataLines(a + b) == DataLines(a) + DataLines(b)
  {
    if a == [] {
      assert a + b == b;
    } else {
      assert (a + b)[1..] == a[1..] + b;
      DataLinesAppend(a[1..], b);
    }
  }

  /** Once `parse` has raised, later lines change nothing; before that, the records of two stretches of lines follow each other. */
  lemma {:induction false} ParseAllAppend(parse: Parser, a: seq<seq<string>>, b: seq<seq<string>>)
    ensures ParseAll(parse, a).1.Some? ==> ParseAll(parse, a + b) == ParseAll(parse, a)
    ensures ParseAll(parse, a).1.None? ==>
      ParseAll(parse, a + b) == (ParseAll(parse, a).0 + ParseAll(parse, b).0, ParseAll(parse, b).1)
  {
    if a == [] {
      assert a + b == b;
      assert [] + ParseAll(parse, b).0 == ParseAll(parse, b).0;
    } else {
      assert (a + b)[0] == a[0] && (a + b)[1..] == a[1..] + b;
      ParseAllAppend(parse, a[1..], b);
      if parse(a[0]).Success? {
        assert [parse(a[0]).value] + ParseAll(parse, a[1..]).0 + ParseAll(parse, b).0
          == [parse(a[0]).value] + (ParseAll(parse, a[1..]).0 + ParseAll(parse, b).0);
      }
    }
  }

  lemma PrefixFails(parse: Parser, lines: seq<string>, i: nat)
    requires i <= |lines| && ParseAll(parse, DataLines(lines[..i])).1.Some?
    ensures ParseAll(parse, DataLines(lines)) == ParseAll(parse, DataLines(lines[..i]))
  {
    assert lines == lines[..i] + lines[i..];
    DataLinesAppend(lines[..i], lines[i..]);
    FailedPrefix(parse, DataLines(lines[..i]), DataLines(lines[i..]), DataLines(lines));
  }

  lemma FailedPrefix(parse: Parser, a: seq<seq<string>>, b: seq<seq<string>>, whole: seq<seq<string>>)
    requires whole == a + b && ParseAll(parse, a).1.Some?
    ensures ParseAll(parse, whole) == ParseAll(parse, a)
  {
    ParseAllAppend(parse, a, b);
  }

  /**
   * The records of a run are the parses of the data lines, in order: all of them when no
   * error is raised; otherwise those before the first line `parse` raises on, whose error it is,
   * after the generator's conversion of `StopIteration`, which therefore never reaches the caller.
   */
  lemma {:induction false} ParseAllSpec(parse: Parser, ts: seq<seq<string>>)
    ensures var (records, error) := ParseAll(parse, ts);
      && (forall k :: 0 <= k < |records| ==> k < |ts| && parse(ts[k]) == Success(records[k]))
      && (error.None? ==> |records| == |ts|)
      && (error.Some? ==> |records| < |ts| && parse(ts[|records|]).Failure? && error.value == Escaped(parse(ts[|records|]).error))
      && (error.Some? ==> error.value != Exhausted)
  {
    if ts != [] {
      ParseAllSpec(parse, ts[1..]);
      var rest := ParseAll(parse, ts[1..]);
      if parse(ts[0]).Success? {
        var records := ParseAll(parse, ts).0;
        forall k | 0 <= k < |records| ensures k < |ts| && parse(ts[k]) == Success(records[k]) {
          if k > 0 {
            assert records[k] == rest.0[k - 1] && ts[k] == ts[1..][k - 1];
          }
        }
        if rest.1.Some? {
          assert ts[|records|] == ts[1..][|rest.0|];
        }
      }
    }
  }

  /**
   * A data line that runs out of tokens inside `parse` ends the run with a `RuntimeError`, not a
   * `StopIteration`: here a 1.0 frame without a token after `LENGTH` ...
   */
  lemma FrameRunsOut(t: seq<string>, ts: seq<seq<string>>)
    requires 3 <= |t| < 5 && t[2] != CanTrace.ErrorId
    ensures ParseAll(ParserOf(Can(CanTrace.V10)), [t] + ts) == ([], Some(GeneratorStopped))
  {
    assert ([t] + ts)[0] == t;
    CanTrace.Parse10Accepts(t);
    assert ParserOf(Can(CanTrace.V10))(t) == Failure(Exhausted);
  }

  /** ... and a 2.0 status or error line without its `DIRECTION` token. */
  lemma StatusRunsOut(t: seq<string>, ts: seq<seq<string>>)
    requires |t| == 3 && t[2] in CanTrace.InfoTypes
    ensures ParseAll(ParserOf(Can(CanTrace.V20)), [t] + ts) == ([], Some(GeneratorStopped))
  {
    assert ([t] + ts)[0] == t;
    CanTrace.Parse20Accepts(t);
    assert ParserOf(Can(CanTrace.V20))(t) == Failure(Exhausted);
  }

  /** A CAN line the grammar accepts parses, and the dialect's `is_msg` is `CanTrace.Classify` of its tokens, with the corrected 1.x rule. */
  lemma ParsedCanIsMsg(v: CanTrace.Version, t: seq<string>)
    requires CanTrace.Accepted(v, t)
    ensures CanTrace.Parse(v, t).Success? && IsMsg(Can(v), CanTrace.Parse(v, t).value) == Success(CanTrace.Classify(v, t))
  {
    CanTrace.ParseAccepts(v, t);
    CanTrace.ParsedIsMsg(v, t);
  }

  /** On a parsed LIN line, the dialect's `is_msg` holds exactly when no tokens follow `TYPE`. */
  lemma ParsedLinIsMsg(v: LinTrace.Version, t: seq<string>)
    requires AreTokens(t) && LinTrace.Parse(t).Success?
    ensures LinTrace.Accepted(t) && IsMsg(Lin(v), LinTrace.Parse(t).value) == Success(|t| <= LinTrace.DataEnd(t) + 2)
  {
    LinTrace.ParsedIsMsg(t);
  }

  /** Comment and blank lines are invisible to the run. */
  lemma SkippedLine(d: Dialect, line: string, lines: seq<string>)
    requires ";" <= line || Split(line) == []
    ensures Run(d, [line] + lines) == Run(d, lines)
  {
    assert ([line] + lines)[1..] == lines;
  }

  /** Only a `;` in the first column makes a comment: a line indented before its `;` is a data line. */
  lemma IndentedComment(pad: string, rest: string)
    requires pad != [] && IsSpace(pad[0])
    ensures var line := pad + ";" + rest;
      Tokens(line) == Some(Split(line)) && Split(line) != []
  {
    var line := pad + ";" + rest;
    SplitEmpty(line);
    assert line[|pad|] == ';';
  }

  /**
   * With a CAN grammar from 1.1 on or a LIN grammar, a run loses no token: each record's
   * fields, read in the dialect's order, are the tokens of its line.
   */
  lemma RunLossless(d: Dialect, lines: seq<string>)
    requires d != Can(CanTrace.V10)
    ensures var records := Run(d, lines).0;
      forall k :: 0 <= k < |records| ==> k < |DataLines(lines)| && Fields(records[k], ReadOrder(d)) == DataLines(lines)[k]
  {
    var ts := DataLines(lines);
    var records := Run(d, lines).0;
    ParseAllSpec(ParserOf(d), ts);
    forall k | 0 <= k < |records| ensures k < |ts| && Fields(records[k], ReadOrder(d)) == ts[k] {
      match d
      case Can(v) => CanTrace.ParseLossless(v, ts[k]);
      case Lin(_) => LinTrace.ParseLossless(ts[k]);
    }
  }
}
