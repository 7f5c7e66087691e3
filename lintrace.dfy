/**
 * The LIN trace dialect (PEAK LIN trace file versions 1.0 and 1.1): version detection, the
 * registry of grammars, `parse` and `is_msg`.
 */
module LinTrace {
  import opened Errors
  import opened Text
  import opened Message
  import Header

  /** The two registered LIN grammars; 1.1 inherits everything from 1.0. */
  datatype Version = V10 | V11

  /** `LinTrace.fileversion` on the first line: the tagged version, with no fallback for legacy headers. */
  function FileVersion(s: string): (r: Result<string>)
    ensures r.Success? <==> Header.TaggedVersion(s).Some?
    ensures r.Failure? ==> r.error == VersionNotFound && Errors.Message(r.error) == "File version not found"
  {
    match Header.TaggedVersion(s)
    case Some(v) => Success(v)
    case None => Failure(VersionNotFound)
  }

  function VersionName(d: Version): string {
    match d
    case V10 => "1.0"
    case V11 => "1.1"
  }

  /** The lookup `cls._parser[version]` in `LinTrace.__new__`. */
  function Lookup(v: string): (r: Result<Version>)
    ensures r.Success? <==> v == "1.0" || v == "1.1"
    ensures r.Success? ==> VersionName(r.value) == v
    ensures r.Failure? ==> r.error == UnsupportedVersion(v) && Errors.Message(r.error) == "Version " + v + " not supported"
  {
    if v == "1.0" then Success(V10)
    else if v == "1.1" then Success(V11)
    else Failure(UnsupportedVersion(v))
  }

  /** `LinTrace(filename)`: the version from the first line and the grammar registered for it. */
  function Open(firstLine: string): Result<(string, Version)> {
    var v :- FileVersion(firstLine);
    var d :- Lookup(v);
    Success((v, d))
  }

  /** A LIN trace opens exactly when its first line carries a registered tag; a legacy `;###` header is not recognised. */
  lemma OpenSpec(s: string)
    ensures Open(s).Success? <==> Header.TaggedVersion(s).Some? && Header.TaggedVersion(s).value in {"1.0", "1.1"}
    ensures Open(s).Success? ==> VersionName(Open(s).value.1) == Open(s).value.0
    ensures Header.TaggedVersion(s).None? ==> Open(s) == Failure(VersionNotFound)
    ensures Header.TaggedVersion(s).Some? && Header.TaggedVersion(s).value !in {"1.0", "1.1"} ==>
      Open(s) == Failure(UnsupportedVersion(Header.TaggedVersion(s).value))
  {
  }

  // ---------------------------------------------------------------- int()

  /**
   * The digits of a base-10 literal as `int()` accepts them: at least one digit, with single
   * underscores allowed between digits.
   */
  predicate DigitGroups(b: string) {
    && b != [] && IsDigit(b[0]) && IsDigit(b[|b| - 1])
    && (forall i :: 0 <= i < |b| ==> IsDigit(b[i]) || b[i] == '_')
    && (forall i :: 0 < i < |b| && b[i - 1] == '_' ==> IsDigit(b[i]))
  }

  /** The literal with its underscores removed. */
  function Unscored(b: string): (r: string)
    ensures (forall i :: 0 <= i < |b| ==> IsDigit(b[i]) || b[i] == '_') ==> AllDigits(r)
  {
    if b == [] then [] else (if b[0] == '_' then [] else [b[0]]) + Unscored(b[1..])
  }

  /**
   * The default `sys.get_int_max_str_digits()`: `int()` refuses a decimal literal of more digits,
   * not counting the sign and the underscores.
   */
  const MaxStrDigits: nat := 4300

  /** `int(s)` on a token: an optional sign, then digit groups, of at most `MaxStrDigits` digits. */
  function ParseInt(s: string): Result<int> {
    var b := if s != [] && (s[0] == '+' || s[0] == '-') then s[1..] else s;
    if !DigitGroups(b) || |Unscored(b)| > MaxStrDigits then Failure(InvalidLiteral(s))
    else
      var v: int := DecValue(Unscored(b));
      Success(if s[0] == '-' then -v else v)
  }

  /** `str(n)`. */
  function IntText(n: int): string {
    if n < 0 then "-" + Decimal(-n) else Decimal(n)
  }

  lemma {:induction false} UnscoredDigits(b: string)
    requires AllDigits(b)
    ensures Unscored(b) == b
  {
    if b != [] {
      assert AllDigits(b[1..]) by {
        forall i | 0 <= i < |b[1..]| ensures IsDigit(b[1..][i]) { assert b[1..][i] == b[i + 1]; }
      }
      UnscoredDigits(b[1..]);
    }
  }

  lemma DigitsAreGroups(d: string)
    requires d != [] && AllDigits(d)
    ensures DigitGroups(d)
  {
  }

  /** `int(str(n)) == n` while `str(n)` has at most `MaxStrDigits` digits; beyond that `int()` refuses it. */
  lemma ParseIntText(n: int)
    ensures |Decimal(if n < 0 then -n else n)| <= MaxStrDigits ==> ParseInt(IntText(n)) == Success(n)
    ensures |Decimal(if n < 0 then -n else n)| > MaxStrDigits ==> ParseInt(IntText(n)) == Failure(InvalidLiteral(IntText(n)))
  {
    var m: nat := if n < 0 then -n else n;
    var d := Decimal(m);
    var s := IntText(n);
    UnscoredDigits(d);
    DigitsAreGroups(d);
    if n < 0 {
      assert s[1..] == d && s[0] == '-';
    } else {
      assert s == d && IsDigit(s[0]);
    }
    var b := if s != [] && (s[0] == '+' || s[0] == '-') then s[1..] else s;
    assert b == d;
    if |d| <= MaxStrDigits {
      DecimalValue(m);
      var v: int := DecValue(d);
      assert ParseInt(s) == Success(if s[0] == '-' then -v else v);
    }
  }

  /** `int()` rejects every token with a character other than a digit, an underscore or a leading sign. */
  lemma ParseIntChars(s: string)
    requires ParseInt(s).Success?
    ensures forall i :: 0 <= i < |s| ==> IsDigit(s[i]) || s[i] == '_' || (i == 0 && (s[i] == '+' || s[i] == '-'))
  {
    var b := if s != [] && (s[0] == '+' || s[0] == '-') then s[1..] else s;
    assert DigitGroups(b);
    if b != s {
      forall i | 1 <= i < |s| ensures IsDigit(s[i]) || s[i] == '_' { assert s[i] == b[i - 1]; }
    } else {
      forall i | 0 <= i < |s| ensures IsDigit(s[i]) || s[i] == '_' { assert s[i] == b[i]; }
    }
  }

  // ---------------------------------------------------------------- parse

  const Lead: seq<string> := ["#", "TIMESTAMP", "DIRECTION", "ID", "LENGTH"]
  const Trailer: seq<string> := ["CHECKSUM", "TYPE"]

  /** `sys.maxsize` of a 64-bit CPython build: the largest stop `islice` accepts. */
  const MaxSize: int := 0x7FFF_FFFF_FFFF_FFFF

  /** The lines `parse` accepts: five lead tokens of which `LENGTH` is an integer literal that `islice` takes as a stop. */
  predicate Accepted(t: seq<string>) {
    |t| >= 5 && ParseInt(t[4]).Success? && 0 <= ParseInt(t[4]).value <= MaxSize
  }

  /** Where the data bytes stop on an accepted line. */
  function DataEnd(t: seq<string>): nat
    requires Accepted(t)
  {
    |Lead| + ParseInt(t[4]).value
  }

  /** `LinTrace10.parse`, inherited by 1.1. */
  function Parse(t: seq<string>): Result<Record> {
    if |t| < |Lead| then Failure(MissingKey("LENGTH")) // `msg['LENGTH']` on a line of fewer than five tokens
    else
      match ParseInt(t[4])
      case Failure(e) => Failure(e)
      case Success(length) =>
        if length < 0 || length > MaxSize then Failure(StopOutOfRange) else Success(Assemble(t, DataEnd(t)))
  }

  /** What `parse` does once it knows that the data bytes end at position `p`. */
  function Assemble(t: seq<string>, p: nat): Record
    requires p >= |Lead|
  {
    var msg := Zip(Lead, t);
    var full := msg["DATA" := Lst(Slice(t, |Lead|, p))] + Zip(Trailer, Rest(t, p));
    var error := Join(Rest(t, p + 2));
    if error != "" then full["ERROR" := Str(error)] else full
  }

  /** `LinTrace10.is_msg`: a record is a message when it has no `ERROR`. */
  predicate IsMsg(msg: Record) {
    "ERROR" !in msg
  }

  lemma ParseAccepts(t: seq<string>)
    ensures Parse(t).Success? <==> Accepted(t)
    ensures |t| < 5 ==> Parse(t) == Failure(MissingKey("LENGTH"))
    ensures |t| >= 5 && ParseInt(t[4]).Failure? ==> Parse(t) == Failure(InvalidLiteral(t[4]))
    ensures |t| >= 5 && ParseInt(t[4]).Success? && !(0 <= ParseInt(t[4]).value <= MaxSize) ==> Parse(t) == Failure(StopOutOfRange)
  {
  }

  /** A number below `10 ** k` has at most `k` decimal digits. */
  lemma {:induction false} DecimalLength(n: nat, k: nat)
    requires 1 <= k && n < Pow10(k)
    ensures |Decimal(n)| <= k
  {
    if n >= 10 {
      DecimalLength(n / 10, k - 1);
    }
  }

  function Pow10(k: nat): nat {
    if k == 0 then 1 else 10 * Pow10(k - 1)
  }

  /** A `LENGTH` one above `sys.maxsize` is read by `int()` but refused by `islice`. */
  lemma LengthBeyondMaxSize(t: seq<string>)
    requires |t| >= 5 && t[4] == IntText(MaxSize + 1)
    ensures Parse(t) == Failure(StopOutOfRange)
  {
    assert Pow10(10) == 10_000_000_000;
    assert Pow10(19) == 10_000_000_000_000_000_000;
    DecimalLength(MaxSize + 1, 19);
    ParseIntText(MaxSize + 1);
  }

  /** The field names in the order they consume the line's tokens. */
  const ReadOrder: seq<string> := Lead + ["DATA"] + Trailer + ["ERROR"]

  /**
   * The record `parse` builds from an accepted line: the five lead tokens under their names,
   * `DATA` holding the next `LENGTH` tokens (fewer if the line ends), `CHECKSUM` and `TYPE`
   * as far as there are tokens after them, and `ERROR` holding the rest joined, when not empty.
   */
  predicate Shape(r: Record, t: seq<string>, p: nat)
    requires p >= 5
  {
    && HoldsLead(r, Lead, t)
    && "DATA" in r && r["DATA"] == Lst(Slice(t, 5, p))
    && HoldsLead(r, Trailer, Rest(t, p))
    && ("ERROR" in r <==> Join(Rest(t, p + 2)) != "")
    && ("ERROR" in r ==> r["ERROR"] == Str(Join(Rest(t, p + 2))))
  }

  lemma ParseShape(t: seq<string>)
    requires Parse(t).Success?
    ensures Accepted(t) && Shape(Parse(t).value, t, DataEnd(t)) && Within(Parse(t).value, ReadOrder)
  {
    ParseAccepts(t);
    AssembleShape(t, DataEnd(t));
  }

  lemma AssembleShape(t: seq<string>, p: nat)
    requires p >= 5
    ensures Shape(Assemble(t, p), t, p) && Within(Assemble(t, p), ReadOrder)
  {
    FullShape(t, p);
    Names();
    var full := Zip(Lead, t)["DATA" := Lst(Slice(t, 5, p))] + Zip(Trailer, Rest(t, p));
    var error := Join(Rest(t, p + 2));
    if error != "" {
      HoldsLeadUpdate(full, Lead, t, "ERROR", Str(error));
      HoldsLeadUpdate(full, Trailer, Rest(t, p), "ERROR", Str(error));
      WithinUpdate(full, ReadOrder, "ERROR", Str(error));
    }
  }

  /** The record before `ERROR` is added. */
  lemma FullShape(t: seq<string>, p: nat)
    requires p >= 5
    ensures var full := Zip(Lead, t)["DATA" := Lst(Slice(t, 5, p))] + Zip(Trailer, Rest(t, p));
      && HoldsLead(full, Lead, t) && HoldsLead(full, Trailer, Rest(t, p))
      && "DATA" in full && full["DATA"] == Lst(Slice(t, 5, p)) && "ERROR" !in full
      && Within(full, ReadOrder)
  {
    Names();
    var msg := Zip(Lead, t);
    var data := msg["DATA" := Lst(Slice(t, 5, p))];
    var z := Zip(Trailer, Rest(t, p));
    PutOne(Lead, t, ReadOrder, "DATA", Lst(Slice(t, 5, p)));
    PutOne(Lead, t, Lead + ["DATA"], "DATA", Lst(Slice(t, 5, p)));
    ZipHoldsLead(Trailer, Rest(t, p));
    ZipWithin(Trailer, Rest(t, p), ReadOrder);
    ZipWithin(Trailer, Rest(t, p), Trailer);
    UnionHoldsLeft(data, z, Lead, t);
    UnionHoldsRight(data, z, Trailer, Rest(t, p));
    ZipOutside(Trailer, Rest(t, p), "DATA");
    ZipOutside(Trailer, Rest(t, p), "ERROR");
  }

  /** Parsing loses no token: the record's fields, read in `ReadOrder`, give back the line. */
  lemma ParseLossless(t: seq<string>)
    requires AreTokens(t) && Parse(t).Success?
    ensures Fields(Parse(t).value, ReadOrder) == t
  {
    ParseShape(t);
    ShapeLossless(Parse(t).value, t, DataEnd(t));
  }

  lemma ShapeLossless(r: Record, t: seq<string>, p: nat)
    requires p >= 5 && AreTokens(t) && Shape(r, t, p)
    ensures Fields(r, ReadOrder) == t
  {
    RestTokens(t, p + 2);
    ErrorField(r, Rest(t, p + 2));
    LeadFields(r, t, p);
    RecordLossless(r, t, p);
  }

  lemma LeadFields(r: Record, t: seq<string>, p: nat)
    requires AreTokens(t) && HoldsLead(r, Lead, t) && HoldsLead(r, Trailer, Rest(t, p))
    ensures Fields(r, Lead) == Slice(t, 0, 5) && Fields(r, Trailer) == Slice(Rest(t, p), 0, 2)
  {
    RestTokens(t, p);
    FieldsLead(r, Lead, t);
    FieldsLead(r, Trailer, Rest(t, p));
  }

  lemma RecordLossless(r: Record, t: seq<string>, p: nat)
    requires p >= 5 && Fields(r, Lead) == Slice(t, 0, 5) && Fields(r, Trailer) == Slice(Rest(t, p), 0, 2)
    requires "DATA" in r && r["DATA"] == Lst(Slice(t, 5, p)) && FieldOf(r, "ERROR") == Rest(t, p + 2)
    ensures Fields(r, ReadOrder) == t
  {
    ReadOrderFields(r);
    Pieces(t, p);
  }

  lemma ReadOrderFields(r: Record)
    ensures Fields(r, ReadOrder) == Fields(r, Lead) + FieldOf(r, "DATA") + Fields(r, Trailer) + FieldOf(r, "ERROR")
  {
    FieldsAppend(r, Lead + ["DATA"] + Trailer, ["ERROR"]);
    FieldsAppend(r, Lead + ["DATA"], Trailer);
    FieldsAppend(r, Lead, ["DATA"]);
    FieldsSingle(r, "DATA");
    FieldsSingle(r, "ERROR");
  }

  lemma Pieces(t: seq<string>, p: nat)
    requires p >= 5
    ensures Slice(t, 0, 5) + Slice(t, 5, p) + Slice(Rest(t, p), 0, 2) + Rest(t, p + 2) == t
  {
    var a, b, c, d := Slice(t, 0, 5), Slice(t, 5, p), Slice(Rest(t, p), 0, 2), Rest(t, p + 2);
    SliceRest(t, 5, p);
    SplitAt(Rest(t, p), 2);
    RestRest(t, p, 2);
    assert a + b + c + d == a + b + (c + d);
  }

  /** The `ERROR` field gives back the tokens after `TYPE`, whether or not it was stored. */
  lemma ErrorField(r: Record, rest: seq<string>)
    requires AreTokens(rest)
    requires "ERROR" in r <==> Join(rest) != ""
    requires "ERROR" in r ==> r["ERROR"] == Str(Join(rest))
    ensures FieldOf(r, "ERROR") == rest
  {
    JoinEmpty(rest);
    if "ERROR" in r {
      JoinedField(r, "ERROR", rest);
    }
  }

  /** `is_msg` holds of a parsed line exactly when nothing follows `TYPE`. */
  lemma ParsedIsMsg(t: seq<string>)
    requires AreTokens(t) && Parse(t).Success?
    ensures Accepted(t) && (IsMsg(Parse(t).value) <==> |t| <= DataEnd(t) + 2)
  {
    ParseShape(t);
    ShapeIsMsg(Parse(t).value, t, DataEnd(t));
  }

  lemma ShapeIsMsg(r: Record, t: seq<string>, p: nat)
    requires p >= 5 && Shape(r, t, p) && AreTokens(t)
    ensures IsMsg(r) <==> |t| <= p + 2
  {
    RestTokens(t, p + 2);
    JoinEmpty(Rest(t, p + 2));
  }

  /** `DATA` holds `LENGTH` tokens, or all that are left when the line is shorter. */
  lemma ParsedData(t: seq<string>)
    requires Parse(t).Success?
    ensures Accepted(t) && "DATA" in Parse(t).value && Parse(t).value["DATA"].Lst?
    ensures var n, l := ParseInt(t[4]).value, Parse(t).value["DATA"].l;
      && |l| <= n && (|t| >= 5 + n ==> |l| == n) && (|t| < 5 + n ==> |l| == |t| - 5)
      && forall i :: 0 <= i < |l| ==> l[i] == t[5 + i]
  {
    ParseShape(t);
  }

  lemma Names()
    ensures Distinct(Lead) && Distinct(Trailer)
    ensures "DATA" !in Lead && "ERROR" !in Lead && "DATA" !in Trailer && "ERROR" !in Trailer
    ensures forall i :: 0 <= i < |Lead| ==> Lead[i] !in Trailer && Lead[i] in ReadOrder
    ensures forall i :: 0 <= i < |Trailer| ==> Trailer[i] !in Lead + ["DATA"] && Trailer[i] in ReadOrder
    ensures forall i :: 0 <= i < |Lead| ==> Lead[i] in Lead + ["DATA"]
    ensures "DATA" in ReadOrder && "ERROR" in ReadOrder && "DATA" in Lead + ["DATA"]
  {
  }
}
