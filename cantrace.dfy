/**
 * The CAN trace dialects (PEAK trace file versions 1.0 to 2.1): version detection, the
 * registry of grammars, each grammar's `parse`, `is_msg` and `keys`.
 */
module CanTrace {
  import opened Errors
  import opened Text
  import opened Message
  import Header

  /** The six registered CAN grammars, one per file version. */
  datatype Version = V10 | V11 | V12 | V13 | V20 | V21

  const LegacyTag: string := ";###"

  /** `CanTrace.fileversion` on the file's first line: the tagged version, else "1.0" for a legacy header, else an error. */
  function FileVersion(s: string): Result<string> {
    match Header.TaggedVersion(s)
    case Some(v) => Success(v)
    case None => if LegacyTag <= s then Success("1.0") else Failure(VersionNotFound)
  }

  /** The version string each grammar registers under. */
  function VersionName(d: Version): string {
    match d
    case V10 => "1.0"
    case V11 => "1.1"
    case V12 => "1.2"
    case V13 => "1.3"
    case V20 => "2.0"
    case V21 => "2.1"
  }

  const Supported: set<string> := {"1.0", "1.1", "1.2", "1.3", "2.0", "2.1"}

  /** The lookup `cls._parser[version]` in `CanTrace.__new__`. */
  function Lookup(v: string): (r: Result<Version>)
    ensures r.Success? <==> v in Supported
    ensures r.Success? ==> VersionName(r.value) == v
    ensures r.Failure? ==> r.error == UnsupportedVersion(v) && Errors.Message(r.error) == "Version " + v + " not supported"
  {
    if v == "1.0" then Success(V10)
    else if v == "1.1" then Success(V11)
    else if v == "1.2" then Success(V12)
    else if v == "1.3" then Success(V13)
    else if v == "2.0" then Success(V20)
    else if v == "2.1" then Success(V21)
    else Failure(UnsupportedVersion(v))
  }

  /** `CanTrace(filename)`: the version detected from the first line and the grammar registered for it. */
  function Open(firstLine: string): Result<(string, Version)> {
    var v :- FileVersion(firstLine);
    var d :- Lookup(v);
    Success((v, d))
  }

  /** Opening picks the grammar named by the header, for tagged and legacy headers alike, and fails otherwise. */
  lemma OpenSpec(s: string)
    ensures Header.TaggedVersion(s).Some? ==> var v := Header.TaggedVersion(s).value;
      Open(s) == if v in Supported then Success((v, Lookup(v).value)) else Failure(UnsupportedVersion(v))
    ensures Header.TaggedVersion(s).None? && LegacyTag <= s ==> Open(s) == Success(("1.0", V10))
    ensures Header.TaggedVersion(s).None? && !(LegacyTag <= s) ==>
      Open(s) == Failure(VersionNotFound) && Errors.Message(Open(s).error) == "File version not found"
    ensures Open(s).Success? ==> VersionName(Open(s).value.1) == Open(s).value.0
  {
  }

  /** Every grammar is found again under its own version string. */
  lemma LookupVersionName(d: Version)
    ensures Lookup(VersionName(d)) == Success(d)
  {
  }

  // ---------------------------------------------------------------- parse

  const Lead10: seq<string> := ["#", "TIMESTAMP", "ID", "LENGTH"]
  const Lead11: seq<string> := ["#", "TIMESTAMP", "TYPE", "ID", "LENGTH"]
  const Lead12: seq<string> := ["#", "TIMESTAMP", "BUS", "TYPE", "ID", "LENGTH"]
  const Lead13: seq<string> := ["#", "TIMESTAMP", "BUS", "TYPE", "ID", "REVERSED", "LENGTH"]
  const Lead20: seq<string> := ["#", "TIMESTAMP", "TYPE"]
  const Tail20: seq<string> := ["ID", "DIRECTION", "LENGTH"]
  const Lead21: seq<string> := ["#", "TIMESTAMP", "TYPE", "BUS"]
  const Tail21: seq<string> := ["ID", "DIRECTION", "RESERVED", "LENGTH"]

  /** The identifier that marks a version 1.0 error record. */
  const ErrorId: string := "FFFFFFFF"

  /** The message types of status and error records from version 2.0 on. */
  const InfoTypes: set<string> := {"ST", "ER", "EC"}

  /** The error bytes with the `--` placeholders removed; every other byte is kept, as often as it occurs. */
  function WithoutPlaceholders(s: seq<string>): (r: seq<string>)
    ensures forall i :: 0 <= i < |r| ==> r[i] != "--" && r[i] in s
    ensures forall i :: 0 <= i < |s| && s[i] != "--" ==> s[i] in r
    ensures multiset(r) == multiset(s)["--" := 0]
  {
    if s == [] then []
    else
      assert s == [s[0]] + s[1..];
      (if s[0] == "--" then [] else [s[0]]) + WithoutPlaceholders(s[1..])
  }

  /** The filter keeps the order of the bytes: filtering two stretches one after the other is filtering their concatenation. */
  lemma {:induction false} WithoutPlaceholdersAppend(a: seq<string>, b: seq<string>)
    ensures WithoutPlaceholders(a + b) == WithoutPlaceholders(a) + WithoutPlaceholders(b)
  {
    if a == [] {
      assert a + b == b;
    } else {
      assert (a + b)[0] == a[0] && (a + b)[1..] == a[1..] + b;
      WithoutPlaceholdersAppend(a[1..], b);
    }
  }

  /** `CanTrace10.parse`. */
  function Parse10(t: seq<string>): Result<Record> {
    var msg := Zip(Lead10, t);
    if "ID" !in msg then Failure(MissingKey("ID"))
    else if msg["ID"] == Str(ErrorId) then
      Success(msg["ERROR" := Lst(WithoutPlaceholders(Slice(t, 4, 12)))]["EVENT" := Str(Join(Rest(t, 12)))])
    else if |t| <= 4 then Failure(Exhausted)
    else if t[4] == "ERROR" then Success(msg["ERROR" := Lst(t[5..])])
    else Success(msg["DATA" := Lst(t[4..])])
  }

  /** `CanTrace11.parse`, `CanTrace12.parse` and `CanTrace13.parse`, which differ only in their lead fields. */
  function ParseTyped(lead: seq<string>, t: seq<string>): Result<Record>
    requires Distinct(lead)
  {
    var n := |lead|;
    var msg := Zip(lead, t);
    if "TYPE" !in msg then Failure(MissingKey("TYPE"))
    else if msg["TYPE"] == Str("Rx") || msg["TYPE"] == Str("Tx") then Success(msg["DATA" := Lst(Rest(t, n))])
    else Success(msg["ERROR" := Lst(Slice(t, n, n + 4))]["EVENT" := Str(Join(Rest(t, n + 4)))])
  }

  /** `CanTrace20.parse`. */
  function Parse20(t: seq<string>): Result<Record> {
    var msg := Zip(Lead20, t);
    if "TYPE" !in msg then Failure(MissingKey("TYPE"))
    else if msg["TYPE"].Str? && msg["TYPE"].s in InfoTypes then
      if |t| <= 3 then Failure(Exhausted)
      else Success(msg["DIRECTION" := Str(t[3])]["ERROR" := Lst(t[4..])])
    else Success((msg + Zip(Tail20, Rest(t, 3)))["DATA" := Lst(Rest(t, 6))])
  }

  /** `CanTrace21.parse`. */
  function Parse21(t: seq<string>): Result<Record> {
    var msg := Zip(Lead21, t);
    if "TYPE" !in msg then Failure(MissingKey("TYPE"))
    else if msg["TYPE"] == Str("EV") then Success(msg["EVENT" := Str(Join(Rest(t, 4)))])
    else
      var key := if msg["TYPE"].Str? && msg["TYPE"].s in InfoTypes then "ERROR" else "DATA";
      Success((msg + Zip(Tail21, Rest(t, 4)))[key := Lst(Rest(t, 8))])
  }

  /** The `parse` of the grammar registered for `d`. */
  function Parse(d: Version, t: seq<string>): Result<Record> {
    match d
    case V10 => Parse10(t)
    case V11 => ParseTyped(Lead11, t)
    case V12 => ParseTyped(Lead12, t)
    case V13 => ParseTyped(Lead13, t)
    case V20 => Parse20(t)
    case V21 => Parse21(t)
  }

  // ---------------------------------------------------------------- is_msg

  /** Python truthiness of a record value. */
  predicate Truthy(v: Value) {
    match v case Str(s) => s != "" case Lst(l) => l != []
  }

  /**
   * `CanTrace10.is_msg`, inherited by versions 1.1 to 1.3, as written: not a message when
   * `ERROR` is non-empty or the first `DATA` element is `RTR`; `data[0]` fails on an empty `DATA`.
   */
  function IsMsg10AsWritten(msg: Record): Result<bool> {
    if "ERROR" in msg && Truthy(msg["ERROR"]) then Success(false)
    else
      match (if "DATA" in msg then msg["DATA"] else Lst(["CD"]))
      case Lst(l) => if l == [] then Failure(EmptyIndexed) else Success(l[0] != "RTR")
      case Str(s) => if s == "" then Failure(EmptyIndexed) else Success(true) // one character never equals "RTR"
  }

  /** `CanTrace10.is_msg` as evidently intended: a frame without data bytes is a message too. */
  function IsMsg10(msg: Record): bool {
    if "ERROR" in msg && Truthy(msg["ERROR"]) then false
    else
      match (if "DATA" in msg then msg["DATA"] else Lst(["CD"]))
      case Lst(l) => l == [] || l[0] != "RTR"
      case Str(_) => true
  }

  /** The corrected classification agrees with the code wherever the code gives an answer, and the code fails only on an empty `DATA`. */
  lemma IsMsg10Agrees(msg: Record)
    ensures IsMsg10AsWritten(msg).Success? ==> IsMsg10AsWritten(msg).value == IsMsg10(msg)
    ensures IsMsg10AsWritten(msg).Failure? <==>
      !("ERROR" in msg && Truthy(msg["ERROR"])) && "DATA" in msg && !Truthy(msg["DATA"])
  {
  }

  /** `CanTrace20.is_msg`: not a message for status, error and remote-request records; `msg['TYPE']` fails without a type. */
  function IsMsg20(msg: Record): Result<bool> {
    if "TYPE" !in msg then Failure(MissingKey("TYPE"))
    else Success(!(msg["TYPE"].Str? && msg["TYPE"].s in {"ST", "ER", "EC", "RR"}))
  }

  /** `CanTrace21.is_msg`: as 2.0, and an event record is not a message either. */
  function IsMsg21(msg: Record): Result<bool> {
    if "TYPE" !in msg then Failure(MissingKey("TYPE"))
    else if msg["TYPE"] == Str("EV") then Success(false)
    else IsMsg20(msg)
  }

  /** The `is_msg` of the grammar registered for `d`, with the corrected 1.x rule. */
  function IsMsg(d: Version, msg: Record): Result<bool> {
    match d
    case V20 => IsMsg20(msg)
    case V21 => IsMsg21(msg)
    case _ => Success(IsMsg10(msg))
  }

  // ---------------------------------------------------------------- keys

  predicate IsV1(d: Version) {
    d == V10 || d == V11 || d == V12 || d == V13
  }

  /** `DATA_MAX`: 8 data bytes for the 1.x grammars, 64 (CAN FD) for 2.x. */
  function DataMax(d: Version): nat {
    if IsV1(d) then 8 else 64
  }

  /** `ERROR_MAX`: 4 error fields for 1.x, 5 for 2.x. */
  function ErrorMax(d: Version): nat {
    if IsV1(d) then 4 else 5
  }

  /** `_key_data(expand)`. */
  function KeyData(d: Version, expand: bool): seq<string> {
    if expand then Columns("DATA", DataMax(d)) else ["DATA"]
  }

  /** `_key_error(expand)`. */
  function KeyError(d: Version, expand: bool): seq<string> {
    if expand then Columns("ERROR", ErrorMax(d)) else ["ERROR"]
  }

  /** The fixed columns before the data columns in `keys`; 1.3 inherits 1.2's `keys`. */
  function KeyLead(d: Version): seq<string> {
    match d
    case V10 => Lead10
    case V11 => Lead11
    case V12 | V13 => Lead12
    case V20 => ["#", "TIMESTAMP", "TYPE", "ID", "DIRECTION", "LENGTH"]
    case V21 => ["#", "TIMESTAMP", "TYPE", "BUS", "ID", "DIRECTION", "LENGTH"]
  }

  /** `keys(expand)`: the column headers of a grammar; 2.0 has no `EVENT` column. */
  function Keys(d: Version, expand: bool): seq<string> {
    KeyLead(d) + KeyData(d, expand) + KeyError(d, expand) + KeyTail(d)
  }

  // ---------------------------------------------------------------- records by version

  /** The field names of a version's records in the order they consume the line's tokens. */
  function ReadOrder(d: Version): seq<string> {
    match d
    case V10 => Lead10 + ["DATA", "ERROR", "EVENT"]
    case V11 => Lead11 + ["DATA", "ERROR", "EVENT"]
    case V12 => Lead12 + ["DATA", "ERROR", "EVENT"]
    case V13 => Lead13 + ["DATA", "ERROR", "EVENT"]
    case V20 => Lead20 + Tail20 + ["DATA", "ERROR"]
    case V21 => Lead21 + Tail21 + ["DATA", "ERROR", "EVENT"]
  }

  /** What versions 1.1 to 1.3 have in common: distinct lead fields, `TYPE` at position `k`, and none of the trailing names among them. */
  predicate TypedLead(lead: seq<string>, k: nat) {
    && Distinct(lead) && k < |lead| && lead[k] == "TYPE"
    && "DATA" !in lead && "ERROR" !in lead && "EVENT" !in lead
  }

  lemma TypedLeads()
    ensures TypedLead(Lead11, 2) && TypedLead(Lead12, 3) && TypedLead(Lead13, 3)
  {
  }

  /**
   * The record versions 1.1 to 1.3 build from `t`: the lead tokens under their names, then
   * either `DATA` holding every further token (types `Rx` and `Tx`), or `ERROR` holding at
   * most four of them and `EVENT` the rest, space-joined; never both `DATA` and `ERROR`.
   */
  predicate TypedShape(r: Record, lead: seq<string>, k: nat, t: seq<string>) {
    && k < |t| && HoldsLead(r, lead, t)
    && (t[k] == "Rx" || t[k] == "Tx" ==>
          "DATA" in r && r["DATA"] == Lst(Rest(t, |lead|)) && "ERROR" !in r && "EVENT" !in r)
    && (t[k] != "Rx" && t[k] != "Tx" ==>
          && "DATA" !in r && "ERROR" in r && "EVENT" in r
          && r["ERROR"] == Lst(Slice(t, |lead|, |lead| + 4)) && r["EVENT"] == Str(Join(Rest(t, |lead| + 4))))
  }

  /**
   * The record version 1.0 builds from `t`: the lead tokens under their names; an error
   * frame (`ID` `FFFFFFFF`) holds the next eight tokens without `--` as `ERROR` and the rest
   * joined as `EVENT`; a frame whose first data token is the word `ERROR` holds the tokens
   * after it as `ERROR`; any other frame holds every token after `LENGTH` as `DATA`.
   */
  predicate Shape10(r: Record, t: seq<string>) {
    && |t| >= 3 && (t[2] != ErrorId ==> |t| >= 5)
    && HoldsLead(r, Lead10, t)
    && (t[2] == ErrorId ==>
          && "DATA" !in r && "ERROR" in r && "EVENT" in r
          && r["ERROR"] == Lst(WithoutPlaceholders(Slice(t, 4, 12))) && r["EVENT"] == Str(Join(Rest(t, 12))))
    && (t[2] != ErrorId ==> "EVENT" !in r)
    && (t[2] != ErrorId && t[4] == "ERROR" ==> "DATA" !in r && "ERROR" in r && r["ERROR"] == Lst(t[5..]))
    && (t[2] != ErrorId && t[4] != "ERROR" ==> "ERROR" !in r && "DATA" in r && r["DATA"] == Lst(t[4..]))
  }

  /**
   * The record version 2.0 builds from `t`: `#`, `TIMESTAMP` and `TYPE`; a status or error
   * record then holds the next token as `DIRECTION` and all further ones as `ERROR`; any
   * other record holds `ID`, `DIRECTION` and `LENGTH` as far as there are tokens, and the
   * rest as `DATA`.
   */
  predicate Shape20(r: Record, t: seq<string>) {
    && |t| >= 3 && "EVENT" !in r
    && (t[2] in InfoTypes ==>
          && |t| >= 4 && HoldsLead(r, Lead20, t)
          && "ID" !in r && "DIRECTION" in r && r["DIRECTION"] == Str(t[3]) && "LENGTH" !in r
          && "DATA" !in r && "ERROR" in r && r["ERROR"] == Lst(t[4..]))
    && (t[2] !in InfoTypes ==>
          HoldsLead(r, Lead20 + Tail20, t) && "DATA" in r && r["DATA"] == Lst(Rest(t, 6)) && "ERROR" !in r)
  }

  /**
   * The record version 2.1 builds from `t`: `#`, `TIMESTAMP`, `TYPE` and `BUS`; an event
   * record then holds the rest joined as `EVENT`; any other record holds `ID`, `DIRECTION`,
   * `RESERVED` and `LENGTH` as far as there are tokens, and the rest as `ERROR` for a status
   * or error record, as `DATA` otherwise.
   */
  predicate Shape21(r: Record, t: seq<string>) {
    && |t| >= 3
    && (t[2] == "EV" ==>
          && HoldsLead(r, Lead21, t) && (forall i :: 0 <= i < |Tail21| ==> Tail21[i] !in r)
          && "DATA" !in r && "ERROR" !in r && "EVENT" in r && r["EVENT"] == Str(Join(Rest(t, 4))))
    && (t[2] != "EV" ==> HoldsLead(r, Lead21 + Tail21, t) && "EVENT" !in r)
    && (t[2] != "EV" && t[2] in InfoTypes ==> "DATA" !in r && "ERROR" in r && r["ERROR"] == Lst(Rest(t, 8)))
    && (t[2] != "EV" && t[2] !in InfoTypes ==> "ERROR" !in r && "DATA" in r && r["DATA"] == Lst(Rest(t, 8)))
  }

  // ---------------------------------------------------------------- what parse builds

  /** Versions 1.1 to 1.3 accept every line that reaches the `TYPE` field and reject shorter ones with a missing `TYPE`. */
  lemma ParseTypedAccepts(lead: seq<string>, k: nat, t: seq<string>)
    requires TypedLead(lead, k)
    ensures ParseTyped(lead, t).Success? <==> |t| > k
    ensures ParseTyped(lead, t).Failure? ==> ParseTyped(lead, t).error == MissingKey("TYPE")
  {
    ZipLead(lead, t, k);
  }

  lemma ParseTypedShape(lead: seq<string>, k: nat, t: seq<string>)
    requires TypedLead(lead, k) && ParseTyped(lead, t).Success?
    ensures TypedShape(ParseTyped(lead, t).value, lead, k, t)
    ensures Within(ParseTyped(lead, t).value, lead + ["DATA", "ERROR", "EVENT"])
  {
    ParseTypedAccepts(lead, k, t);
    ZipLead(lead, t, k);
    if t[k] == "Rx" || t[k] == "Tx" {
      TypedFrameShape(lead, k, t);
    } else {
      TypedInfoShape(lead, k, t);
    }
  }

  lemma TypedFrameShape(lead: seq<string>, k: nat, t: seq<string>)
    requires TypedLead(lead, k) && k < |t| && (t[k] == "Rx" || t[k] == "Tx")
    requires "TYPE" in Zip(lead, t) && Zip(lead, t)["TYPE"] == Str(t[k])
    ensures ParseTyped(lead, t) == Success(Zip(lead, t)["DATA" := Lst(Rest(t, |lead|))])
    ensures TypedShape(ParseTyped(lead, t).value, lead, k, t)
    ensures Within(ParseTyped(lead, t).value, lead + ["DATA", "ERROR", "EVENT"])
  {
    var names := lead + ["DATA", "ERROR", "EVENT"];
    var msg := Zip(lead, t);
    ZipHoldsLead(lead, t);
    ZipWithin(lead, t, names);
    HoldsLeadUpdate(msg, lead, t, "DATA", Lst(Rest(t, |lead|)));
    WithinUpdate(msg, names, "DATA", Lst(Rest(t, |lead|)));
    ZipOutside(lead, t, "ERROR");
    ZipOutside(lead, t, "EVENT");
  }

  lemma TypedInfoShape(lead: seq<string>, k: nat, t: seq<string>)
    requires TypedLead(lead, k) && k < |t| && t[k] != "Rx" && t[k] != "Tx"
    requires "TYPE" in Zip(lead, t) && Zip(lead, t)["TYPE"] == Str(t[k])
    ensures TypedShape(ParseTyped(lead, t).value, lead, k, t)
    ensures Within(ParseTyped(lead, t).value, lead + ["DATA", "ERROR", "EVENT"])
  {
    var names := lead + ["DATA", "ERROR", "EVENT"];
    ZipHoldsLead(lead, t);
    ZipWithin(lead, t, names);
    ZipOutside(lead, t, "DATA");
    InfoUpdate(Zip(lead, t), lead, t, names);
  }

  /** Storing the error tokens and the event text keeps the lead and the allowed names of a record. */
  lemma InfoUpdate(msg: Record, lead: seq<string>, t: seq<string>, names: seq<string>)
    requires HoldsLead(msg, lead, t) && Within(msg, names) && "DATA" !in msg
    requires "ERROR" !in lead && "EVENT" !in lead && "ERROR" in names && "EVENT" in names
    ensures var r := msg["ERROR" := Lst(Slice(t, |lead|, |lead| + 4))]["EVENT" := Str(Join(Rest(t, |lead| + 4)))];
      && HoldsLead(r, lead, t) && Within(r, names) && "DATA" !in r
  {
    var e := msg["ERROR" := Lst(Slice(t, |lead|, |lead| + 4))];
    HoldsLeadUpdate(msg, lead, t, "ERROR", e["ERROR"]);
    HoldsLeadUpdate(e, lead, t, "EVENT", Str(Join(Rest(t, |lead| + 4))));
    WithinUpdate(msg, names, "ERROR", e["ERROR"]);
    WithinUpdate(e, names, "EVENT", Str(Join(Rest(t, |lead| + 4))));
  }

  /** Version 1.0 needs the `ID` field, and a frame other than an error frame needs a token after `LENGTH`. */
  lemma Parse10Accepts(t: seq<string>)
    ensures Parse10(t).Success? <==> |t| >= 3 && (t[2] == ErrorId || |t| >= 5)
    ensures |t| < 3 ==> Parse10(t) == Failure(MissingKey("ID"))
    ensures |t| >= 3 && t[2] != ErrorId && |t| < 5 ==> Parse10(t) == Failure(Exhausted)
  {
    Names10();
    ZipLead(Lead10, t, 2);
  }

  lemma Parse10Shape(t: seq<string>)
    requires Parse10(t).Success?
    ensures Shape10(Parse10(t).value, t) && Within(Parse10(t).value, ReadOrder(V10))
  {
    Parse10Accepts(t);
    if t[2] == ErrorId {
      Shape10Error(t);
    } else {
      Shape10Frame(t);
    }
  }

  lemma Shape10Error(t: seq<string>)
    requires |t| >= 3 && t[2] == ErrorId
    ensures Parse10(t).Success? && Shape10(Parse10(t).value, t) && Within(Parse10(t).value, ReadOrder(V10))
  {
    Names10();
    ZipLead(Lead10, t, 2);
    PutTwo(Lead10, t, ReadOrder(V10), "ERROR", Lst(WithoutPlaceholders(Slice(t, 4, 12))), "EVENT", Str(Join(Rest(t, 12))));
  }

  lemma Shape10Frame(t: seq<string>)
    requires |t| >= 5 && t[2] != ErrorId
    ensures Parse10(t).Success? && Shape10(Parse10(t).value, t) && Within(Parse10(t).value, ReadOrder(V10))
  {
    if t[4] == "ERROR" {
      Shape10Word(t);
    } else {
      Shape10Data(t);
    }
  }

  lemma Shape10Word(t: seq<string>)
    requires |t| >= 5 && t[2] != ErrorId && t[4] == "ERROR"
    ensures Parse10(t).Success? && Shape10(Parse10(t).value, t) && Within(Parse10(t).value, ReadOrder(V10))
  {
    Names10();
    ZipLead(Lead10, t, 2);
    assert Parse10(t) == Success(Zip(Lead10, t)["ERROR" := Lst(t[5..])]);
    PutOne(Lead10, t, ReadOrder(V10), "ERROR", Lst(t[5..]));
  }

  lemma Shape10Data(t: seq<string>)
    requires |t| >= 5 && t[2] != ErrorId && t[4] != "ERROR"
    ensures Parse10(t).Success? && Shape10(Parse10(t).value, t) && Within(Parse10(t).value, ReadOrder(V10))
  {
    Names10();
    ZipLead(Lead10, t, 2);
    assert Parse10(t) == Success(Zip(Lead10, t)["DATA" := Lst(t[4..])]);
    PutOne(Lead10, t, ReadOrder(V10), "DATA", Lst(t[4..]));
  }

  /** Version 2.0 needs the `TYPE` field, and a status or error record a `DIRECTION` token after it. */
  lemma Parse20Accepts(t: seq<string>)
    ensures Parse20(t).Success? <==> |t| >= 3 && (t[2] in InfoTypes ==> |t| >= 4)
    ensures |t| < 3 ==> Parse20(t) == Failure(MissingKey("TYPE"))
    ensures |t| == 3 && t[2] in InfoTypes ==> Parse20(t) == Failure(Exhausted)
  {
    Names20();
    ZipLead(Lead20, t, 2);
  }

  lemma Parse20Shape(t: seq<string>)
    requires Parse20(t).Success?
    ensures Shape20(Parse20(t).value, t) && Within(Parse20(t).value, ReadOrder(V20))
  {
    Parse20Accepts(t);
    if t[2] in InfoTypes {
      Shape20Info(t);
    } else {
      Shape20Frame(t);
    }
  }

  lemma Shape20Info(t: seq<string>)
    requires |t| >= 4 && t[2] in InfoTypes
    ensures Parse20(t).Success? && Shape20(Parse20(t).value, t) && Within(Parse20(t).value, ReadOrder(V20))
  {
    Names20();
    ZipLead(Lead20, t, 2);
    PutTwo(Lead20, t, ReadOrder(V20), "DIRECTION", Str(t[3]), "ERROR", Lst(t[4..]));
  }

  lemma Shape20Frame(t: seq<string>)
    requires |t| >= 3 && t[2] !in InfoTypes
    ensures Parse20(t).Success? && Shape20(Parse20(t).value, t) && Within(Parse20(t).value, ReadOrder(V20))
  {
    Names20();
    ZipLead(Lead20, t, 2);
    PutMerged(Lead20, Tail20, t, ReadOrder(V20), "DATA", Lst(Rest(t, 6)));
  }

  /** Version 2.1 accepts every line that reaches the `TYPE` field. */
  lemma Parse21Accepts(t: seq<string>)
    ensures Parse21(t).Success? <==> |t| >= 3
    ensures |t| < 3 ==> Parse21(t) == Failure(MissingKey("TYPE"))
  {
    Names21();
    ZipLead(Lead21, t, 2);
  }

  lemma Parse21Shape(t: seq<string>)
    requires Parse21(t).Success?
    ensures Shape21(Parse21(t).value, t) && Within(Parse21(t).value, ReadOrder(V21))
  {
    Parse21Accepts(t);
    if t[2] == "EV" {
      Shape21Event(t);
    } else {
      Shape21Frame(t);
    }
  }

  lemma Shape21Event(t: seq<string>)
    requires |t| >= 3 && t[2] == "EV"
    ensures Parse21(t).Success? && Shape21(Parse21(t).value, t) && Within(Parse21(t).value, ReadOrder(V21))
  {
    Names21();
    ZipLead(Lead21, t, 2);
    PutOne(Lead21, t, ReadOrder(V21), "EVENT", Str(Join(Rest(t, 4))));
  }

  lemma Shape21Frame(t: seq<string>)
    requires |t| >= 3 && t[2] != "EV"
    ensures Parse21(t).Success? && Shape21(Parse21(t).value, t) && Within(Parse21(t).value, ReadOrder(V21))
  {
    Names21();
    ZipLead(Lead21, t, 2);
    var key := if t[2] in InfoTypes then "ERROR" else "DATA";
    PutMerged(Lead21, Tail21, t, ReadOrder(V21), key, Lst(Rest(t, 8)));
  }

  // ---------------------------------------------------------------- reading a record back

  /** Removing the `--` placeholders changes nothing when there are none. */
  lemma {:induction false} WithoutPlaceholdersNone(s: seq<string>)
    requires "--" !in s
    ensures WithoutPlaceholders(s) == s
  {
    if s != [] {
      assert "--" !in s[1..] by {
        forall i | 0 <= i < |s[1..]| ensures s[1..][i] != "--" { assert s[1..][i] == s[i + 1]; }
      }
      WithoutPlaceholdersNone(s[1..]);
    }
  }

  /** The tokens a version 1.0 record gives back after its lead fields, in the order `DATA`, `ERROR`, `EVENT`. */
  function Tokens10(t: seq<string>): seq<string>
    requires |t| >= 3 && (t[2] != ErrorId ==> |t| >= 5)
  {
    if t[2] == ErrorId then WithoutPlaceholders(Slice(t, 4, 12)) + Rest(t, 12)
    else if t[4] == "ERROR" then t[5..]
    else t[4..]
  }

  lemma Tail10Fields(r: Record, t: seq<string>)
    requires AreTokens(t) && Shape10(r, t)
    ensures Fields(r, ["DATA", "ERROR", "EVENT"]) == Tokens10(t)
  {
    FieldsThree(r, "DATA", "ERROR", "EVENT");
    if t[2] == ErrorId {
      RestTokens(t, 12);
      Tail10Error(r, t);
    } else if t[4] == "ERROR" {
      assert FieldOf(r, "DATA") + FieldOf(r, "ERROR") + FieldOf(r, "EVENT") == [] + t[5..] + [];
    } else {
      assert FieldOf(r, "DATA") + FieldOf(r, "ERROR") + FieldOf(r, "EVENT") == t[4..] + [] + [];
    }
  }

  lemma Tail10Error(r: Record, t: seq<string>)
    requires AreTokens(Rest(t, 12)) && |t| >= 3 && t[2] == ErrorId
    requires "DATA" !in r && "ERROR" in r && r["ERROR"] == Lst(WithoutPlaceholders(Slice(t, 4, 12)))
    requires "EVENT" in r && r["EVENT"] == Str(Join(Rest(t, 12)))
    ensures FieldOf(r, "DATA") + FieldOf(r, "ERROR") + FieldOf(r, "EVENT") == Tokens10(t)
  {
    ErrorEventFields(r, WithoutPlaceholders(Slice(t, 4, 12)), Rest(t, 12));
  }

  lemma ErrorEventFieldsAt(r: Record, e: seq<string>, t: seq<string>, n: nat)
    requires AreTokens(t) && "DATA" !in r && "ERROR" in r && r["ERROR"] == Lst(e)
    requires "EVENT" in r && r["EVENT"] == Str(Join(Rest(t, n)))
    ensures FieldOf(r, "DATA") + FieldOf(r, "ERROR") + FieldOf(r, "EVENT") == e + Rest(t, n)
  {
    RestTokens(t, n);
    ErrorEventFields(r, e, Rest(t, n));
  }

  lemma ErrorEventFields(r: Record, e: seq<string>, ev: seq<string>)
    requires AreTokens(ev) && "DATA" !in r && "ERROR" in r && r["ERROR"] == Lst(e)
    requires "EVENT" in r && r["EVENT"] == Str(Join(ev))
    ensures FieldOf(r, "DATA") + FieldOf(r, "ERROR") + FieldOf(r, "EVENT") == e + ev
  {
    JoinedField(r, "EVENT", ev);
  }

  /**
   * A version 1.0 record loses only the `--` placeholders of an error frame and the literal
   * word `ERROR` that introduces an error: its fields, read in order, are the lead tokens
   * followed by `Tokens10`.
   */
  lemma Record10Lossless(r: Record, t: seq<string>)
    requires AreTokens(t) && Shape10(r, t)
    ensures Fields(r, ReadOrder(V10)) == Slice(t, 0, 4) + Tokens10(t)
  {
    Names10();
    FieldsLead(r, Lead10, t);
    FieldsAppend(r, Lead10, ["DATA", "ERROR", "EVENT"]);
    Tail10Fields(r, t);
  }

  /** When nothing is dropped, the version 1.0 tokens are the line itself. */
  lemma Tokens10Whole(t: seq<string>)
    requires |t| >= 3 && (t[2] != ErrorId ==> |t| >= 5)
    requires t[2] == ErrorId ==> "--" !in Slice(t, 4, 12)
    requires t[2] != ErrorId ==> t[4] != "ERROR"
    ensures Slice(t, 0, 4) + Tokens10(t) == t
  {
    if t[2] == ErrorId {
      WithoutPlaceholdersNone(Slice(t, 4, 12));
      SliceRest(t, 4, 12);
    } else {
      SliceRest(t, 0, 4);
    }
  }

  /** The trailing fields of a 1.1 to 1.3 record give back the tokens after the lead fields. */
  lemma TypedTailFields(r: Record, lead: seq<string>, k: nat, t: seq<string>)
    requires AreTokens(t) && TypedShape(r, lead, k, t)
    ensures Fields(r, ["DATA", "ERROR", "EVENT"]) == Rest(t, |lead|)
  {
    FieldsThree(r, "DATA", "ERROR", "EVENT");
    if t[k] == "Rx" || t[k] == "Tx" {
      assert FieldOf(r, "DATA") + FieldOf(r, "ERROR") + FieldOf(r, "EVENT") == Rest(t, |lead|) + [] + [];
    } else {
      TypedInfoFields(r, t, |lead|);
    }
  }

  lemma TypedInfoFields(r: Record, t: seq<string>, n: nat)
    requires AreTokens(t) && "DATA" !in r && "ERROR" in r && r["ERROR"] == Lst(Slice(t, n, n + 4))
    requires "EVENT" in r && r["EVENT"] == Str(Join(Rest(t, n + 4)))
    ensures FieldOf(r, "DATA") + FieldOf(r, "ERROR") + FieldOf(r, "EVENT") == Rest(t, n)
  {
    ErrorEventFieldsAt(r, Slice(t, n, n + 4), t, n + 4);
    SliceThenRest(t, n, n + 4);
  }

  /**
   * A 1.1 to 1.3 record loses no token: the lead fields, `DATA`, `ERROR` and the split
   * `EVENT`, read in that order, are the line's tokens.
   */
  lemma TypedRecordLossless(r: Record, lead: seq<string>, k: nat, t: seq<string>)
    requires TypedLead(lead, k) && AreTokens(t) && TypedShape(r, lead, k, t)
    ensures Fields(r, lead + ["DATA", "ERROR", "EVENT"]) == t
  {
    FieldsLead(r, lead, t);
    FieldsAppend(r, lead, ["DATA", "ERROR", "EVENT"]);
    TypedTailFields(r, lead, k, t);
    SplitAt(t, |lead|);
  }

  /** A version 2.0 record loses no token: its fields, read in the order of `ReadOrder(V20)`, are the line's tokens. */
  lemma Record20Lossless(r: Record, t: seq<string>)
    requires AreTokens(t) && Shape20(r, t)
    ensures Fields(r, ReadOrder(V20)) == t
  {
    Fields20(r);
    if t[2] in InfoTypes {
      Info20Fields(r, t);
      Info20Lossless(r, t);
    } else {
      Frame20Lossless(r, t);
    }
  }

  /** The version 2.0 read order is the lead and the frame columns, then `DATA`, then `ERROR`. */
  lemma Fields20(r: Record)
    ensures Fields(r, ReadOrder(V20)) == Fields(r, Lead20 + Tail20) + FieldOf(r, "DATA") + FieldOf(r, "ERROR")
  {
    FieldsAppend(r, Lead20 + Tail20, ["DATA", "ERROR"]);
    FieldsTwo(r, "DATA", "ERROR");
  }

  lemma Frame20Lossless(r: Record, t: seq<string>)
    requires AreTokens(t) && HoldsLead(r, Lead20 + Tail20, t)
    requires "DATA" in r && r["DATA"] == Lst(Rest(t, 6)) && "ERROR" !in r
    ensures Fields(r, Lead20 + Tail20) + FieldOf(r, "DATA") + FieldOf(r, "ERROR") == t
  {
    FieldsLead(r, Lead20 + Tail20, t);
    SplitAt(t, 6);
  }

  /** The lead and the one `DIRECTION` token of a status or error record. */
  lemma Info20Fields(r: Record, t: seq<string>)
    requires AreTokens(t) && |t| >= 4 && HoldsLead(r, Lead20, t)
    requires "DIRECTION" in r && r["DIRECTION"] == Str(t[3])
    ensures Fields(r, Lead20) == t[..3] && FieldOf(r, "DIRECTION") == [t[3]]
  {
    FieldsLead(r, Lead20, t);
    SplitToken(t[3]);
  }

  lemma Info20Lossless(r: Record, t: seq<string>)
    requires |t| >= 4 && Fields(r, Lead20) == t[..3]
    requires FieldOf(r, "ID") == [] && FieldOf(r, "DIRECTION") == [t[3]] && FieldOf(r, "LENGTH") == []
    requires FieldOf(r, "DATA") == [] && FieldOf(r, "ERROR") == t[4..]
    ensures Fields(r, Lead20 + Tail20) + FieldOf(r, "DATA") + FieldOf(r, "ERROR") == t
  {
    FieldsAppend(r, Lead20, Tail20);
    FieldsThree(r, "ID", "DIRECTION", "LENGTH");
    assert t == t[..3] + [t[3]] + t[4..];
  }

  /** A version 2.1 record loses no token: its fields, read in the order of `ReadOrder(V21)`, are the line's tokens. */
  lemma Record21Lossless(r: Record, t: seq<string>)
    requires AreTokens(t) && Shape21(r, t)
    ensures Fields(r, ReadOrder(V21)) == t
  {
    Names21();
    FieldsAppend(r, Lead21 + Tail21, ["DATA", "ERROR", "EVENT"]);
    FieldsThree(r, "DATA", "ERROR", "EVENT");
    if t[2] == "EV" {
      Event21Lead(r, t);
      EventOnlyFields(r, t, 4);
      SplitAt(t, 4);
    } else {
      FieldsLead(r, Lead21 + Tail21, t);
      Frame21Tail(r, t);
      SplitAt(t, 8);
    }
  }

  /** An event record's only trailing field is the joined `EVENT` text, which splits back into the rest of the line. */
  lemma EventOnlyFields(r: Record, t: seq<string>, n: nat)
    requires AreTokens(t) && "DATA" !in r && "ERROR" !in r && "EVENT" in r && r["EVENT"] == Str(Join(Rest(t, n)))
    ensures FieldOf(r, "DATA") + FieldOf(r, "ERROR") + FieldOf(r, "EVENT") == Rest(t, n)
  {
    RestTokens(t, n);
    JoinedField(r, "EVENT", Rest(t, n));
  }

  lemma Event21Lead(r: Record, t: seq<string>)
    requires AreTokens(t) && HoldsLead(r, Lead21, t) && forall i :: 0 <= i < |Tail21| ==> Tail21[i] !in r
    ensures Fields(r, Lead21 + Tail21) == Slice(t, 0, 4)
  {
    Names21();
    FieldsAppend(r, Lead21, Tail21);
    FieldsLead(r, Lead21, t);
    FieldsLead(r, Tail21, []);
  }

  lemma Frame21Tail(r: Record, t: seq<string>)
    requires "EVENT" !in r
    requires ("DATA" !in r && "ERROR" in r && r["ERROR"] == Lst(Rest(t, 8)))
          || ("ERROR" !in r && "DATA" in r && r["DATA"] == Lst(Rest(t, 8)))
    ensures FieldOf(r, "DATA") + FieldOf(r, "ERROR") + FieldOf(r, "EVENT") == Rest(t, 8)
  {
  }

  // ---------------------------------------------------------------- parse, every version

  /** The lines the grammar for `d` parses without raising. */
  predicate Accepted(d: Version, t: seq<string>) {
    match d
    case V10 => |t| >= 3 && (t[2] == ErrorId || |t| >= 5)
    case V11 => |t| >= 3
    case V12 | V13 => |t| >= 4
    case V20 => |t| >= 3 && (t[2] in InfoTypes ==> |t| >= 4)
    case V21 => |t| >= 3
  }

  /** What the grammar for `d` raises on a line it does not accept. */
  function Rejection(d: Version, t: seq<string>): Error {
    match d
    case V10 => if |t| < 3 then MissingKey("ID") else Exhausted
    case V20 => if |t| < 3 then MissingKey("TYPE") else Exhausted
    case _ => MissingKey("TYPE")
  }

  /** Each grammar parses exactly the lines `Accepted` describes and raises `Rejection` on the others. */
  lemma ParseAccepts(d: Version, t: seq<string>)
    ensures Parse(d, t).Success? <==> Accepted(d, t)
    ensures Parse(d, t).Failure? ==> Parse(d, t).error == Rejection(d, t)
  {
    TypedLeads();
    match d
    case V10 => Parse10Accepts(t);
    case V11 => ParseTypedAccepts(Lead11, 2, t);
    case V12 => ParseTypedAccepts(Lead12, 3, t);
    case V13 => ParseTypedAccepts(Lead13, 3, t);
    case V20 => Parse20Accepts(t);
    case V21 => Parse21Accepts(t);
  }

  /** The record the grammar for `d` builds from `t`. */
  predicate Shaped(d: Version, r: Record, t: seq<string>) {
    match d
    case V10 => Shape10(r, t)
    case V11 => TypedShape(r, Lead11, 2, t)
    case V12 => TypedShape(r, Lead12, 3, t)
    case V13 => TypedShape(r, Lead13, 3, t)
    case V20 => Shape20(r, t)
    case V21 => Shape21(r, t)
  }

  /** A parsed record has the shape of its version and no field outside `ReadOrder(d)`. */
  lemma ParseShape(d: Version, t: seq<string>)
    requires Parse(d, t).Success?
    ensures Shaped(d, Parse(d, t).value, t) && Within(Parse(d, t).value, ReadOrder(d))
  {
    TypedLeads();
    match d
    case V10 => Parse10Shape(t);
    case V11 => ParseTypedShape(Lead11, 2, t);
    case V12 => ParseTypedShape(Lead12, 3, t);
    case V13 => ParseTypedShape(Lead13, 3, t);
    case V20 => Parse20Shape(t);
    case V21 => Parse21Shape(t);
  }

  /** From version 1.1 on, parsing loses no token: the record's fields, read in `ReadOrder(d)`, give back the line. */
  lemma ParseLossless(d: Version, t: seq<string>)
    requires d != V10 && AreTokens(t) && Parse(d, t).Success?
    ensures Fields(Parse(d, t).value, ReadOrder(d)) == t
  {
    ParseShape(d, t);
    TypedLeads();
    var r := Parse(d, t).value;
    match d
    case V11 => TypedRecordLossless(r, Lead11, 2, t);
    case V12 => TypedRecordLossless(r, Lead12, 3, t);
    case V13 => TypedRecordLossless(r, Lead13, 3, t);
    case V20 => Record20Lossless(r, t);
    case V21 => Record21Lossless(r, t);
  }

  /**
   * Version 1.0 loses only the `--` placeholders of an error frame and the word `ERROR`
   * that introduces an error; a line with neither comes back whole.
   */
  lemma Parse10Lossless(t: seq<string>)
    requires AreTokens(t) && Parse10(t).Success?
    ensures Accepted(V10, t)
    ensures Fields(Parse10(t).value, ReadOrder(V10)) == Slice(t, 0, 4) + Tokens10(t)
    ensures (t[2] == ErrorId ==> "--" !in Slice(t, 4, 12)) && (t[2] != ErrorId ==> t[4] != "ERROR") ==>
      Fields(Parse10(t).value, ReadOrder(V10)) == t
  {
    Parse10Accepts(t);
    Parse10Shape(t);
    Record10Lossless(Parse10(t).value, t);
    if (t[2] == ErrorId ==> "--" !in Slice(t, 4, 12)) && (t[2] != ErrorId ==> t[4] != "ERROR") {
      Tokens10Whole(t);
    }
  }

  // ---------------------------------------------------------------- is_msg on parsed records

  /** The types 2.0 and 2.1 do not count as messages: status, error and remote-request records. */
  const NonMessageTypes: set<string> := {"ST", "ER", "EC", "RR"}

  /**
   * Whether line `t` is a message, read off its tokens alone: for 1.0 an error frame with no
   * error bytes, an `ERROR` frame with no bytes after the word, or a frame whose first data
   * token is not `RTR`; for 1.1 to 1.3 see `TypedClassify`; for 2.x any type outside
   * `NonMessageTypes` (and, for 2.1, other than `EV`).
   */
  function Classify(d: Version, t: seq<string>): bool
    requires Accepted(d, t)
  {
    match d
    case V10 =>
      if t[2] == ErrorId then WithoutPlaceholders(Slice(t, 4, 12)) == []
      else if t[4] == "ERROR" then |t| == 5
      else t[4] != "RTR"
    case V11 => TypedClassify(5, t[2], t)
    case V12 => TypedClassify(6, t[3], t)
    case V13 => TypedClassify(7, t[3], t)
    case V20 => t[2] !in NonMessageTypes
    case V21 => t[2] != "EV" && t[2] !in NonMessageTypes
  }

  /** For 1.1 to 1.3 with `n` lead fields: an `Rx`/`Tx` frame unless its first data token is `RTR`; any other type only without a token after the lead. */
  function TypedClassify(n: nat, ty: string, t: seq<string>): bool {
    if ty == "Rx" || ty == "Tx" then |t| <= n || t[n] != "RTR" else |t| <= n
  }

  /** The 1.x `is_msg`, as written and corrected, on a version 1.0 record: the code never fails there, since `DATA` always holds a token. */
  lemma Shape10IsMsg(r: Record, t: seq<string>)
    requires Shape10(r, t)
    ensures IsMsg10AsWritten(r) == Success(Classify(V10, t))
    ensures IsMsg10(r) == Classify(V10, t)
  {
  }

  /**
   * The 1.x `is_msg` on a 1.1 to 1.3 record: the corrected rule follows `TypedClassify`; the
   * code as written agrees except on an `Rx`/`Tx` frame with no data token, where `data[0]` fails.
   */
  lemma TypedIsMsg(r: Record, lead: seq<string>, k: nat, t: seq<string>)
    requires TypedLead(lead, k) && TypedShape(r, lead, k, t)
    ensures IsMsg10(r) == TypedClassify(|lead|, t[k], t)
    ensures IsMsg10AsWritten(r) ==
      if (t[k] == "Rx" || t[k] == "Tx") && |t| <= |lead| then Failure(EmptyIndexed)
      else Success(TypedClassify(|lead|, t[k], t))
  {
  }

  lemma Shape20IsMsg(r: Record, t: seq<string>)
    requires Shape20(r, t)
    ensures IsMsg20(r) == Success(Classify(V20, t))
  {
    Names20();
    if t[2] in InfoTypes {
      LeadAt(r, Lead20, t, 2);
    } else {
      LeadAt(r, Lead20 + Tail20, t, 2);
    }
  }

  lemma Shape21IsMsg(r: Record, t: seq<string>)
    requires Shape21(r, t)
    ensures IsMsg21(r) == Success(Classify(V21, t))
  {
    Names21();
    if t[2] == "EV" {
      LeadAt(r, Lead21, t, 2);
    } else {
      LeadAt(r, Lead21 + Tail21, t, 2);
    }
  }

  /** On every parsed record, `is_msg` (with the corrected 1.x rule) answers what `Classify` reads off the line. */
  lemma ParsedIsMsg(d: Version, t: seq<string>)
    requires Parse(d, t).Success?
    ensures Accepted(d, t) && IsMsg(d, Parse(d, t).value) == Success(Classify(d, t))
  {
    ParseAccepts(d, t);
    ParseShape(d, t);
    TypedLeads();
    var r := Parse(d, t).value;
    match d
    case V10 => Shape10IsMsg(r, t);
    case V11 => TypedIsMsg(r, Lead11, 2, t);
    case V12 => TypedIsMsg(r, Lead12, 3, t);
    case V13 => TypedIsMsg(r, Lead13, 3, t);
    case V20 => Shape20IsMsg(r, t);
    case V21 => Shape21IsMsg(r, t);
  }

  /** `CanTrace11.is_msg` as written raises on an `Rx` line that ends after `LENGTH`; the corrected rule calls it a message. */
  lemma EmptyFrameFails()
    ensures var t := ["1)", "0.1", "Rx", "0100", "0"];
      && Parse(V11, t).Success?
      && IsMsg10AsWritten(Parse(V11, t).value) == Failure(EmptyIndexed)
      && IsMsg(V11, Parse(V11, t).value) == Success(true)
  {
    var t := ["1)", "0.1", "Rx", "0100", "0"];
    TypedLeads();
    ParseTypedAccepts(Lead11, 2, t);
    ParseTypedShape(Lead11, 2, t);
    TypedIsMsg(Parse(V11, t).value, Lead11, 2, t);
  }

  // ---------------------------------------------------------------- list fields and expand

  /** Only `DATA` and `ERROR` hold lists; every other field is a string. */
  predicate ListsAreDataAndError(r: Record) {
    forall k :: k in r ==> (r[k].Lst? <==> k == "DATA" || k == "ERROR")
  }

  lemma Lists10(r: Record, t: seq<string>)
    requires Shape10(r, t) && Within(r, ReadOrder(V10))
    ensures ListsAreDataAndError(r)
  {
    Names10();
    forall k | k in r ensures r[k].Lst? <==> k == "DATA" || k == "ERROR" {
      if k in Lead10 {
        LeadScalar(r, Lead10, t, k);
      }
    }
  }

  lemma ListsTyped(r: Record, lead: seq<string>, k: nat, t: seq<string>)
    requires TypedLead(lead, k) && TypedShape(r, lead, k, t) && Within(r, lead + ["DATA", "ERROR", "EVENT"])
    ensures ListsAreDataAndError(r)
  {
    forall n | n in r ensures r[n].Lst? <==> n == "DATA" || n == "ERROR" {
      if n in lead {
        LeadScalar(r, lead, t, n);
      }
    }
  }

  lemma Lists20(r: Record, t: seq<string>)
    requires Shape20(r, t) && Within(r, ReadOrder(V20))
    ensures ListsAreDataAndError(r)
  {
    Names20();
    forall k | k in r ensures r[k].Lst? <==> k == "DATA" || k == "ERROR" {
      if t[2] in InfoTypes {
        if k in Lead20 {
          LeadScalar(r, Lead20, t, k);
        }
      } else if k in Lead20 + Tail20 {
        LeadScalar(r, Lead20 + Tail20, t, k);
      }
    }
  }

  lemma Lists21(r: Record, t: seq<string>)
    requires Shape21(r, t) && Within(r, ReadOrder(V21))
    ensures ListsAreDataAndError(r)
  {
    Names21();
    forall k | k in r ensures r[k].Lst? <==> k == "DATA" || k == "ERROR" {
      if t[2] == "EV" {
        if k in Lead21 {
          LeadScalar(r, Lead21, t, k);
        }
      } else if k in Lead21 + Tail21 {
        LeadScalar(r, Lead21 + Tail21, t, k);
      }
    }
  }

  /** Every parsed record holds lists under `DATA` and `ERROR` only, and `expand` flattens it without collisions. */
  lemma ParsedLists(d: Version, t: seq<string>)
    requires Parse(d, t).Success?
    ensures ListsAreDataAndError(Parse(d, t).value) && ExpandSafe(Parse(d, t).value)
  {
    ParseShape(d, t);
    TypedLeads();
    var r := Parse(d, t).value;
    match d {
      case V10 => Lists10(r, t);
      case V11 => ListsTyped(r, Lead11, 2, t);
      case V12 => ListsTyped(r, Lead12, 3, t);
      case V13 => ListsTyped(r, Lead13, 3, t);
      case V20 => Lists20(r, t);
      case V21 => Lists21(r, t);
    }
    NoDigitNames(d);
    WithinSafe(r, ReadOrder(d));
  }

  // ---------------------------------------------------------------- keys against records

  /** The header entries after the data and error columns. */
  function KeyTail(d: Version): seq<string> {
    if d == V20 then [] else ["EVENT"]
  }

  /** No grammar's header repeats a column, expanded or not. */
  lemma KeysDistinct(d: Version, expand: bool)
    ensures Distinct(Keys(d, expand))
    ensures |Keys(d, expand)| == |KeyLead(d)| + |KeyData(d, expand)| + |KeyError(d, expand)| + |KeyTail(d)|
  {
    NoDigitKeys(d);
    if expand {
      HeaderDistinct(KeyLead(d), "DATA", DataMax(d), "ERROR", ErrorMax(d), KeyTail(d));
    }
  }

  /** Without expansion, the header lists the fields in the order parsing fills them, for every version but 1.3 and 2.1. */
  lemma KeysReadOrder(d: Version)
    requires d != V13 && d != V21
    ensures Keys(d, false) == ReadOrder(d)
  {
  }

  /** The header of 1.3, inherited from 1.2, leaves out the `REVERSED` field its `parse` fills. */
  lemma KeysOmitReversed(t: seq<string>, expand: bool)
    ensures "REVERSED" !in Keys(V13, expand)
    ensures |t| >= 6 ==> Parse(V13, t).Success? && "REVERSED" in Parse(V13, t).value
  {
    NoDigitKeys(V13);
    KeyNotColumn(V13, expand, "REVERSED");
    if |t| >= 6 {
      TypedLeads();
      ParseTypedAccepts(Lead13, 3, t);
      ParseTypedShape(Lead13, 3, t);
      LeadAt(Parse(V13, t).value, Lead13, t, 5);
    }
  }

  /** The header of 2.1 leaves out the `RESERVED` field its `parse` fills for every record but an event. */
  lemma KeysOmitReserved(t: seq<string>, expand: bool)
    ensures "RESERVED" !in Keys(V21, expand)
    ensures |t| >= 7 && t[2] != "EV" ==> Parse(V21, t).Success? && "RESERVED" in Parse(V21, t).value
  {
    NoDigitKeys(V21);
    KeyNotColumn(V21, expand, "RESERVED");
    if |t| >= 7 && t[2] != "EV" {
      Shape21Frame(t);
      Names21();
      LeadAt(Parse(V21, t).value, Lead21 + Tail21, t, 6);
    }
  }

  /** A name that ends in a letter is no expanded column; so it is a column of `Keys(d, expand)` only if it is a fixed one. */
  lemma KeyNotColumn(d: Version, expand: bool, n: string)
    requires !EndsWithDigit(n) && n != "DATA" && n != "ERROR"
    ensures n in Keys(d, expand) <==> n in KeyLead(d) + KeyTail(d)
  {
    var h := Keys(d, expand);
    if n in h {
      var p :| 0 <= p < |h| && h[p] == n;
      if expand {
        HeaderEntry(KeyLead(d), "DATA", DataMax(d), "ERROR", ErrorMax(d), KeyTail(d), p);
      }
    }
  }

  /**
   * Outside 1.3 and 2.1, every column `expand` gives a parsed record is a column of
   * `keys(expand=True)`, as long as `DATA` and `ERROR` fit in `DATA_MAX` and `ERROR_MAX`.
   */
  lemma ColumnsInHeader(d: Version, t: seq<string>)
    requires d != V13 && d != V21 && Parse(d, t).Success?
    requires |ListOf(Parse(d, t).value, "DATA")| <= DataMax(d) && |ListOf(Parse(d, t).value, "ERROR")| <= ErrorMax(d)
    ensures var r := Parse(d, t).value;
      forall k :: k in ScalarKeys(r) + ExpandedKeys(r, r.Keys) ==> k in Keys(d, true)
  {
    var r := Parse(d, t).value;
    ParseShape(d, t);
    ParsedLists(d, t);
    forall k | k in ScalarKeys(r) ensures k in Keys(d, true) {
      ScalarInHeader(d, k);
    }
    forall k | k in ExpandedKeys(r, r.Keys) ensures k in Keys(d, true) {
      var k0, i :| k0 in r.Keys && k0 in r && r[k0].Lst? && 0 <= i < |r[k0].l| && k == Key(k0, i);
      ColumnInHeader(d, k0, i);
    }
  }

  lemma ScalarInHeader(d: Version, k: string)
    requires d != V13 && d != V21 && k in ReadOrder(d) && k != "DATA" && k != "ERROR"
    ensures k in Keys(d, true)
  {
    NoDigitKeys(d);
    KeysReadOrder(d);
    KeyNotColumn(d, false, k);
    KeyNotColumn(d, true, k);
  }

  lemma ColumnInHeader(d: Version, k: string, i: nat)
    requires (k == "DATA" && i < DataMax(d)) || (k == "ERROR" && i < ErrorMax(d))
    ensures Key(k, i) in Keys(d, true)
  {
    var a := |KeyLead(d)|;
    if k == "DATA" {
      HeaderEntry(KeyLead(d), "DATA", DataMax(d), "ERROR", ErrorMax(d), KeyTail(d), a + i);
    } else {
      HeaderEntry(KeyLead(d), "DATA", DataMax(d), "ERROR", ErrorMax(d), KeyTail(d), a + DataMax(d) + i);
    }
  }

  lemma NoDigitKeys(d: Version)
    ensures Distinct(KeyLead(d) + KeyTail(d)) && NoDigitEnd(KeyLead(d) + KeyTail(d))
    ensures !EndsWithDigit("DATA") && !EndsWithDigit("ERROR")
    ensures Keys(d, true) == KeyLead(d) + Columns("DATA", DataMax(d)) + Columns("ERROR", ErrorMax(d)) + KeyTail(d)
  {
  }

  lemma NoDigitNames(d: Version)
    ensures NoDigitEnd(ReadOrder(d))
  {
  }

  // The facts about the field-name constants the proofs above use, each proved once.

  lemma Names10()
    ensures Distinct(Lead10) && Lead10[2] == "ID"
    ensures "DATA" !in Lead10 && "ERROR" !in Lead10 && "EVENT" !in Lead10
    ensures "DATA" in ReadOrder(V10) && "ERROR" in ReadOrder(V10) && "EVENT" in ReadOrder(V10)
    ensures forall i :: 0 <= i < |Lead10| ==> Lead10[i] in ReadOrder(V10)
  {
  }

  lemma Names20()
    ensures Distinct(Lead20) && Distinct(Tail20) && Distinct(Lead20 + Tail20)
    ensures Lead20[2] == "TYPE" && (Lead20 + Tail20)[2] == "TYPE"
    ensures "DATA" !in Lead20 + Tail20 && "ERROR" !in Lead20 + Tail20 && "EVENT" !in Lead20 + Tail20
    ensures "ID" !in Lead20 && "DIRECTION" !in Lead20 && "LENGTH" !in Lead20
    ensures "DATA" !in Lead20 && "ERROR" !in Lead20 && "EVENT" !in Lead20
    ensures "DATA" in ReadOrder(V20) && "ERROR" in ReadOrder(V20) && "DIRECTION" in ReadOrder(V20)
    ensures forall i :: 0 <= i < |Lead20 + Tail20| ==> (Lead20 + Tail20)[i] in ReadOrder(V20)
    ensures forall i :: 0 <= i < |Lead20| ==> Lead20[i] in ReadOrder(V20)
  {
  }

  lemma Names21()
    ensures Distinct(Lead21) && Distinct(Tail21) && Distinct(Lead21 + Tail21)
    ensures Lead21[2] == "TYPE" && (Lead21 + Tail21)[2] == "TYPE"
    ensures "DATA" !in Lead21 + Tail21 && "ERROR" !in Lead21 + Tail21 && "EVENT" !in Lead21 + Tail21
    ensures "DATA" !in Lead21 && "ERROR" !in Lead21 && "EVENT" !in Lead21
    ensures forall i :: 0 <= i < |Tail21| ==> Tail21[i] !in Lead21 && Tail21[i] != "EVENT"
    ensures "DATA" in ReadOrder(V21) && "ERROR" in ReadOrder(V21) && "EVENT" in ReadOrder(V21)
    ensures forall i :: 0 <= i < |Lead21 + Tail21| ==> (Lead21 + Tail21)[i] in ReadOrder(V21)
    ensures forall i :: 0 <= i < |Lead21| ==> Lead21[i] in ReadOrder(V21)
  {
  }
}
