/**
 * The pure helpers of the tabular layer: CAN identifier formatting (`Id`), signal extraction
 * (`get_signal`), the byte-list decoding inside `to_int` (`hextoint`) and the column layout and
 * frame-type lists of the converter's CSV output (`CanCsv`).
 */
module PdCan {
  import opened Errors
  import opened Text
  import Message
  import CanTrace

  // ---------------------------------------------------------------- powers and mixed-radix arithmetic

  function Pow(base: nat, n: nat): (p: nat)
    ensures base > 0 ==> p > 0
  {
    if n == 0 then 1 else base * Pow(base, n - 1)
  }

  lemma {:induction false} PowAdd(base: nat, a: nat, b: nat)
    ensures Pow(base, a + b) == Pow(base, a) * Pow(base, b)
  {
    if a > 0 {
      PowAdd(base, a - 1, b);
      assert Pow(base, a + b) == base * Pow(base, a - 1 + b);
    }
  }

  /** Sixteen to an even power is a power of 256: two hex digits make one byte. */
  lemma {:induction false} PowHexBytes(k: nat)
    ensures Pow(16, 2 * k) == Pow(256, k)
  {
    if k > 0 {
      PowHexBytes(k - 1);
      assert Pow(16, 2 * k) == 16 * (16 * Pow(16, 2 * (k - 1)));
    }
  }

  lemma {:induction false} MulGe(k: int, d: int)
    requires k >= 1 && d >= 0
    ensures k * d >= d
    decreases k
  {
    if k > 1 {
      MulGe(k - 1, d);
      assert k * d == (k - 1) * d + d;
    }
  }

  /** Euclidean division is determined by quotient and remainder. */
  lemma DivModUnique(x: int, d: int, q: int, r: int)
    requires d > 0 && 0 <= r < d && x == q * d + r
    ensures x / d == q && x % d == r
  {
    var q0, r0 := x / d, x % d;
    assert (q0 - q) * d == r - r0;
    if q0 > q {
      MulGe(q0 - q, d);
    } else if q0 < q {
      MulGe(q - q0, d);
    }
  }

  /** Dividing by `a` and then by `b` is dividing by `a * b`; the remainders nest accordingly. */
  lemma MixedRadix(x: int, a: int, b: int)
    requires a > 0 && b > 0
    ensures x / a / b == x / (a * b)
    ensures x % (a * b) / a == x / a % b
    ensures x % (a * b) % a == x % a
  {
    var q1, r1 := x / a, x % a;
    var q2, r2 := q1 / b, q1 % b;
    assert r2 * a <= (b - 1) * a by { if r2 < b - 1 { MulGe(b - 1 - r2, a); assert (b - 1) * a - r2 * a == (b - 1 - r2) * a; } }
    assert (b - 1) * a == a * b - a;
    assert x == q2 * (a * b) + (r2 * a + r1) by {
      assert q1 * a == (q2 * b + r2) * a;
      assert (q2 * b + r2) * a == q2 * (a * b) + r2 * a;
    }
    DivModUnique(x, a * b, q2, r2 * a + r1);
    DivModUnique(r2 * a + r1, a, r2, r1);
  }

  /** One more digit appended to a two-part positional value. */
  lemma Horner(h: int, p: int, t: int, base: int, d: int)
    ensures (h * p + t) * base + d == h * (p * base) + (t * base + d)
  {
  }

  // ---------------------------------------------------------------- hexadecimal text

  predicate IsHexDigit(c: char) {
    '0' <= c <= '9' || 'A' <= c <= 'F' || 'a' <= c <= 'f'
  }

  predicate AllHex(s: string) {
    forall i :: 0 <= i < |s| ==> IsHexDigit(s[i])
  }

  /** No lower-case digit: the form `format(n, 'X')` writes. */
  predicate UpperHex(s: string) {
    forall i :: 0 <= i < |s| ==> IsHexDigit(s[i]) && !('a' <= s[i] <= 'f')
  }

  function DigitValue(c: char): (v: nat)
    requires IsHexDigit(c)
    ensures v < 16
  {
    if c <= '9' then c as int - '0' as int
    else if c <= 'F' then c as int - 'A' as int + 10
    else c as int - 'a' as int + 10
  }

  /** The upper-case digit for `d`. */
  function HexChar(d: nat): (c: char)
    requires d < 16
    ensures IsHexDigit(c) && !('a' <= c <= 'f') && DigitValue(c) == d
  {
    if d < 10 then ('0' as int + d) as char else ('A' as int + d - 10) as char
  }

  /** The value of a string of hex digits, most significant first; leading zeros are allowed. */
  function HexValue(s: string): nat
    requires AllHex(s)
  {
    if s == [] then 0 else HexValue(s[..|s| - 1]) * 16 + DigitValue(s[|s| - 1])
  }

  /** `f'{n:X}'`: upper-case hex without leading zeros. */
  function Hex(n: nat): (s: string)
    ensures s != [] && UpperHex(s) && AllHex(s)
  {
    if n < 16 then [HexChar(n)] else Hex(n / 16) + [HexChar(n % 16)]
  }

  function Zeros(k: nat): (s: string)
    ensures |s| == k && UpperHex(s) && AllHex(s)
  {
    seq(k, i => '0')
  }

  /** `f'{n:0{w}X}'`: `Hex(n)` left-padded with zeros to at least `w` digits. */
  function PadHex(n: nat, w: nat): string {
    Zeros(if w > |Hex(n)| then w - |Hex(n)| else 0) + Hex(n)
  }

  lemma {:induction false} HexValueOf(n: nat)
    ensures HexValue(Hex(n)) == n
    ensures |Hex(n)| == 1 || Hex(n)[0] != '0'
  {
    if n >= 16 {
      var s := Hex(n);
      assert s[..|s| - 1] == Hex(n / 16);
      HexValueOf(n / 16);
    }
  }

  /** Leading zeros do not change a hex value. */
  lemma {:induction false} ZerosValue(k: nat, s: string)
    requires AllHex(s)
    ensures HexValue(Zeros(k) + s) == HexValue(s)
    decreases |s|, k
  {
    if s == [] {
      assert Zeros(k) + s == Zeros(k);
      if k > 0 {
        assert Zeros(k)[..k - 1] == Zeros(k - 1) + [];
        ZerosValue(k - 1, []);
      }
    } else {
      var u := Zeros(k) + s;
      assert u[..|u| - 1] == Zeros(k) + s[..|s| - 1];
      ZerosValue(k, s[..|s| - 1]);
    }
  }

  /** The value of a concatenation of hex strings. */
  lemma {:induction false} HexValueAppend(s: string, t: string)
    requires AllHex(s) && AllHex(t)
    ensures HexValue(s + t) == HexValue(s) * Pow(16, |t|) + HexValue(t)
    decreases |t|
  {
    if t == [] {
      assert s + t == s;
    } else {
      var t' := t[..|t| - 1];
      assert (s + t)[..|s + t| - 1] == s + t';
      HexValueAppend(s, t');
      var d := DigitValue(t[|t| - 1]);
      Horner(HexValue(s), Pow(16, |t'|), HexValue(t'), 16, d);
    }
  }

  lemma PadHexShape(n: nat, w: nat)
    ensures UpperHex(PadHex(n, w)) && AllHex(PadHex(n, w))
    ensures |PadHex(n, w)| == if w > |Hex(n)| then w else |Hex(n)|
    ensures HexValue(PadHex(n, w)) == n
  {
    HexValueOf(n);
    ZerosValue(if w > |Hex(n)| then w - |Hex(n)| else 0, Hex(n));
  }

  /**
   * `int(s, 16)` on the inputs the model admits: an optional `0x`/`0X` prefix followed by at least one
   * hex digit. Anything else is rejected with the literal, as Python's `ValueError` is.
   */
  function ParseHex(s: string): Result<nat> {
    var digits := HexBody(s);
    if digits != [] && AllHex(digits) then Success(HexValue(digits)) else Failure(InvalidLiteral(s))
  }

  /** `s` without its `0x` base prefix, if it has one. */
  function HexBody(s: string): string {
    if |s| >= 2 && s[0] == '0' && (s[1] == 'x' || s[1] == 'X') then s[2..] else s
  }

  // ---------------------------------------------------------------- Id

  /** The two argument forms `Id` accepts: an integer, or a string read as base 16. */
  datatype Identifier = Number(n: nat) | HexString(s: string)

  /** Standard identifiers are written with 4 digits, extended (29-bit) ones with 8. */
  function Width(extended: bool): nat {
    if extended then 8 else 4
  }

  /** The numeric value of an identifier argument (a string is read with `int(s, 16)`). */
  function IdValue(id: Identifier): Result<nat> {
    match id
    case Number(n) => Success(n)
    case HexString(s) => ParseHex(s)
  }

  /** `Id(identifier, extended)`: upper-case hex of the identifier, zero-padded to the width. */
  function Id(id: Identifier, extended: bool): (r: Result<string>)
    ensures r.Success? <==> IdValue(id).Success?
    ensures r.Failure? ==> r.error == IdValue(id).error
  {
    match IdValue(id)
    case Success(n) => Success(PadHex(n, Width(extended)))
    case Failure(e) => Failure(e)
  }

  /** What `Id` produces: upper-case hex of at least the width, holding the identifier's value, without an unneeded leading zero. */
  lemma IdFormat(id: Identifier, extended: bool)
    requires IdValue(id).Success?
    ensures var r := Id(id, extended).value;
      && UpperHex(r) && |r| >= Width(extended) && HexValue(r) == IdValue(id).value
      && (|r| > Width(extended) ==> r[0] != '0')
  {
    var n := IdValue(id).value;
    PadHexShape(n, Width(extended));
    HexValueOf(n);
  }

  /** Formatting is idempotent: the formatted string, passed back in, re-parses to the same identifier. */
  lemma IdIdempotent(id: Identifier, extended: bool)
    requires Id(id, extended).Success?
    ensures Id(HexString(Id(id, extended).value), extended) == Id(id, extended)
  {
    var n := IdValue(id).value;
    var r := PadHex(n, Width(extended));
    PadHexShape(n, Width(extended));
    assert HexBody(r) == r by {
      if |r| >= 2 {
        assert IsHexDigit(r[1]);
      }
    }
  }

  /** Padding to 8 digits is padding to 4 digits plus four more zeros, while the value fits in 4 digits. */
  lemma IdExtended(id: Identifier)
    requires Id(id, false).Success? && |Id(id, false).value| == 4
    ensures Id(id, true) == Success("0000" + Id(id, false).value)
  {
    var n := IdValue(id).value;
    assert |PadHex(n, 4)| == 4;
    PadWider(n);
  }

  lemma PadWider(n: nat)
    requires |Hex(n)| <= 4
    ensures PadHex(n, 8) == "0000" + PadHex(n, 4)
  {
    var h := Hex(n);
    assert Zeros(8 - |h|) == "0000" + Zeros(4 - |h|);
  }

  /** The documented examples of `Id` with an integer argument. */
  lemma IdNumberExamples()
    ensures Id(Number(291), false) == Success("0123") && Id(Number(291), true) == Success("00000123")
  {
    Hex291();
    assert Zeros(1) + "123" == "0123" && Zeros(5) + "123" == "00000123";
  }

  /** The documented examples of `Id` with a string argument, with and without the `0x` prefix and leading zeros. */
  lemma IdStringExamples()
    ensures Id(HexString("123"), false) == Success("0123") && Id(HexString("0x123"), true) == Success("00000123")
    ensures Id(HexString("00000123"), false) == Success("0123") && Id(HexString("0123"), true) == Success("00000123")
    ensures Id(HexString("123"), true) == Success("00000123") && Id(HexString("0x123"), false) == Success("0123")
  {
    IdNumberExamples();
    ParseExamples();
    SameValue(HexString("123"), Number(291), false);
    SameValue(HexString("0x123"), Number(291), true);
    SameValue(HexString("00000123"), Number(291), false);
    SameValue(HexString("0123"), Number(291), true);
    SameValue(HexString("123"), Number(291), true);
    SameValue(HexString("0x123"), Number(291), false);
  }

  /** `Id` depends on its argument only through the argument's value. */
  lemma SameValue(a: Identifier, b: Identifier, extended: bool)
    requires IdValue(a) == IdValue(b)
    ensures Id(a, extended) == Id(b, extended)
  {
  }

  /** The string arguments of the examples all read as 291. */
  lemma ParseExamples()
    ensures ParseHex("123") == Success(291) && ParseHex("0x123") == Success(291)
    ensures ParseHex("0123") == Success(291) && ParseHex("00000123") == Success(291)
  {
    Hex291();
    assert HexBody("123") == "123" && HexBody("0x123") == "123";
    LeadingZeros(1);
    LeadingZeros(5);
    assert Zeros(1) + "123" == "0123";
    assert Zeros(5) + "123" == "00000123";
  }

  /** `k` zeros before `123` still read as 291. */
  lemma LeadingZeros(k: nat)
    ensures ParseHex(Zeros(k) + "123") == Success(291)
  {
    Hex291();
    ZerosValue(k, "123");
    var s := Zeros(k) + "123";
    assert HexBody(s) == s by {
      if |s| >= 2 {
        assert IsHexDigit(s[1]);
      }
    }
  }

  /** 291 is written `123` in hex, and back. */
  lemma Hex291()
    ensures Hex(291) == "123" && HexValue("123") == 291
  {
    assert Hex(18) == "12" by { assert Hex(1) == "1"; }
    assert HexValue("12") == 18 by {
      assert "12"[..1] == "1" && "1"[..0] == "";
    }
    assert "123"[..2] == "12";
  }

  // ---------------------------------------------------------------- get_signal

  /** Bit `i` of `x` in two's complement: `(x >> i) & 1`. */
  function Bit(x: int, i: nat): int {
    x / Pow(2, i) % 2
  }

  /**
   * `get_signal(data, start_bit, bit_length)`: `(data >> start_bit) & (2**bit_length - 1)`.
   * Python's `>>` floors and `&` with a non-negative mask is a remainder, both of which Euclidean
   * division matches; a negative shift raises `ValueError`.
   */
  function GetSignal(data: int, startBit: int, bitLength: nat): (r: Result<int>)
    ensures r.Success? <==> startBit >= 0
    ensures r.Failure? ==> r.error == NegativeCount
    ensures r.Success? ==> 0 <= r.value < Pow(2, bitLength)
  {
    if startBit < 0 then Failure(NegativeCount) else Success(data / Pow(2, startBit) % Pow(2, bitLength))
  }

  /** The signal holds exactly the `bitLength` bits of `data` from `startBit` on, and nothing above them. */
  lemma SignalBits(data: int, startBit: nat, bitLength: nat, i: nat)
    ensures Bit(GetSignal(data, startBit, bitLength).value, i) == if i < bitLength then Bit(data, startBit + i) else 0
  {
    var x := data / Pow(2, startBit);
    ShiftBit(data, startBit, i);
    if i < bitLength {
      MaskBit(x, bitLength, i);
    } else {
      HighBit(x % Pow(2, bitLength), bitLength, i);
    }
  }

  /** Bit `i` of `x >> s` is bit `s + i` of `x`. */
  lemma ShiftBit(x: int, s: nat, i: nat)
    ensures Bit(x / Pow(2, s), i) == Bit(x, s + i)
  {
    PowAdd(2, s, i);
    MixedRadix(x, Pow(2, s), Pow(2, i));
  }

  /** Masking to `n` bits keeps every bit below `n`. */
  lemma MaskBit(x: int, n: nat, i: nat)
    requires i < n
    ensures Bit(x % Pow(2, n), i) == Bit(x, i)
  {
    var p, m := Pow(2, i), Pow(2, n - i - 1);
    PowAdd(2, i, n - i);
    assert Pow(2, n - i) == 2 * m;
    MixedRadix(x, p, 2 * m);
    MixedRadix(x / p, 2, m);
  }

  /** A value below `2^n` has no bit at `n` or above. */
  lemma HighBit(r: int, n: nat, i: nat)
    requires 0 <= r < Pow(2, n) && n <= i
    ensures Bit(r, i) == 0
  {
    PowAdd(2, n, i - n);
    MulGe(Pow(2, i - n), Pow(2, n));
    DivModUnique(r, Pow(2, i), 0, r);
  }

  /** A zero-width signal is zero. */
  lemma SignalEmpty(data: int, startBit: nat)
    ensures GetSignal(data, startBit, 0) == Success(0)
  {
  }

  // ---------------------------------------------------------------- hextoint

  type Byte = b: int | 0 <= b < 256

  /** The whitespace `bytes.fromhex` skips between byte pairs (ASCII only). */
  predicate IsAsciiSpace(c: char) {
    c == ' ' || '\t' <= c <= '\r'
  }

  /** The bytes `bytes.fromhex(s)` returns, or `None` when it raises. */
  function HexBytes(s: string): Option<seq<Byte>>
    decreases |s|
  {
    if s == [] then Some([])
    else if IsAsciiSpace(s[0]) then HexBytes(s[1..])
    else if |s| >= 2 && IsHexDigit(s[0]) && IsHexDigit(s[1]) then
      match HexBytes(s[2..])
      case Some(b) => Some([DigitValue(s[0]) * 16 + DigitValue(s[1])] + b)
      case None => None
    else None
  }

  /** `bytes.fromhex(s)`. */
  function FromHex(s: string): Result<seq<Byte>> {
    match HexBytes(s)
    case Some(b) => Success(b)
    case None => Failure(InvalidLiteral(s))
  }

  /** The non-empty strings of a row, in order: `s for s in hexlist if s`. */
  function NonEmpty(cells: seq<string>): (r: seq<string>)
    ensures forall i :: 0 <= i < |r| ==> r[i] != ""
  {
    if cells == [] then []
    else if cells[0] == "" then NonEmpty(cells[1..])
    else [cells[0]] + NonEmpty(cells[1..])
  }

  function Concat(cells: seq<string>): string {
    if cells == [] then "" else cells[0] + Concat(cells[1..])
  }

  /** `int.from_bytes(b, 'big')`. */
  function Big(b: seq<Byte>): nat {
    if b == [] then 0 else Big(b[..|b| - 1]) * 256 + b[|b| - 1]
  }

  /** `int.from_bytes(b, 'little')`. */
  function Little(b: seq<Byte>): nat {
    if b == [] then 0 else b[0] + 256 * Little(b[1..])
  }

  function Reverse(b: seq<Byte>): (r: seq<Byte>)
    ensures |r| == |b| && forall i :: 0 <= i < |b| ==> r[i] == b[|b| - 1 - i]
  {
    if b == [] then [] else Reverse(b[1..]) + [b[0]]
  }

  /** `hextoint(hexlist)`: the row's hex cells joined and read as bytes, as (little-endian, big-endian) integers. */
  function HexToInt(hexlist: seq<string>): (r: Result<(nat, nat)>)
    ensures r.Failure? ==> r.error == InvalidLiteral(Concat(NonEmpty(hexlist)))
  {
    match FromHex(Concat(NonEmpty(hexlist)))
    case Success(b) => Success((Little(b), Big(b)))
    case Failure(e) => Failure(e)
  }

  /** Dropping empty cells does not change the joined text. */
  lemma {:induction false} NonEmptyConcat(cells: seq<string>)
    ensures Concat(NonEmpty(cells)) == Concat(cells)
  {
    if cells != [] {
      NonEmptyConcat(cells[1..]);
    }
  }

  /** The little-endian reading is the big-endian reading of the reversed bytes. */
  lemma {:induction false} LittleIsReversedBig(b: seq<Byte>)
    ensures Little(b) == Big(Reverse(b))
  {
    if b != [] {
      var r := Reverse(b);
      assert r[..|r| - 1] == Reverse(b[1..]);
      LittleIsReversedBig(b[1..]);
    }
  }

  lemma {:induction false} BigBound(b: seq<Byte>)
    ensures Big(b) < Pow(256, |b|)
  {
    if b != [] {
      BigBound(b[..|b| - 1]);
      assert Pow(256, |b|) == 256 * Pow(256, |b| - 1);
    }
  }

  /** The big-endian value of a concatenation of byte strings. */
  lemma {:induction false} BigAppend(a: seq<Byte>, b: seq<Byte>)
    ensures Big(a + b) == Big(a) * Pow(256, |b|) + Big(b)
    decreases |b|
  {
    if b == [] {
      assert a + b == a;
    } else {
      var b' := b[..|b| - 1];
      assert (a + b)[..|a + b| - 1] == a + b';
      BigAppend(a, b');
      Horner(Big(a), Pow(256, |b'|), Big(b'), 256, b[|b| - 1]);
    }
  }

  /** A whitespace-free string of an even number of hex digits decodes to half as many bytes whose big-endian value is the string's hex value. */
  lemma {:induction false} FromHexValue(s: string)
    requires AllHex(s) && |s| % 2 == 0
    ensures FromHex(s).Success? && |FromHex(s).value| == |s| / 2
    ensures Big(FromHex(s).value) == HexValue(s)
    decreases |s|
  {
    if s != [] {
      assert !IsAsciiSpace(s[0]) by { assert IsHexDigit(s[0]); }
      var rest := s[2..];
      FromHexValue(rest);
      var b := FromHex(rest).value;
      var v: Byte := DigitValue(s[0]) * 16 + DigitValue(s[1]);
      assert FromHex(s).value == [v] + b;
      assert s == s[..2] + rest;
      PairValue(s[..2]);
      ByteStep(s[..2], rest, v, b);
    }
  }

  /** Two hex digits are one byte. */
  lemma PairValue(s: string)
    requires |s| == 2 && AllHex(s)
    ensures HexValue(s) == DigitValue(s[0]) * 16 + DigitValue(s[1])
  {
    assert HexValue(s[..1]) == DigitValue(s[0]) by { assert s[..1][..0] == []; }
  }

  /** Prepending a byte and its two digits keeps big-endian and hex values equal. */
  lemma ByteStep(pair: string, rest: string, v: Byte, b: seq<Byte>)
    requires |pair| == 2 && AllHex(pair) && AllHex(rest) && HexValue(pair) == v
    requires |rest| == 2 * |b| && Big(b) == HexValue(rest)
    ensures Big([v] + b) == HexValue(pair + rest)
  {
    BigAppend([v], b);
    assert Big([v]) == v by { assert [v][..0] == []; }
    HexValueAppend(pair, rest);
    PowHexBytes(|b|);
  }

  /** With whole-byte hex cells, the big-endian result is the value of the joined digits and the little-endian one the value of the bytes reversed. */
  lemma HexToIntValue(hexlist: seq<string>)
    requires var s := Concat(hexlist); AllHex(s) && |s| % 2 == 0
    ensures FromHex(Concat(hexlist)).Success? && HexToInt(hexlist).Success?
    ensures HexToInt(hexlist).value == (Big(Reverse(FromHex(Concat(hexlist)).value)), HexValue(Concat(hexlist)))
  {
    NonEmptyConcat(hexlist);
    FromHexValue(Concat(hexlist));
    LittleIsReversedBig(FromHex(Concat(hexlist)).value);
  }

  /** No bytes read as (0, 0); a single byte reads the same in both orders. */
  lemma HexToIntShort(hexlist: seq<string>)
    requires FromHex(Concat(hexlist)).Success? && |FromHex(Concat(hexlist)).value| <= 1
    ensures HexToInt(hexlist).Success? && HexToInt(hexlist).value.0 == HexToInt(hexlist).value.1
    ensures FromHex(Concat(hexlist)).value == [] ==> HexToInt(hexlist).value == (0, 0)
  {
    NonEmptyConcat(hexlist);
    var b := FromHex(Concat(hexlist)).value;
    if |b| == 1 {
      assert b[..0] == [] && b[1..] == [];
      assert Little(b) == b[0] && Big(b) == b[0];
    }
  }

  // ---------------------------------------------------------------- CanCsv

  /** The fixed leading columns of the converter's CSV file. */
  const Fixed: seq<string> := ["Number", "Time", "Bus", "Direction", "Type", "ID", "Reserved", "Length"]

  /** The default number of data-byte columns (enough for a 64-byte CAN FD frame). */
  const DefaultDataBytes: int := 64

  /** `CanCsv.header(databytes)`: the fixed columns, then `D0` … `D{databytes-1}` (none when `databytes <= 0`, as `range` gives). */
  function Header(databytes: int): seq<string> {
    Fixed + DataColumns(if databytes > 0 then databytes else 0)
  }

  /** `[f'D{i}' for i in range(n)]`. */
  function DataColumns(n: nat): seq<string> {
    seq(n, i requires 0 <= i < n => "D" + Decimal(i))
  }

  lemma HeaderShape(databytes: int)
    ensures var h := Header(databytes);
      && |h| == 8 + (if databytes > 0 then databytes else 0)
      && h[..8] == Fixed
      && (forall i :: 0 <= i < |h| - 8 ==> h[8 + i] == "D" + Decimal(i))
      && Message.Distinct(h)
  {
    var h := Header(databytes);
    forall i, j | 0 <= i < j < |h| ensures h[i] != h[j] {
      if j >= 8 {
        var dj := Decimal(j - 8);
        if i >= 8 {
          if h[i] == h[j] {
            assert Decimal(i - 8) == h[i][1..] && dj == h[j][1..];
            DecimalInjective(i - 8, j - 8);
          }
        } else {
          FixedNotData(h[i], j - 8);
        }
      }
    }
  }

  /** No fixed column is named like a data column: none has a digit after its first letter. */
  lemma FixedNotData(name: string, k: nat)
    requires name in Fixed
    ensures name != "D" + Decimal(k)
  {
    var d := Decimal(k);
    assert ("D" + d)[1] == d[0];
  }

  /** The default header has 72 columns, ending with `D63`. */
  lemma DefaultHeader()
    ensures |Header(DefaultDataBytes)| == 72 && Header(DefaultDataBytes)[71] == "D63"
  {
    HeaderShape(DefaultDataBytes);
    assert Decimal(63) == "63" by { assert Decimal(6) == "6"; }
  }

  /** `type_fd`: the CAN FD frame types carrying data. */
  const TypeFd: seq<string> := ["FD", "FB", "FE", "BI"]

  /** `type_can`: the classic frame type carrying data. */
  const TypeCan: seq<string> := ["DT"]

  /** `type_data`: every frame type carrying data. */
  const TypeData: seq<string> := TypeCan + TypeFd

  /** `type_info`: the status and error frame types. */
  const TypeInfo: seq<string> := ["ST", "ER", "EC"]

  /**
   * The data types are DT, FD, FB, FE, BI in that order and share no entry with the info types; the info
   * types are the ones the 2.x grammars store as error records, and no data type is excluded from messages.
   */
  lemma TypeLists()
    ensures TypeData == ["DT", "FD", "FB", "FE", "BI"]
    ensures forall i, j :: 0 <= i < |TypeData| && 0 <= j < |TypeInfo| ==> TypeData[i] != TypeInfo[j]
    ensures forall ty :: ty in TypeInfo <==> ty in CanTrace.InfoTypes
    ensures forall i :: 0 <= i < |TypeData| ==> TypeData[i] !in CanTrace.NonMessageTypes
  {
  }
}
