/** The message record a dialect's `parse` builds, `dict(zip(keys, values))`, and `expand`. */
module Message {
  import opened Text

  /** A record value: a single token or joined string, or a list of tokens. */
  datatype Value = Str(s: string) | Lst(l: seq<string>)

  /** A parsed trace line: field name to value. */
  type Record = map<string, Value>

  predicate Distinct(keys: seq<string>) {
    forall i, j :: 0 <= i < j < |keys| ==> keys[i] != keys[j]
  }

  /** `dict(zip(keys, values))` for distinct keys: pairs up keys and values until either runs out, so keys without a value are missing. */
  function Zip(keys: seq<string>, vals: seq<string>): (r: Record)
    requires Distinct(keys)
    ensures forall k :: k in r ==> k in keys[..Min(|keys|, |vals|)]
    ensures forall i :: 0 <= i < |keys| && i < |vals| ==> keys[i] in r && r[keys[i]] == Str(vals[i])
  {
    var r := map i | 0 <= i < Min(|keys|, |vals|) :: keys[i] := Str(vals[i]);
    assert forall k :: k in r ==> k in keys[..Min(|keys|, |vals|)] by {
      forall k | k in r ensures k in keys[..Min(|keys|, |vals|)] {
        var i :| 0 <= i < Min(|keys|, |vals|) && keys[i] == k;
        assert keys[..Min(|keys|, |vals|)][i] == k;
      }
    }
    r
  }

  function Min(a: int, b: int): int { if a < b then a else b }

  /** The list value of `k` if `k` holds one, else none. */
  function ListOf(rec: Record, k: string): seq<string> {
    if k in rec && rec[k].Lst? then rec[k].l else []
  }

  /** The column name `f'{key}{i:02d}'` that `expand` gives to element `i` of list field `key`. */
  function Key(k: string, i: nat): string {
    k + Pad2(i)
  }

  predicate EndsWithDigit(k: string) {
    k != [] && IsDigit(k[|k| - 1])
  }

  /** `k2` is `k` followed by one or more decimal digits. */
  predicate DigitExtension(k: string, k2: string) {
    |k| < |k2| && k2[..|k|] == k && AllDigits(k2[|k|..])
  }

  /**
   * Records whose expansion cannot collide: no list-valued key ends in a digit and no key
   * of the record is a list-valued key followed by digits. Every record `parse` builds is
   * such a record; on other records the result of `expand` would depend on dict order.
   */
  predicate ExpandSafe(msg: Record) {
    forall k, k2 :: k in msg && msg[k].Lst? && k2 in msg ==> !EndsWithDigit(k) && !DigitExtension(k, k2)
  }

  function ScalarKeys(msg: Record): set<string> {
    set k | k in msg && msg[k].Str?
  }

  /** The names of the expanded columns of the list fields among `done`. */
  function ExpandedKeys(msg: Record, done: set<string>): set<string> {
    set k, i | k in done && k in msg && msg[k].Lst? && 0 <= i < |msg[k].l| :: Key(k, i)
  }

  /** `m` is the expansion of `msg`: scalars unchanged, each list `K` replaced by `K00`, `K01`, ... in order, nothing else. */
  ghost predicate IsExpansion(msg: Record, m: Record) {
    && m.Keys == ScalarKeys(msg) + ExpandedKeys(msg, msg.Keys)
    && (forall k :: k in msg && msg[k].Str? ==> k in m && m[k] == msg[k])
    && (forall k, i :: k in msg && msg[k].Lst? && 0 <= i < |msg[k].l| ==>
          Key(k, i) in m && m[Key(k, i)] == Str(msg[k].l[i]))
  }

  /** The state of `expand`'s loop once the keys outside `todo` are done. */
  ghost predicate PartlyExpanded(msg: Record, m: Record, todo: set<string>) {
    && m.Keys == ScalarKeys(msg) + todo + ExpandedKeys(msg, msg.Keys - todo)
    && (forall k :: k in msg && (msg[k].Str? || k in todo) ==> k in m && m[k] == msg[k])
    && (forall k, i :: k in msg && k !in todo && msg[k].Lst? && 0 <= i < |msg[k].l| ==>
          Key(k, i) in m && m[Key(k, i)] == Str(msg[k].l[i]))
  }

  /** If `a + b == c + d` with `b` all digits and `c` longer than `a`, then `c` ends in a digit. */
  lemma LongerPrefixEndsWithDigit(a: string, b: string, c: string, d: string)
    requires AllDigits(b) && a + b == c + d && |a| < |c|
    ensures EndsWithDigit(c)
  {
    assert c[|c| - 1] == (c + d)[|c| - 1] == (a + b)[|c| - 1] == b[|c| - 1 - |a|];
  }

  lemma DigitSuffixUnique(a: string, b: string, c: string, d: string)
    requires !EndsWithDigit(a) && !EndsWithDigit(c) && AllDigits(b) && AllDigits(d)
    requires a + b == c + d
    ensures a == c && b == d
  {
    if |a| < |c| {
      LongerPrefixEndsWithDigit(a, b, c, d);
    } else if |c| < |a| {
      LongerPrefixEndsWithDigit(c, d, a, b);
    } else {
      assert a == (a + b)[..|a|] && c == (c + d)[..|c|];
    }
  }

  lemma KeyIsExtension(k: string, i: nat)
    ensures DigitExtension(k, Key(k, i)) && EndsWithDigit(Key(k, i))
  {
    var w := Key(k, i);
    assert w[..|k|] == k && w[|k|..] == Pad2(i);
    assert w[|w| - 1] == Pad2(i)[|Pad2(i)| - 1];
  }

  /** Column names of different list fields, or of different positions, never coincide. */
  lemma KeyInjective(k: string, i: nat, k2: string, j: nat)
    requires !EndsWithDigit(k) && !EndsWithDigit(k2)
    requires Key(k, i) == Key(k2, j)
    ensures k == k2 && i == j
  {
    DigitSuffixUnique(k, Pad2(i), k2, Pad2(j));
    Pad2Injective(i, j);
  }

  /** The column names `K00`, ..., `K{n-1}` of list field `K`. */
  function KeysOf(k: string, n: nat): set<string> {
    set j | 0 <= j < n :: Key(k, j)
  }

  lemma ExpandedKeysStep(msg: Record, done: set<string>, key: string)
    requires key in msg
    ensures msg[key].Str? ==> ExpandedKeys(msg, done + {key}) == ExpandedKeys(msg, done)
    ensures msg[key].Lst? ==>
      ExpandedKeys(msg, done + {key}) == ExpandedKeys(msg, done) + KeysOf(key, |msg[key].l|)
  {
  }

  lemma KeysOfStep(k: string, n: nat)
    ensures KeysOf(k, n + 1) == KeysOf(k, n) + {Key(k, n)}
    ensures Key(k, n) !in KeysOf(k, n)
    ensures forall j :: 0 <= j < n ==> Key(k, j) != Key(k, n)
  {
    if Key(k, n) in KeysOf(k, n) {
      var j :| 0 <= j < n && Key(k, j) == Key(k, n);
      assert Pad2(j) == Key(k, j)[|k|..] == Key(k, n)[|k|..] == Pad2(n);
      Pad2Injective(j, n);
    }
  }

  /** A copy of `s` as the list of its one-character strings, which is what iterating over a `str` yields. */
  function Chars(s: string): seq<string> {
    seq(|s|, i requires 0 <= i < |s| => [s[i]])
  }

  /** `m` is `m0` with the first `i` items of `items` stored under `Key(key, 0)`, ..., `Key(key, i - 1)`. */
  predicate Filled(m0: Record, m: Record, key: string, items: seq<string>, i: nat)
    requires i <= |items|
  {
    && m.Keys == m0.Keys + KeysOf(key, i)
    && (forall j :: 0 <= j < i ==> m[Key(key, j)] == Str(items[j]))
    && (forall k :: k in m0 && k !in KeysOf(key, i) ==> m[k] == m0[k])
  }

  lemma FilledStep(m0: Record, m: Record, key: string, items: seq<string>, i: nat)
    requires i < |items| && Filled(m0, m, key, items, i)
    ensures Filled(m0, m[Key(key, i) := Str(items[i])], key, items, i + 1)
  {
    KeysStep(m0, m, key, i, Str(items[i]));
    ItemsStep(m, key, items, i);
    OthersStep(m0, m, key, i, Str(items[i]));
  }

  lemma KeysStep(m0: Record, m: Record, key: string, i: nat, v: Value)
    requires m.Keys == m0.Keys + KeysOf(key, i)
    ensures m[Key(key, i) := v].Keys == m0.Keys + KeysOf(key, i + 1)
  {
    KeysOfStep(key, i);
  }

  lemma ItemsStep(m: Record, key: string, items: seq<string>, i: nat)
    requires i < |items| && forall j :: 0 <= j < i ==> Key(key, j) in m && m[Key(key, j)] == Str(items[j])
    ensures forall j :: 0 <= j < i + 1 ==>
      Key(key, j) in m[Key(key, i) := Str(items[i])] && m[Key(key, i) := Str(items[i])][Key(key, j)] == Str(items[j])
  {
    KeysOfStep(key, i);
  }

  lemma OthersStep(m0: Record, m: Record, key: string, i: nat, v: Value)
    requires forall k :: k in m0 && k !in KeysOf(key, i) ==> k in m && m[k] == m0[k]
    ensures forall k :: k in m0 && k !in KeysOf(key, i + 1) ==> k in m[Key(key, i) := v] && m[Key(key, i) := v][k] == m0[k]
  {
    KeysOfStep(key, i);
  }

  /** The inner loop of `expand`: `m[f'{key}{i:02d}'] = item` for each item in turn. */
  method PutItems(m0: Record, key: string, items: seq<string>) returns (m: Record)
    ensures m.Keys == m0.Keys + KeysOf(key, |items|)
    ensures forall j :: 0 <= j < |items| ==> m[Key(key, j)] == Str(items[j])
    ensures forall k :: k in m0 && k !in KeysOf(key, |items|) ==> m[k] == m0[k]
  {
    m := m0;
    var i := 0;
    assert KeysOf(key, 0) == {};
    while i < |items|
      invariant 0 <= i <= |items| && Filled(m0, m, key, items, i)
    {
      FilledStep(m0, m, key, items, i);
      m := m[Key(key, i) := Str(items[i])];
      i := i + 1;
    }
  }

  /** What one step of `expand`'s outer loop does to the copy `m` when it handles `key`. */
  ghost predicate StepDone(msg: Record, m: Record, key: string, m': Record)
    requires key in msg
  {
    if msg[key].Str? then m' == m
    else
      var n := |msg[key].l|;
      && m'.Keys == (m.Keys - {key}) + KeysOf(key, n)
      && (forall j :: 0 <= j < n ==> m'[Key(key, j)] == Str(msg[key].l[j]))
      && (forall k :: k in m && k != key && k !in KeysOf(key, n) ==> m'[k] == m[k])
  }

  /** In a collision-free record, the columns of list field `key` are no key of the record and no column of another list field. */
  lemma ColumnsFresh(msg: Record, key: string, j: nat)
    requires ExpandSafe(msg) && key in msg && msg[key].Lst?
    ensures Key(key, j) !in msg
    ensures forall k2, i :: k2 in msg && msg[k2].Lst? && k2 != key ==> Key(k2, i) != Key(key, j)
  {
    KeyIsExtension(key, j);
    forall k2, i | k2 in msg && msg[k2].Lst? && k2 != key ensures Key(k2, i) != Key(key, j) {
      if Key(k2, i) == Key(key, j) { KeyInjective(k2, i, key, j); }
    }
  }

  lemma ExpandListKeys(S: set<string>, todo: set<string>, E: set<string>, K: set<string>, key: string,
                       before: set<string>, after: set<string>)
    requires key !in S && key !in E
    requires before == S + todo + E && after == (before - {key}) + K
    ensures after == S + (todo - {key}) + (E + K)
  {
  }

  lemma ExpandScalarKeys(S: set<string>, todo: set<string>, key: string)
    requires key in S
    ensures S + todo == S + (todo - {key})
  {
  }

  lemma ExpandStepKeys(msg: Record, m: Record, todo: set<string>, key: string, m': Record)
    requires ExpandSafe(msg) && key in todo && todo <= msg.Keys && PartlyExpanded(msg, m, todo)
    requires StepDone(msg, m, key, m')
    ensures m'.Keys == ScalarKeys(msg) + (todo - {key}) + ExpandedKeys(msg, msg.Keys - (todo - {key}))
  {
    if msg[key].Lst? {
      ListStepKeys(msg, todo, key, m.Keys, m'.Keys);
    } else {
      ScalarStepKeys(msg, todo, key, m.Keys);
    }
  }

  lemma ListStepKeys(msg: Record, todo: set<string>, key: string, before: set<string>, after: set<string>)
    requires ExpandSafe(msg) && key in todo && todo <= msg.Keys && msg[key].Lst?
    requires before == ScalarKeys(msg) + todo + ExpandedKeys(msg, msg.Keys - todo)
    requires after == (before - {key}) + KeysOf(key, |msg[key].l|)
    ensures after == ScalarKeys(msg) + (todo - {key}) + ExpandedKeys(msg, msg.Keys - (todo - {key}))
  {
    var done := msg.Keys - todo;
    ExpandedKeysStep(msg, done, key);
    assert msg.Keys - (todo - {key}) == done + {key};
    KeyNotExpanded(msg, done, key);
    ExpandListKeys(ScalarKeys(msg), todo, ExpandedKeys(msg, done), KeysOf(key, |msg[key].l|), key, before, after);
  }

  lemma ScalarStepKeys(msg: Record, todo: set<string>, key: string, before: set<string>)
    requires key in todo && todo <= msg.Keys && msg[key].Str?
    requires before == ScalarKeys(msg) + todo + ExpandedKeys(msg, msg.Keys - todo)
    ensures before == ScalarKeys(msg) + (todo - {key}) + ExpandedKeys(msg, msg.Keys - (todo - {key}))
  {
    var done := msg.Keys - todo;
    ExpandedKeysStep(msg, done, key);
    assert msg.Keys - (todo - {key}) == done + {key};
    ExpandScalarKeys(ScalarKeys(msg), todo, key);
  }

  /** In a collision-free record, no key is a column name of a list field. */
  lemma KeyNotExpanded(msg: Record, done: set<string>, key: string)
    requires ExpandSafe(msg) && key in msg
    ensures key !in ExpandedKeys(msg, done)
  {
    forall k, i | k in done && k in msg && msg[k].Lst? && 0 <= i < |msg[k].l| ensures Key(k, i) != key {
      KeyIsExtension(k, i);
    }
  }

  lemma ExpandStepValues(msg: Record, m: Record, todo: set<string>, key: string, m': Record)
    requires ExpandSafe(msg) && key in todo && todo <= msg.Keys && PartlyExpanded(msg, m, todo)
    requires StepDone(msg, m, key, m')
    ensures forall k :: k in msg && (msg[k].Str? || k in todo - {key}) ==> k in m' && m'[k] == msg[k]
  {
    if msg[key].Lst? {
      var n := |msg[key].l|;
      forall k | k in msg && (msg[k].Str? || k in todo - {key}) ensures k in m' && m'[k] == msg[k] {
        if k in KeysOf(key, n) {
          var j :| 0 <= j < n && k == Key(key, j);
          ColumnsFresh(msg, key, j);
        }
      }
    }
  }

  lemma ExpandStepColumns(msg: Record, m: Record, todo: set<string>, key: string, m': Record)
    requires ExpandSafe(msg) && key in todo && todo <= msg.Keys && PartlyExpanded(msg, m, todo)
    requires StepDone(msg, m, key, m')
    ensures forall k, i :: k in msg && k !in todo - {key} && msg[k].Lst? && 0 <= i < |msg[k].l| ==>
      Key(k, i) in m' && m'[Key(k, i)] == Str(msg[k].l[i])
  {
    forall k, i | k in msg && k !in todo - {key} && msg[k].Lst? && 0 <= i < |msg[k].l|
      ensures Key(k, i) in m' && m'[Key(k, i)] == Str(msg[k].l[i])
    {
      if k != key && msg[key].Lst? {
        var n := |msg[key].l|;
        assert Key(k, i) in m;
        ColumnsFresh(msg, k, i);
        assert Key(k, i) !in KeysOf(key, n);
      } else if k == key {
        assert Key(key, i) in KeysOf(key, |msg[key].l|);
      }
    }
  }

  /** One step of `expand`'s outer loop keeps `PartlyExpanded`. */
  lemma ExpandStep(msg: Record, m: Record, todo: set<string>, key: string, m': Record)
    requires ExpandSafe(msg) && key in todo && todo <= msg.Keys && PartlyExpanded(msg, m, todo)
    requires StepDone(msg, m, key, m')
    ensures PartlyExpanded(msg, m', todo - {key})
  {
    ExpandStepKeys(msg, m, todo, key, m');
    ExpandStepValues(msg, m, todo, key, m');
    ExpandStepColumns(msg, m, todo, key, m');
  }

  /** The body of `expand`'s outer loop for one key: a list value is popped and its items inserted as columns. */
  method ExpandKey(msg: Record, m0: Record, key: string, ghost todo: set<string>) returns (m: Record)
    requires key in msg && key in m0
    ensures m.Keys >= m0.Keys - {key}
    ensures ExpandSafe(msg) && key in todo && todo <= msg.Keys && PartlyExpanded(msg, m0, todo) ==>
      PartlyExpanded(msg, m, todo - {key})
  {
    m := m0;
    if msg[key].Lst? {
      // `m.pop(key)`: the copy's value, which a colliding earlier insertion may have replaced by a string
      var items := match m0[key] case Lst(l) => l case Str(s) => Chars(s);
      m := PutItems(m0 - {key}, key, items);
    }
    if ExpandSafe(msg) && key in todo && todo <= msg.Keys && PartlyExpanded(msg, m0, todo) {
      assert StepDone(msg, m0, key, m);
      ExpandStep(msg, m0, todo, key, m);
    }
  }

  /**
   * `expand`: copies the record and, for each list-valued key in turn, pops it from the copy
   * and inserts its elements under `K00`, `K01`, .... The iteration order of the dict is not
   * modelled, so the key is chosen freely; on records where order cannot matter the result
   * is the expansion.
   */
  method Expand(msg: Record) returns (m: Record)
    ensures ExpandSafe(msg) ==> IsExpansion(msg, m)
  {
    m := msg;
    var todo := msg.Keys;
    while todo != {}
      invariant todo <= msg.Keys && todo <= m.Keys
      invariant ExpandSafe(msg) ==> PartlyExpanded(msg, m, todo)
      decreases |todo|
    {
      var key :| key in todo;
      m := ExpandKey(msg, m, key, todo);
      todo := todo - {key};
    }
    assert msg.Keys - {} == msg.Keys;
  }

  /** Expansion leaves no list value behind, and no list-valued key survives it. */
  lemma ExpansionFlat(msg: Record, m: Record)
    requires ExpandSafe(msg) && IsExpansion(msg, m)
    ensures forall k :: k in m ==> m[k].Str?
    ensures forall k :: k in msg && msg[k].Lst? ==> k !in m
  {
    forall k | k in msg && msg[k].Lst? ensures k !in m {
      if k in m {
        assert k !in ScalarKeys(msg);
        var k2, i :| k2 in msg && msg[k2].Lst? && 0 <= i < |msg[k2].l| && k == Key(k2, i);
        KeyIsExtension(k2, i);
      }
    }
  }

  /** A record determines its expansion. */
  lemma ExpansionUnique(msg: Record, m1: Record, m2: Record)
    requires IsExpansion(msg, m1) && IsExpansion(msg, m2)
    ensures m1 == m2
  {
    forall k | k in m1 ensures m1[k] == m2[k] {
      if k !in ScalarKeys(msg) {
        var k2, i :| k2 in msg && msg[k2].Lst? && 0 <= i < |msg[k2].l| && k == Key(k2, i);
      }
    }
  }

  /** Expanding an expanded record changes nothing: `expand` is idempotent. */
  lemma ExpandIdempotent(msg: Record, m: Record, m2: Record)
    requires ExpandSafe(msg) && IsExpansion(msg, m)
    ensures ExpandSafe(m)
    ensures IsExpansion(m, m2) <==> m2 == m
  {
    ExpansionFlat(msg, m);
    assert ScalarKeys(m) == m.Keys;
    assert ExpandedKeys(m, m.Keys) == {};
    assert IsExpansion(m, m);
    if IsExpansion(m, m2) { ExpansionUnique(m, m, m2); }
  }

  /** Re-collecting `K00`, ..., `K{n-1}` of an expansion gives back the list field `K`. */
  lemma ExpandCollapse(msg: Record, m: Record, k: string)
    requires IsExpansion(msg, m) && k in msg && msg[k].Lst?
    ensures forall i :: 0 <= i < |msg[k].l| ==> Key(k, i) in m && m[Key(k, i)].Str?
    ensures seq(|msg[k].l|, i requires 0 <= i < |msg[k].l| => m[Key(k, i)].s) == msg[k].l
  {
  }

  /**
   * The tokens a record holds under `names`, in that order: a list field contributes its
   * elements, a string field the tokens of its text (a lead field is one token, a joined
   * `EVENT` or LIN `ERROR` splits back into its tokens), absent fields nothing.
   */
  function Fields(rec: Record, names: seq<string>): seq<string> {
    if names == [] then [] else FieldOf(rec, names[0]) + Fields(rec, names[1..])
  }

  /** The tokens field `n` contributes to `Fields`. */
  function FieldOf(rec: Record, n: string): seq<string> {
    if n !in rec then [] else match rec[n] case Str(s) => Split(s) case Lst(l) => l
  }

  lemma {:induction false} FieldsAppend(rec: Record, a: seq<string>, b: seq<string>)
    ensures Fields(rec, a + b) == Fields(rec, a) + Fields(rec, b)
  {
    if a == [] {
      assert a + b == b;
    } else {
      assert (a + b)[1..] == a[1..] + b;
      FieldsAppend(rec, a[1..], b);
    }
  }

  lemma FieldsSingle(rec: Record, n: string)
    ensures Fields(rec, [n]) == FieldOf(rec, n)
  {
    assert [n][1..] == [];
  }

  lemma FieldsThree(rec: Record, a: string, b: string, c: string)
    ensures Fields(rec, [a, b, c]) == FieldOf(rec, a) + FieldOf(rec, b) + FieldOf(rec, c)
  {
    assert [a, b, c] == [a] + [b, c];
    FieldsAppend(rec, [a], [b, c]);
    FieldsSingle(rec, a);
    FieldsTwo(rec, b, c);
  }

  lemma FieldsTwo(rec: Record, a: string, b: string)
    ensures Fields(rec, [a, b]) == FieldOf(rec, a) + FieldOf(rec, b)
  {
    assert [a, b][1..] == [b];
    FieldsSingle(rec, b);
  }

  /** A field holding space-joined tokens gives them back. */
  lemma JoinedField(rec: Record, n: string, ts: seq<string>)
    requires AreTokens(ts) && n in rec && rec[n] == Str(Join(ts))
    ensures FieldOf(rec, n) == ts
  {
    SplitJoin(ts);
  }

  /** A token `w` read back from a string field: `Split(w) == [w]`. */
  lemma SplitToken(w: string)
    requires IsToken(w)
    ensures Split(w) == [w]
  {
    SplitJoin([w]);
  }

  /**
   * The lead fields of a record built by `dict(zip(lead, t))` give back the tokens they
   * took: `Fields` over `lead` is the first `|lead|` tokens (or all of them, if fewer).
   */
  lemma FieldsLead(rec: Record, lead: seq<string>, t: seq<string>)
    requires AreTokens(t) && HoldsLead(rec, lead, t)
    ensures Fields(rec, lead) == Slice(t, 0, |lead|)
  {
    FieldsLeadFrom(rec, lead, t, 0);
    assert lead[0..] == lead;
  }

  lemma {:induction false} FieldsLeadFrom(rec: Record, lead: seq<string>, t: seq<string>, i: nat)
    requires i <= |lead| && AreTokens(t) && HoldsLead(rec, lead, t)
    ensures Fields(rec, lead[i..]) == Slice(t, i, |lead|)
    decreases |lead| - i
  {
    if i < |lead| {
      FieldsLeadFrom(rec, lead, t, i + 1);
      assert lead[i..][1..] == lead[i + 1..];
      LeadFieldAt(rec, lead, t, i);
    }
  }

  lemma LeadFieldAt(rec: Record, lead: seq<string>, t: seq<string>, i: nat)
    requires i < |lead| && (i < |t| ==> IsToken(t[i])) && HoldsLead(rec, lead, t)
    ensures FieldOf(rec, lead[i]) + Slice(t, i + 1, |lead|) == Slice(t, i, |lead|)
  {
    if i < |t| {
      SplitToken(t[i]);
      assert Slice(t, i, |lead|) == [t[i]] + Slice(t, i + 1, |lead|);
    }
  }

  /** `islice(reader, b - a)` on a reader that has consumed `a` tokens: the tokens at positions `a` to `b`, as far as there are any. */
  function Slice(t: seq<string>, a: nat, b: nat): (r: seq<string>)
    requires a <= b
    ensures |r| <= b - a
    ensures |t| >= b ==> r == t[a..b]
  {
    t[Min(a, |t|)..Min(b, |t|)]
  }

  /** `list(islice(reader))` on a reader that has consumed `a` tokens: all tokens from position `a` on. */
  function Rest(t: seq<string>, a: nat): seq<string> {
    t[Min(a, |t|)..]
  }

  /** A zipped record has no lead name beyond the last token. */
  lemma ZipShort(lead: seq<string>, t: seq<string>)
    requires Distinct(lead)
    ensures forall i :: |t| <= i < |lead| ==> lead[i] !in Zip(lead, t)
  {
    var m := Min(|lead|, |t|);
    forall i | |t| <= i < |lead| ensures lead[i] !in Zip(lead, t) {
      assert forall j :: 0 <= j < m ==> lead[..m][j] == lead[j];
    }
  }

  /** The lead field at position `k` is in the zipped record exactly when there is a `k`-th token, and holds it. */
  lemma ZipLead(lead: seq<string>, t: seq<string>, k: nat)
    requires Distinct(lead) && k < |lead|
    ensures forall i :: |t| <= i < |lead| ==> lead[i] !in Zip(lead, t)
    ensures lead[k] in Zip(lead, t) <==> k < |t|
    ensures k < |t| ==> Zip(lead, t)[lead[k]] == Str(t[k])
  {
    ZipShort(lead, t);
  }

  /** A name outside the lead never gets into the zipped record. */
  lemma ZipOutside(lead: seq<string>, t: seq<string>, n: string)
    requires Distinct(lead) && n !in lead
    ensures n !in Zip(lead, t)
  {
  }

  /** `rec` holds the `i`-th token under the `i`-th lead name, for as many tokens as there are, and no other lead name. */
  predicate HoldsLead(rec: Record, lead: seq<string>, t: seq<string>) {
    && (forall i :: 0 <= i < |lead| && i < |t| ==> lead[i] in rec && rec[lead[i]] == Str(t[i]))
    && (forall i :: |t| <= i < |lead| ==> lead[i] !in rec)
  }

  lemma ZipHoldsLead(lead: seq<string>, t: seq<string>)
    requires Distinct(lead)
    ensures HoldsLead(Zip(lead, t), lead, t)
  {
    ZipShort(lead, t);
  }

  /** Storing under a name outside the lead keeps the lead fields. */
  lemma HoldsLeadUpdate(rec: Record, lead: seq<string>, t: seq<string>, k: string, v: Value)
    requires HoldsLead(rec, lead, t) && k !in lead
    ensures HoldsLead(rec[k := v], lead, t)
  {
  }

  /** A record whose every key is one of `names`. */
  predicate Within(rec: Record, names: seq<string>) {
    forall k :: k in rec ==> k in names
  }

  lemma ZipWithin(lead: seq<string>, t: seq<string>, names: seq<string>)
    requires Distinct(lead) && forall i :: 0 <= i < |lead| ==> lead[i] in names
    ensures Within(Zip(lead, t), names)
  {
    forall k | k in Zip(lead, t) ensures k in names {
      var j :| 0 <= j < Min(|lead|, |t|) && lead[..Min(|lead|, |t|)][j] == k;
      assert lead[j] == k;
    }
  }

  lemma WithinUpdate(rec: Record, names: seq<string>, k: string, v: Value)
    requires Within(rec, names) && k in names
    ensures Within(rec[k := v], names)
  {
  }

  /** A line cut after `n` tokens: the first `n` (or all) and the rest. */
  lemma RestTokens(t: seq<string>, a: nat)
    requires AreTokens(t)
    ensures AreTokens(Rest(t, a))
  {
    var rest := Rest(t, a);
    forall i | 0 <= i < |rest| ensures IsToken(rest[i]) { assert rest[i] == t[Min(a, |t|) + i]; }
  }

  lemma SliceRest(t: seq<string>, a: nat, b: nat)
    requires a <= b
    ensures Slice(t, 0, a) + Slice(t, a, b) + Rest(t, b) == t
  {
    var x, y := Min(a, |t|), Min(b, |t|);
    assert t == t[..x] + t[x..y] + t[y..];
  }

  lemma SliceThenRest(t: seq<string>, a: nat, b: nat)
    requires a <= b
    ensures Slice(t, a, b) + Rest(t, b) == Rest(t, a)
  {
    var x, y := Min(a, |t|), Min(b, |t|);
    assert t[x..] == t[x..y] + t[y..];
  }

  lemma RestRest(t: seq<string>, a: nat, b: nat)
    ensures Rest(Rest(t, a), b) == Rest(t, a + b)
  {
  }

  lemma SplitAt(t: seq<string>, n: nat)
    ensures Slice(t, 0, n) + Rest(t, n) == t
  {
    var x := Min(n, |t|);
    assert t == t[0..x] + t[x..];
  }

  lemma DistinctConcat(l1: seq<string>, l2: seq<string>)
    requires Distinct(l1 + l2)
    ensures Distinct(l1) && Distinct(l2)
    ensures forall i, j :: 0 <= i < |l1| && 0 <= j < |l2| ==> l1[i] != l2[j]
  {
    var l := l1 + l2;
    forall i, j | 0 <= i < |l1| && 0 <= j < |l2| ensures l1[i] != l2[j] { assert l[i] == l1[i] && l[|l1| + j] == l2[j]; }
    forall i, j | 0 <= i < j < |l2| ensures l2[i] != l2[j] { assert l[|l1| + i] == l2[i] && l[|l1| + j] == l2[j]; }
    forall i, j | 0 <= i < j < |l1| ensures l1[i] != l1[j] { assert l[i] == l1[i] && l[j] == l1[j]; }
  }

  /** Merging a record holding `l1` with one holding `l2` on the tokens after `l1` holds `l1 + l2`. */
  lemma MergeHoldsLead(a: Record, b: Record, l1: seq<string>, l2: seq<string>, t: seq<string>)
    requires HoldsLead(a, l1, t) && HoldsLead(b, l2, Rest(t, |l1|)) && Within(a, l1) && Within(b, l2)
    requires forall i, j :: 0 <= i < |l1| && 0 <= j < |l2| ==> l1[i] != l2[j]
    ensures HoldsLead(a + b, l1 + l2, t)
  {
    var l := l1 + l2;
    forall i | 0 <= i < |l| && i < |t| ensures l[i] in a + b && (a + b)[l[i]] == Str(t[i]) {
      if i < |l1| {
        assert l[i] == l1[i];
      } else {
        assert l[i] == l2[i - |l1|] && Rest(t, |l1|)[i - |l1|] == t[i];
      }
    }
    forall i | |t| <= i < |l| ensures l[i] !in a + b {
      if i < |l1| {
        assert l[i] == l1[i];
      } else {
        assert l[i] == l2[i - |l1|];
      }
    }
  }

  /** Zipping a second lead onto the tokens left after the first, and merging, holds the two leads in a row. */
  lemma ZipConcat(l1: seq<string>, l2: seq<string>, t: seq<string>)
    requires Distinct(l1 + l2)
    ensures Distinct(l1) && Distinct(l2)
    ensures HoldsLead(Zip(l1, t) + Zip(l2, Rest(t, |l1|)), l1 + l2, t)
  {
    DistinctConcat(l1, l2);
    ZipWithin(l1, t, l1);
    ZipWithin(l2, Rest(t, |l1|), l2);
    ZipHoldsLead(l1, t);
    ZipHoldsLead(l2, Rest(t, |l1|));
    MergeHoldsLead(Zip(l1, t), Zip(l2, Rest(t, |l1|)), l1, l2, t);
  }

  /** A lead name present in a record that holds the lead holds a single token. */
  lemma LeadAt(rec: Record, lead: seq<string>, t: seq<string>, i: nat)
    requires HoldsLead(rec, lead, t) && i < |lead| && i < |t|
    ensures lead[i] in rec && rec[lead[i]] == Str(t[i])
  {
  }

  lemma LeadScalar(rec: Record, lead: seq<string>, t: seq<string>, k: string)
    requires HoldsLead(rec, lead, t) && k in lead && k in rec
    ensures rec[k].Str?
  {
    var i :| 0 <= i < |lead| && lead[i] == k;
  }

  /** `dict(zip(lead, t))` with `key` then set: the lead fields, `key`, and no other name. */
  lemma PutOne(lead: seq<string>, t: seq<string>, names: seq<string>, key: string, v: Value)
    requires Distinct(lead) && key !in lead && key in names
    requires forall i :: 0 <= i < |lead| ==> lead[i] in names
    ensures var r := Zip(lead, t)[key := v];
      && HoldsLead(r, lead, t) && Within(r, names) && key in r && r[key] == v
      && forall n :: n !in lead && n != key ==> n !in r
  {
    ZipHoldsLead(lead, t);
    ZipWithin(lead, t, names);
  }

  /** `dict(zip(lead, t))` with `k1` and then `k2` set. */
  lemma PutTwo(lead: seq<string>, t: seq<string>, names: seq<string>, k1: string, v1: Value, k2: string, v2: Value)
    requires Distinct(lead) && k1 !in lead && k2 !in lead && k1 != k2 && k1 in names && k2 in names
    requires forall i :: 0 <= i < |lead| ==> lead[i] in names
    ensures var r := Zip(lead, t)[k1 := v1][k2 := v2];
      && HoldsLead(r, lead, t) && Within(r, names) && k1 in r && r[k1] == v1 && k2 in r && r[k2] == v2
      && forall n :: n !in lead && n != k1 && n != k2 ==> n !in r
  {
    ZipHoldsLead(lead, t);
    ZipWithin(lead, t, names);
  }

  /** `dict(zip(l1, t))`, updated with `zip(l2, ...)` on the tokens after `l1`, with `key` then set. */
  lemma PutMerged(l1: seq<string>, l2: seq<string>, t: seq<string>, names: seq<string>, key: string, v: Value)
    requires Distinct(l1) && Distinct(l2) && Distinct(l1 + l2) && key !in l1 + l2 && key in names
    requires forall i :: 0 <= i < |l1 + l2| ==> (l1 + l2)[i] in names
    ensures var r := (Zip(l1, t) + Zip(l2, Rest(t, |l1|)))[key := v];
      && HoldsLead(r, l1 + l2, t) && Within(r, names) && key in r && r[key] == v
      && forall n :: n !in l1 + l2 && n != key ==> n !in r
  {
    ZipConcat(l1, l2, t);
    var a, b := Zip(l1, t), Zip(l2, Rest(t, |l1|));
    ZipWithin(l1, t, l1 + l2);
    ZipWithin(l2, Rest(t, |l1|), l1 + l2);
    assert Within(a + b, l1 + l2);
  }

  // Column headers: names that cannot collide with expanded columns.

  /** No name in `names` ends in a digit. */
  predicate NoDigitEnd(names: seq<string>) {
    forall i :: 0 <= i < |names| ==> !EndsWithDigit(names[i])
  }

  lemma DigitExtensionEnds(k: string, k2: string)
    requires DigitExtension(k, k2)
    ensures EndsWithDigit(k2)
  {
    assert k2[|k2| - 1] == k2[|k|..][|k2| - 1 - |k|];
  }

  /** A record whose names all come from a list of names not ending in a digit expands without collisions. */
  lemma WithinSafe(rec: Record, names: seq<string>)
    requires Within(rec, names) && NoDigitEnd(names)
    ensures ExpandSafe(rec)
  {
    forall k, k2 | k in rec && rec[k].Lst? && k2 in rec ensures !EndsWithDigit(k) && !DigitExtension(k, k2) {
      var i :| 0 <= i < |names| && names[i] == k;
      var j :| 0 <= j < |names| && names[j] == k2;
      if DigitExtension(k, k2) {
        DigitExtensionEnds(k, k2);
      }
    }
  }

  /** The expanded column names `K00`, ..., `K{n-1}` of list field `K`, in order. */
  function Columns(k: string, n: nat): (r: seq<string>)
    ensures |r| == n && forall i :: 0 <= i < n ==> r[i] == Key(k, i)
  {
    seq(n, i requires 0 <= i < n => Key(k, i))
  }

  /** The position of each entry of `lead + Columns(k1, n1) + Columns(k2, n2) + tail`. */
  lemma HeaderEntry(lead: seq<string>, k1: string, n1: nat, k2: string, n2: nat, tail: seq<string>, p: nat)
    requires p < |lead| + n1 + n2 + |tail|
    ensures var h := lead + Columns(k1, n1) + Columns(k2, n2) + tail;
      && (p < |lead| ==> h[p] == (lead + tail)[p])
      && (|lead| <= p < |lead| + n1 ==> h[p] == Key(k1, p - |lead|))
      && (|lead| + n1 <= p < |lead| + n1 + n2 ==> h[p] == Key(k2, p - |lead| - n1))
      && (|lead| + n1 + n2 <= p ==> h[p] == (lead + tail)[p - n1 - n2])
  {
  }

  /**
   * A header made of distinct names that do not end in a digit, with the expanded columns of
   * two different list fields in between, repeats no name.
   */
  lemma HeaderDistinct(lead: seq<string>, k1: string, n1: nat, k2: string, n2: nat, tail: seq<string>)
    requires Distinct(lead + tail) && NoDigitEnd(lead + tail)
    requires k1 != k2 && !EndsWithDigit(k1) && !EndsWithDigit(k2)
    ensures Distinct(lead + Columns(k1, n1) + Columns(k2, n2) + tail)
  {
    var cols := Columns(k1, n1) + Columns(k2, n2);
    DistinctConcat(lead, tail);
    NoDigitEndSplit(lead, tail);
    ColumnsDistinct(k1, n1, k2, n2);
    DistinctJoin(lead, cols);
    forall i, j | 0 <= i < |lead + cols| && 0 <= j < |tail| ensures (lead + cols)[i] != tail[j] {
      if i >= |lead| {
        assert (lead + cols)[i] == cols[i - |lead|];
      }
    }
    DistinctJoin(lead + cols, tail);
    assert lead + Columns(k1, n1) + Columns(k2, n2) + tail == (lead + cols) + tail;
  }

  lemma NoDigitEndSplit(l1: seq<string>, l2: seq<string>)
    requires NoDigitEnd(l1 + l2)
    ensures NoDigitEnd(l1) && NoDigitEnd(l2)
  {
    assert forall i :: 0 <= i < |l2| ==> l2[i] == (l1 + l2)[|l1| + i];
    assert forall i :: 0 <= i < |l1| ==> l1[i] == (l1 + l2)[i];
  }

  /** Two distinct lists with no name in common make a distinct list. */
  lemma DistinctJoin(l1: seq<string>, l2: seq<string>)
    requires Distinct(l1) && Distinct(l2)
    requires forall i, j :: 0 <= i < |l1| && 0 <= j < |l2| ==> l1[i] != l2[j]
    ensures Distinct(l1 + l2)
  {
    var l := l1 + l2;
    forall i, j | 0 <= i < j < |l| ensures l[i] != l[j] {
      if j < |l1| {
        assert l[i] == l1[i] && l[j] == l1[j];
      } else if i < |l1| {
        assert l[i] == l1[i] && l[j] == l2[j - |l1|];
      } else {
        assert l[i] == l2[i - |l1|] && l[j] == l2[j - |l1|];
      }
    }
  }

  /** The columns of two different list fields are distinct names, each ending in a digit. */
  lemma ColumnsDistinct(k1: string, n1: nat, k2: string, n2: nat)
    requires k1 != k2 && !EndsWithDigit(k1) && !EndsWithDigit(k2)
    ensures Distinct(Columns(k1, n1) + Columns(k2, n2))
    ensures forall i :: 0 <= i < n1 + n2 ==> EndsWithDigit((Columns(k1, n1) + Columns(k2, n2))[i])
  {
    var cols := Columns(k1, n1) + Columns(k2, n2);
    forall i | 0 <= i < |cols| ensures EndsWithDigit(cols[i]) {
      ColumnAt(k1, n1, k2, n2, i);
      KeyIsExtension(if i < n1 then k1 else k2, if i < n1 then i else i - n1);
    }
    forall i, j | 0 <= i < j < |cols| ensures cols[i] != cols[j] {
      ColumnAt(k1, n1, k2, n2, i);
      ColumnAt(k1, n1, k2, n2, j);
      if cols[i] == cols[j] {
        KeyInjective(if i < n1 then k1 else k2, if i < n1 then i else i - n1,
                     if j < n1 then k1 else k2, if j < n1 then j else j - n1);
      }
    }
  }

  /** Position `i` of the columns of `k1` followed by those of `k2`. */
  lemma ColumnAt(k1: string, n1: nat, k2: string, n2: nat, i: nat)
    requires i < n1 + n2
    ensures (Columns(k1, n1) + Columns(k2, n2))[i] == if i < n1 then Key(k1, i) else Key(k2, i - n1)
  {
  }

  /** `dict.update` keeps a lead the added record does not touch. */
  lemma UnionHoldsLeft(a: Record, b: Record, lead: seq<string>, t: seq<string>)
    requires HoldsLead(a, lead, t) && forall i :: 0 <= i < |lead| ==> lead[i] !in b
    ensures HoldsLead(a + b, lead, t)
  {
  }

  /** `dict.update` brings in a lead of the added record over keys the first record does not have. */
  lemma UnionHoldsRight(a: Record, b: Record, lead: seq<string>, t: seq<string>)
    requires HoldsLead(b, lead, t) && forall i :: 0 <= i < |lead| ==> lead[i] !in a
    ensures HoldsLead(a + b, lead, t)
  {
  }

  /** Joining tokens gives the empty string only for no tokens. */
  lemma JoinEmpty(ts: seq<string>)
    requires AreTokens(ts)
    ensures Join(ts) == "" <==> ts == []
  {
    SplitJoin(ts);
  }
}
