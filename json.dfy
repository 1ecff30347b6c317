/**
 * JSON-like values as Python holds them after `json.loads`, together with the
 * dictionary operations (`d.get(k)`, `d[k] = v`), truthiness, `str(v)` and
 * `json.dumps(v)` with its default settings.
 */
module Json {
  import opened Wrappers
  import opened Text

  /** The text of a Python float as `repr` writes it, which is always printable ASCII. */
  type FloatRepr = s: string | Printable(s) witness "0.0"

  /** A Python value that JSON can carry. Objects keep their keys in insertion order,
      as Python dicts do. */
  datatype Value =
    | Null
    | Bool(b: bool)
    | Int(i: int)
    | Float(repr: FloatRepr)
    | Str(s: string)
    | Arr(items: seq<Value>)
    | Obj(entries: seq<(string, Value)>)

  /** A Python dict with string keys, entries in insertion order. */
  type Dict = seq<(string, Value)>

  function Keys(d: Dict): set<string> {
    set i | 0 <= i < |d| :: d[i].0
  }

  lemma KeysFront(d: Dict)
    requires d != []
    ensures Keys(d) == {d[0].0} + Keys(d[1..])
  {
    forall x | x in Keys(d) ensures x in {d[0].0} + Keys(d[1..]) {
      var i :| 0 <= i < |d| && d[i].0 == x;
      if i > 0 { assert d[1..][i - 1].0 == x; }
    }
  }

  /** The value stored under `k`; `None` when `k` is not a key. */
  function Get(d: Dict, k: string): (r: Option<Value>)
    ensures r.None? <==> k !in Keys(d)
    ensures r.Some? ==> exists i :: 0 <= i < |d| && d[i] == (k, r.value)
    decreases |d|
  {
    if d == [] then None
    else if d[0].0 == k then Some(d[0].1)
    else
      var r := Get(d[1..], k);
      KeysFront(d);
      if r.Some? then
        var i :| 0 <= i < |d[1..]| && d[1..][i] == (k, r.value);
        assert d[i + 1] == (k, r.value);
        r
      else r
  }

  /** Python's `d.get(k)`: the stored value, or `None` for a missing key. */
  function Lookup(d: Dict, k: string): Value {
    Get(d, k).GetOr(Null)
  }

  /** Overwriting the first entry, whose key is `k`. */
  lemma UpdateFront(d: Dict, k: string, v: Value)
    requires d != [] && d[0].0 == k
    ensures var r := [(k, v)] + d[1..];
      && Get(r, k) == Some(v)
      && (forall k' :: k' != k ==> Get(r, k') == Get(d, k'))
      && Keys(r) == Keys(d) + {k}
      && |r| == |d|
  {
    var r := [(k, v)] + d[1..];
    assert r[1..] == d[1..];
    KeysFront(d);
    KeysFront(r);
  }

  /** Keeping a first entry whose key is not `k` in front of the updated rest. */
  lemma UpdateCons(d: Dict, k: string, v: Value, t: Dict)
    requires d != [] && d[0].0 != k
    requires Get(t, k) == Some(v)
    requires forall k' :: k' != k ==> Get(t, k') == Get(d[1..], k')
    requires Keys(t) == Keys(d[1..]) + {k}
    requires k in Keys(d[1..]) ==> |t| == |d[1..]|
    requires k !in Keys(d[1..]) ==> t == d[1..] + [(k, v)]
    ensures var r := [d[0]] + t;
      && Get(r, k) == Some(v)
      && (forall k' :: k' != k ==> Get(r, k') == Get(d, k'))
      && Keys(r) == Keys(d) + {k}
      && (k in Keys(d) ==> |r| == |d|)
      && (k !in Keys(d) ==> r == d + [(k, v)])
  {
    var r := [d[0]] + t;
    assert r[1..] == t;
    KeysFront(d);
    KeysFront(r);
    if k !in Keys(d) {
      assert r == [d[0]] + d[1..] + [(k, v)];
      assert [d[0]] + d[1..] == d;
    }
  }

  /** Python's `d[k] = v`: an existing key keeps its position and takes the new value;
      a new key is appended at the end. */
  function Update(d: Dict, k: string, v: Value): (r: Dict)
    ensures Get(r, k) == Some(v)
    ensures forall k' :: k' != k ==> Get(r, k') == Get(d, k')
    ensures Keys(r) == Keys(d) + {k}
    ensures k in Keys(d) ==> |r| == |d|
    ensures k !in Keys(d) ==> r == d + [(k, v)]
    decreases |d|
  {
    if d == [] then [(k, v)]
    else if d[0].0 == k then
      UpdateFront(d, k, v);
      KeysFront(d);
      [(k, v)] + d[1..]
    else
      var t := Update(d[1..], k, v);
      UpdateCons(d, k, v, t);
      [d[0]] + t
  }

  /** Overwriting a key that is present keeps every entry where it was: the keys stay in
      place and only an entry under `k` can change. */
  lemma {:induction false} UpdateKeepsPositions(d: Dict, k: string, v: Value)
    requires k in Keys(d)
    ensures var r := Update(d, k, v);
      && |r| == |d|
      && forall i :: 0 <= i < |d| ==> r[i].0 == d[i].0 && (d[i].0 != k ==> r[i] == d[i])
    decreases |d|
  {
    KeysFront(d);
    if d[0].0 != k {
      UpdateKeepsPositions(d[1..], k, v);
      var r := Update(d, k, v);
      assert r == [d[0]] + Update(d[1..], k, v);
      forall i | 0 < i < |d| ensures r[i].0 == d[i].0 && (d[i].0 != k ==> r[i] == d[i]) {
        assert r[i] == Update(d[1..], k, v)[i - 1] && d[i] == d[1..][i - 1];
      }
    }
  }

  /** No key occurs twice, as in every Python dict. */
  predicate UniqueKeys(d: Dict) {
    forall i, j :: 0 <= i < j < |d| ==> d[i].0 != d[j].0
  }

  /** `d[k] = v` never introduces a duplicate key. */
  lemma UpdateKeepsUnique(d: Dict, k: string, v: Value)
    requires UniqueKeys(d)
    ensures UniqueKeys(Update(d, k, v))
  {
    var r := Update(d, k, v);
    if k in Keys(d) {
      UpdateKeepsPositions(d, k, v);
    } else {
      forall i, j | 0 <= i < j < |r| ensures r[i].0 != r[j].0 {
        if j == |d| {
          assert r[i] == d[i];
          assert d[i].0 in Keys(d);
        }
      }
    }
  }

  /** Python truthiness: `None`, `False`, zero, the empty string, list and dict are false. */
  predicate Truthy(v: Value) {
    match v
    case Null => false
    case Bool(b) => b
    case Int(i) => i != 0
    case Float(r) => r != "0.0" && r != "-0.0"
    case Str(s) => s != ""
    case Arr(items) => items != []
    case Obj(entries) => entries != []
  }

  function DigitChar(d: nat): (c: char)
    requires d < 10
    ensures '0' <= c <= '9'
  {
    "0123456789"[d]
  }

  /** The decimal digits of `n`, most significant first, with no leading zero. */
  function NatDigits(n: nat): (s: string)
    ensures |s| > 0 && AllDigits(s)
    ensures s[0] == '0' ==> n == 0
    decreases n
  {
    if n < 10 then [DigitChar(n)] else NatDigits(n / 10) + [DigitChar(n % 10)]
  }

  /** Python's `str(i)` for an int: an optional minus sign, then the decimal digits. */
  function IntText(i: int): string {
    if i < 0 then "-" + NatDigits(-i) else NatDigits(i)
  }

  predicate AllDigits(s: string) {
    forall i :: 0 <= i < |s| ==> '0' <= s[i] <= '9'
  }

  /** The number a string of decimal digits denotes. */
  function DigitsValue(s: string): nat
    requires AllDigits(s)
    decreases |s|
  {
    if s == [] then 0 else 10 * DigitsValue(s[..|s| - 1]) + (s[|s| - 1] as int - '0' as int)
  }

  /** Reading a signed decimal numeral back, the inverse of IntText. */
  function ParseInt(s: string): Option<int> {
    if |s| > 1 && s[0] == '-' && AllDigits(s[1..]) then
      var n: int := DigitsValue(s[1..]);
      Some(-n)
    else if |s| > 0 && AllDigits(s) then
      var n: int := DigitsValue(s);
      Some(n)
    else None
  }

  lemma {:induction false} NatDigitsValue(n: nat)
    ensures DigitsValue(NatDigits(n)) == n
    decreases n
  {
    if n >= 10 {
      NatDigitsValue(n / 10);
      var s := NatDigits(n);
      assert s[..|s| - 1] == NatDigits(n / 10);
    }
  }

  /** The decimal text of an integer reads back as the same integer. */
  lemma IntTextRoundTrip(i: int)
    ensures ParseInt(IntText(i)) == Some(i)
  {
    var s := IntText(i);
    if i < 0 {
      NatDigitsValue(-i);
      assert s[1..] == NatDigits(-i);
    } else {
      NatDigitsValue(i);
      assert s[0] != '-';
    }
  }

  /** Python's `str(v)`. Lists and dicts are rendered as their JSON text. */
  function PyStr(v: Value): string {
    match v
    case Null => "None"
    case Bool(b) => if b then "True" else "False"
    case Int(i) => IntText(i)
    case Float(r) => r
    case Str(s) => s
    case _ => Dumps(v)
  }

  function HexDigit(d: nat): (c: char)
    requires d < 16
    ensures Printable([c])
  {
    "0123456789abcdef"[d]
  }

  /** Four lower-case hexadecimal digits, as Python's `'{0:04x}'.format(n)`. */
  function Hex4(n: nat): (s: string)
    requires n < 0x1_0000
    ensures |s| == 4 && Printable(s)
  {
    [HexDigit(n / 0x1000), HexDigit(n / 0x100 % 16), HexDigit(n / 16 % 16), HexDigit(n % 16)]
  }

  /** How `json.dumps` (with `ensure_ascii`) writes one character inside a string literal:
      quote and backslash are escaped, the usual control characters get short escapes,
      other characters outside space..tilde become `\uXXXX`, above U+FFFF as a surrogate pair. */
  function EscapeChar(c: char): (s: string)
    ensures Printable(s)
  {
    if c == '"' then "\\\""
    else if c == '\\' then "\\\\"
    else if c == '\n' then "\\n"
    else if c == '\r' then "\\r"
    else if c == '\t' then "\\t"
    else if c == '\U{8}' then "\\b"
    else if c == '\U{c}' then "\\f"
    else if ' ' <= c <= '~' then [c]
    else if (c as int) < 0x1_0000 then "\\u" + Hex4(c as int)
    else
      var n := c as int - 0x1_0000;
      "\\u" + Hex4(0xd800 + n / 0x400) + "\\u" + Hex4(0xdc00 + n % 0x400)
  }

  function EscapeChars(s: string): (r: string)
    ensures Printable(r)
    decreases |s|
  {
    if s == [] then "" else EscapeChar(s[0]) + EscapeChars(s[1..])
  }

  /** A JSON string literal for `s`. */
  function Quote(s: string): (r: string)
    ensures Printable(r)
  {
    "\"" + EscapeChars(s) + "\""
  }

  /** The text of a float in JSON: Python writes the non-finite values as NaN and Infinity. */
  function FloatJson(r: FloatRepr): (s: string)
    ensures Printable(s)
  {
    if r == "nan" then "NaN" else if r == "inf" then "Infinity" else if r == "-inf" then "-Infinity" else r
  }

  /** `json.dumps(v)` with the default settings: separators ", " and ": ", keys in insertion
      order, non-ASCII escaped. The result is printable ASCII, so in particular it never
      holds a line break. */
  function Dumps(v: Value): (s: string)
    ensures Printable(s)
    decreases v
  {
    match v
    case Null => "null"
    case Bool(b) => if b then "true" else "false"
    case Int(i) => IntText(i)
    case Float(r) => FloatJson(r)
    case Str(s) => Quote(s)
    case Arr(items) =>
      var parts := seq(|items|, i requires 0 <= i < |items| => Dumps(items[i]));
      JoinPrintable(parts, ", ");
      "[" + Join(parts, ", ") + "]"
    case Obj(entries) =>
      var parts := seq(|entries|, i requires 0 <= i < |entries| => Quote(entries[i].0) + ": " + Dumps(entries[i].1));
      JoinPrintable(parts, ", ");
      "{" + Join(parts, ", ") + "}"
  }

  lemma {:induction false} EscapeCharsPlain(s: string)
    requires Printable(s) && Lacks(s, '"') && Lacks(s, '\\')
    ensures EscapeChars(s) == s
    decreases |s|
  {
    if s != [] {
      EscapeCharsPlain(s[1..]);
      assert [s[0]] + s[1..] == s;
    }
  }

  /** A string that needs no escaping is written between plain quotes. */
  lemma QuotePlain(s: string)
    requires Printable(s) && Lacks(s, '"') && Lacks(s, '\\')
    ensures Quote(s) == "\"" + s + "\""
  {
    EscapeCharsPlain(s);
  }

  /** A two-entry object of strings, written out piece by piece. */
  lemma DumpsTwoStrings(k0: string, v0: string, k1: string, v1: string)
    ensures Dumps(Obj([(k0, Str(v0)), (k1, Str(v1))]))
      == "{" + ((Quote(k0) + ": " + Quote(v0)) + ", " + (Quote(k1) + ": " + Quote(v1))) + "}"
  {
    var entries := [(k0, Str(v0)), (k1, Str(v1))];
    var parts := seq(|entries|, i requires 0 <= i < |entries| => Quote(entries[i].0) + ": " + Dumps(entries[i].1));
    assert parts == [Quote(k0) + ": " + Quote(v0), Quote(k1) + ": " + Quote(v1)];
    assert parts[1..] == [parts[1]];
    assert Join(parts, ", ") == parts[0] + ", " + parts[1];
  }
}
