/**
 * The pieces of Python's string behaviour that the insights step relies on:
 * `sep.join(parts)`, `s.split(c)` for a one-character separator,
 * `s.replace(old, new)`, and the truthiness of `s.strip()`.
 */
module Text {

  /** Every character lies in the printable ASCII range, space to tilde. */
  predicate Printable(s: string) {
    forall i :: 0 <= i < |s| ==> ' ' <= s[i] <= '~'
  }

  /** The character `c` does not occur in `s`. */
  predicate Lacks(s: string, c: char) {
    forall i :: 0 <= i < |s| ==> s[i] != c
  }

  /** Python's `sep.join(parts)`: the parts with `sep` between neighbours, no trailing separator. */
  function Join(parts: seq<string>, sep: string): string
    decreases |parts|
  {
    if |parts| == 0 then ""
    else if |parts| == 1 then parts[0]
    else parts[0] + sep + Join(parts[1..], sep)
  }

  /** Python's `s.split(c)` for a single-character separator: always at least one piece. */
  function Split(s: string, c: char): (r: seq<string>)
    ensures |r| > 0
    decreases |s|
  {
    if s == [] then [""]
    else
      var rest := Split(s[1..], c);
      if s[0] == c then [""] + rest else [[s[0]] + rest[0]] + rest[1..]
  }

  lemma {:induction false} SplitWithout(s: string, c: char)
    requires Lacks(s, c)
    ensures Split(s, c) == [s]
    decreases |s|
  {
    if s != [] {
      SplitWithout(s[1..], c);
      assert [s[0]] + s[1..] == s;
    }
  }

  lemma {:induction false} SplitAfter(a: string, c: char, b: string)
    requires Lacks(a, c)
    ensures Split(a + [c] + b, c) == [a] + Split(b, c)
    decreases |a|
  {
    var s := a + [c] + b;
    if a == [] {
      assert s[0] == c && s[1..] == b;
    } else {
      assert s[0] == a[0];
      assert s[1..] == a[1..] + [c] + b;
      SplitAfter(a[1..], c, b);
      assert [a[0]] + a[1..] == a;
    }
  }

  /** Splitting a join at a separator that no part contains gives the parts back. */
  lemma {:induction false} SplitJoin(parts: seq<string>, c: char)
    requires |parts| > 0
    requires forall i :: 0 <= i < |parts| ==> Lacks(parts[i], c)
    ensures Split(Join(parts, [c]), c) == parts
    decreases |parts|
  {
    if |parts| == 1 {
      SplitWithout(parts[0], c);
    } else {
      SplitJoin(parts[1..], c);
      SplitAfter(parts[0], c, Join(parts[1..], [c]));
      assert [parts[0]] + parts[1..] == parts;
    }
  }

  lemma {:induction false} JoinPrintable(parts: seq<string>, sep: string)
    requires Printable(sep)
    requires forall i :: 0 <= i < |parts| ==> Printable(parts[i])
    ensures Printable(Join(parts, sep))
    decreases |parts|
  {
    if |parts| > 1 {
      JoinPrintable(parts[1..], sep);
    }
  }

  /** A non-empty join ends with its last part. */
  lemma {:induction false} JoinEndsWithLast(parts: seq<string>, sep: string)
    requires |parts| > 0
    ensures |Join(parts, sep)| >= |parts[|parts| - 1]|
    ensures Join(parts, sep)[|Join(parts, sep)| - |parts[|parts| - 1]|..] == parts[|parts| - 1]
    decreases |parts|
  {
    if |parts| > 1 {
      JoinEndsWithLast(parts[1..], sep);
    }
  }

  /** `p` occurs in `s` starting at index `k`. */
  predicate OccursAt(s: string, p: string, k: nat) {
    k + |p| <= |s| && s[k..k + |p|] == p
  }

  /** Python's `s.replace(p, r)` for a non-empty `p`: scan left to right and replace
      every non-overlapping occurrence, resuming after each replaced one. */
  function ReplaceAll(s: string, p: string, r: string): string
    requires |p| > 0
    decreases |s|
  {
    if |s| < |p| then s
    else if s[..|p|] == p then r + ReplaceAll(s[|p|..], p, r)
    else [s[0]] + ReplaceAll(s[1..], p, r)
  }

  lemma OccursShift(s: string, p: string, j: nat)
    requires |s| > 0
    ensures OccursAt(s[1..], p, j) <==> OccursAt(s, p, j + 1)
  {
    if j + |p| <= |s| - 1 {
      assert s[1..][j..j + |p|] == s[j + 1..j + 1 + |p|];
    }
  }

  /** A string with no occurrence of the pattern is returned unchanged. */
  lemma {:induction false} ReplaceAbsent(s: string, p: string, r: string)
    requires |p| > 0
    requires forall k: nat :: !OccursAt(s, p, k)
    ensures ReplaceAll(s, p, r) == s
    decreases |s|
  {
    if |s| >= |p| {
      assert !OccursAt(s, p, 0);
      forall k: nat ensures !OccursAt(s[1..], p, k) {
        OccursShift(s, p, k);
      }
      ReplaceAbsent(s[1..], p, r);
      assert [s[0]] + s[1..] == s;
    }
  }

  lemma ReplaceSkip(s: string, p: string, r: string)
    requires |p| > 0 && |s| >= |p|
    requires !OccursAt(s, p, 0)
    ensures ReplaceAll(s, p, r) == [s[0]] + ReplaceAll(s[1..], p, r)
  {
  }

  lemma NoneBeforeShift(s: string, p: string, k: nat)
    requires |s| > 0 && k > 0
    requires OccursAt(s, p, k)
    requires forall j: nat :: j < k ==> !OccursAt(s, p, j)
    ensures OccursAt(s[1..], p, k - 1)
    ensures forall j: nat :: j < k - 1 ==> !OccursAt(s[1..], p, j)
  {
    OccursShift(s, p, k - 1);
    forall j: nat | j < k - 1 ensures !OccursAt(s[1..], p, j) {
      OccursShift(s, p, j);
    }
  }

  lemma ReplaceAtStart(s: string, p: string, r: string)
    requires |p| > 0
    requires OccursAt(s, p, 0)
    ensures ReplaceAll(s, p, r) == r + ReplaceAll(s[|p|..], p, r)
  {
    assert s[..|p|] == p;
  }

  lemma Regroup(x: string, c: char, y: string, a: string, r: string, t: string, front: string)
    requires x == [c] + y && y == a + r + t && [c] + a == front
    ensures x == front + r + t
  {
  }

  /** The leftmost occurrence is replaced and scanning resumes right after it:
      together with ReplaceAbsent this determines ReplaceAll completely. */
  lemma {:induction false} ReplaceLeftmost(s: string, p: string, r: string, k: nat)
    requires |p| > 0
    requires OccursAt(s, p, k)
    requires forall j: nat :: j < k ==> !OccursAt(s, p, j)
    ensures ReplaceAll(s, p, r) == s[..k] + r + ReplaceAll(s[k + |p|..], p, r)
    decreases k
  {
    if k == 0 {
      ReplaceAtStart(s, p, r);
      assert s[..k] == [];
    } else {
      ReplaceSkip(s, p, r);
      NoneBeforeShift(s, p, k);
      ReplaceLeftmost(s[1..], p, r, k - 1);
      assert s[1..][k - 1 + |p|..] == s[k + |p|..];
      assert [s[0]] + s[1..][..k - 1] == s[..k];
      Regroup(ReplaceAll(s, p, r), s[0], ReplaceAll(s[1..], p, r), s[1..][..k - 1], r, ReplaceAll(s[k + |p|..], p, r), s[..k]);
    }
  }

  /** One occurrence between two stretches that lack the pattern's first character. */
  lemma ReplaceSingle(a: string, p: string, b: string, r: string)
    requires |p| > 0
    requires Lacks(a, p[0]) && Lacks(b, p[0])
    ensures ReplaceAll(a + p + b, p, r) == a + r + b
  {
    var s := a + p + b;
    assert OccursAt(s, p, |a|) by { assert s[|a|..|a| + |p|] == p; }
    forall j: nat | j < |a| ensures !OccursAt(s, p, j) {
      assert s[j] == a[j];
    }
    ReplaceLeftmost(s, p, r, |a|);
    assert s[|a| + |p|..] == b;
    forall k: nat ensures !OccursAt(b, p, k) {
      if k + |p| <= |b| { assert b[k..k + |p|][0] == b[k] != p[0]; }
    }
    ReplaceAbsent(b, p, r);
    assert s[..|a|] == a;
  }

  /** The characters for which Python's `str.isspace()` holds, i.e. those `strip()` removes. */
  predicate IsPythonSpace(c: char) {
    || c == ' ' || ('\t' <= c <= '\r') || ('\U{1c}' <= c <= '\U{1f}')
    || c == '\U{85}' || c == '\U{a0}' || c == '\U{1680}'
    || ('\U{2000}' <= c <= '\U{200a}') || c == '\U{2028}' || c == '\U{2029}'
    || c == '\U{202f}' || c == '\U{205f}' || c == '\U{3000}'
  }

  /** `not s.strip()`: the string is empty or consists of whitespace only. */
  predicate IsBlank(s: string) {
    forall i :: 0 <= i < |s| ==> IsPythonSpace(s[i])
  }
}
