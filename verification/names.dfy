/**
 * `createVariableNames` (scripts/js-obfuscator.js:1008-1035): the alias names
 * for the compaction step, enumerated shortest first and, within one length, in
 * the order of the candidate characters (the first character varying slowest),
 * until `variableCount` names are collected. The de-duplication of the
 * candidates (line 1069) is `Dedupe`.
 */
module Names {

  /** The first `n` elements of `s`, or all of them when there are fewer. */
  function Take<T>(s: seq<T>, n: nat): (r: seq<T>)
    ensures |r| == if |s| <= n then |s| else n
    ensures r <= s
  {
    if |s| <= n then s else s[..n]
  }

  /** Cutting twice at the same length is cutting once, whatever is appended in between. */
  lemma TakeAppend<T>(a: seq<T>, b: seq<T>, n: nat)
    ensures Take(Take(a, n) + b, n) == Take(a + b, n)
  {
    if |a| > n {
      assert (a + b)[..n] == a[..n];
      assert (a[..n] + b)[..n] == a[..n];
    }
  }

  /** `prefix` extended by every word of length `n` over the candidates, in enumeration order. */
  function Ext(cands: seq<char>, prefix: string, n: nat): seq<string>
    decreases n, 0, 0
  {
    if n == 0 then [prefix] else ExtAll(cands, prefix, n - 1, cands)
  }

  /** The extensions of `prefix + [v]` by `n` more characters, for each `v` of `vs` in turn. */
  function ExtAll(cands: seq<char>, prefix: string, n: nat, vs: seq<char>): seq<string>
    decreases n, 1, |vs|
  {
    if vs == [] then []
    else ExtAll(cands, prefix, n, vs[..|vs| - 1]) + Ext(cands, prefix + [vs[|vs| - 1]], n)
  }

  /** All words of length `n` over the candidates. */
  function Words(cands: seq<char>, n: nat): seq<string> {
    Ext(cands, [], n)
  }

  /** All words of lengths 1 to `len`, shortest first. */
  function Upto(cands: seq<char>, len: nat): seq<string> {
    if len == 0 then [] else Upto(cands, len - 1) + Words(cands, len)
  }

  /** What `createVariableNames(cands, count)` returns: the first `count` words in that order. */
  function VariableNames(cands: seq<char>, count: nat): seq<string> {
    Take(Upto(cands, count), count)
  }

  // ---------------------------------------------------------------------------
  // Properties of the enumeration.

  predicate Over(cands: seq<char>, w: string) {
    forall j :: 0 <= j < |w| ==> w[j] in cands
  }

  predicate Distinct<T(==)>(s: seq<T>) {
    forall i, j :: 0 <= i < j < |s| ==> s[i] != s[j]
  }

  /** Every extension of `prefix` has `n` more characters, all candidates, after `prefix`. */
  lemma {:induction false} ExtShape(cands: seq<char>, prefix: string, n: nat)
    ensures forall i :: 0 <= i < |Ext(cands, prefix, n)| ==>
      var w := Ext(cands, prefix, n)[i];
      |w| == |prefix| + n && w[..|prefix|] == prefix && forall j :: |prefix| <= j < |w| ==> w[j] in cands
    decreases n, 0, 0
  {
    if n > 0 {
      ExtAllShape(cands, prefix, n - 1, cands);
    }
  }

  lemma {:induction false} ExtAllShape(cands: seq<char>, prefix: string, n: nat, vs: seq<char>)
    requires forall v :: v in vs ==> v in cands
    ensures forall i :: 0 <= i < |ExtAll(cands, prefix, n, vs)| ==>
      var w := ExtAll(cands, prefix, n, vs)[i];
      |w| == |prefix| + n + 1 && w[..|prefix|] == prefix && w[|prefix|] in vs &&
      forall j :: |prefix| <= j < |w| ==> w[j] in cands
    decreases n, 1, |vs|
  {
    if vs != [] {
      var init := vs[..|vs| - 1];
      var v := vs[|vs| - 1];
      ExtAllShape(cands, prefix, n, init);
      ExtShape(cands, prefix + [v], n);
      var a := ExtAll(cands, prefix, n, init);
      var b := Ext(cands, prefix + [v], n);
      forall i | 0 <= i < |a + b|
        ensures var w := (a + b)[i];
          |w| == |prefix| + n + 1 && w[..|prefix|] == prefix && w[|prefix|] in vs &&
          forall j :: |prefix| <= j < |w| ==> w[j] in cands
      {
        if i >= |a| {
          var w := b[i - |a|];
          assert w[..|prefix| + 1] == prefix + [v];
          assert w[..|prefix|] == w[..|prefix| + 1][..|prefix|];
          assert w[|prefix|] == w[..|prefix| + 1][|prefix|];
        }
      }
    }
  }

  /** There is at least one extension once there is a candidate. */
  lemma {:induction false} ExtNonEmpty(cands: seq<char>, prefix: string, n: nat)
    requires cands != []
    ensures |Ext(cands, prefix, n)| >= 1
    decreases n, 0, 0
  {
    if n > 0 {
      ExtAllNonEmpty(cands, prefix, n - 1, cands);
    }
  }

  lemma {:induction false} ExtAllNonEmpty(cands: seq<char>, prefix: string, n: nat, vs: seq<char>)
    requires cands != [] && vs != []
    ensures |ExtAll(cands, prefix, n, vs)| >= 1
    decreases n, 1, |vs|
  {
    ExtNonEmpty(cands, prefix + [vs[|vs| - 1]], n);
  }

  /** With distinct candidates no word is enumerated twice. */
  lemma {:induction false} ExtDistinct(cands: seq<char>, prefix: string, n: nat)
    requires Distinct(cands)
    ensures Distinct(Ext(cands, prefix, n))
    decreases n, 0, 0
  {
    if n > 0 {
      ExtAllDistinct(cands, prefix, n - 1, cands);
    }
  }

  lemma {:induction false} ExtAllDistinct(cands: seq<char>, prefix: string, n: nat, vs: seq<char>)
    requires Distinct(cands) && Distinct(vs)
    requires forall v :: v in vs ==> v in cands
    ensures Distinct(ExtAll(cands, prefix, n, vs))
    decreases n, 1, |vs|
  {
    if vs != [] {
      var init := vs[..|vs| - 1];
      var v := vs[|vs| - 1];
      ExtAllDistinct(cands, prefix, n, init);
      ExtDistinct(cands, prefix + [v], n);
      ExtAllShape(cands, prefix, n, init);
      ExtShape(cands, prefix + [v], n);
      var a := ExtAll(cands, prefix, n, init);
      var b := Ext(cands, prefix + [v], n);
      forall i, j | 0 <= i < |a| && 0 <= j < |b|
        ensures a[i] != b[j]
      {
        assert b[j][..|prefix| + 1] == prefix + [v];
        assert b[j][|prefix|] == v;
        assert v !in init;
      }
      assert ExtAll(cands, prefix, n, vs) == a + b;
    }
  }

  /** Every enumerated word up to `len` is over the candidates, between 1 and `len` long, lengths non-decreasing. */
  lemma {:induction false} UptoShape(cands: seq<char>, len: nat)
    ensures forall i :: 0 <= i < |Upto(cands, len)| ==>
      1 <= |Upto(cands, len)[i]| <= len && Over(cands, Upto(cands, len)[i])
    ensures forall i, j :: 0 <= i < j < |Upto(cands, len)| ==> |Upto(cands, len)[i]| <= |Upto(cands, len)[j]|
  {
    if len > 0 {
      UptoShape(cands, len - 1);
      ExtShape(cands, [], len);
    }
  }

  lemma {:induction false} UptoDistinct(cands: seq<char>, len: nat)
    requires Distinct(cands)
    ensures Distinct(Upto(cands, len))
  {
    if len > 0 {
      UptoDistinct(cands, len - 1);
      UptoShape(cands, len - 1);
      ExtShape(cands, [], len);
      ExtDistinct(cands, [], len);
    }
  }

  lemma {:induction false} UptoLength(cands: seq<char>, len: nat)
    requires cands != []
    ensures |Upto(cands, len)| >= len
  {
    if len > 0 {
      UptoLength(cands, len - 1);
      ExtNonEmpty(cands, [], len);
    }
  }

  /** A longer enumeration begins with a shorter one. */
  lemma {:induction false} UptoPrefix(cands: seq<char>, a: nat, b: nat)
    requires a <= b
    ensures Upto(cands, a) <= Upto(cands, b)
  {
    if a < b {
      UptoPrefix(cands, a, b - 1);
    }
  }

  /** Once `count` words are enumerated, enumerating longer words does not change the first `count`. */
  lemma UptoEnough(cands: seq<char>, a: nat, b: nat, count: nat)
    requires a <= b && |Upto(cands, a)| >= count
    ensures Take(Upto(cands, a), count) == Take(Upto(cands, b), count)
  {
    UptoPrefix(cands, a, b);
  }

  /**
   * With at least one candidate there are exactly `count` names; each is a
   * non-empty word over the candidates; lengths never decrease; and the names are
   * the enumeration up to the last name's length, cut at `count`, so every word
   * of a shorter length comes first.
   */
  lemma VariableNamesShape(cands: seq<char>, count: nat)
    ensures cands != [] ==> |VariableNames(cands, count)| == count
    ensures forall i :: 0 <= i < |VariableNames(cands, count)| ==>
      |VariableNames(cands, count)[i]| >= 1 && Over(cands, VariableNames(cands, count)[i])
    ensures forall i, j :: 0 <= i < j < |VariableNames(cands, count)| ==>
      |VariableNames(cands, count)[i]| <= |VariableNames(cands, count)[j]|
    ensures VariableNames(cands, count) <= Upto(cands, count)
  {
    UptoShape(cands, count);
    if cands != [] {
      UptoLength(cands, count);
    }
  }

  /** No candidates, no names. */
  lemma {:induction false} VariableNamesEmpty(count: nat)
    ensures VariableNames([], count) == []
  {
    UptoEmpty(count);
  }

  lemma {:induction false} UptoEmpty(len: nat)
    ensures Upto([], len) == []
  {
    if len > 0 {
      UptoEmpty(len - 1);
      assert Words([], len) == ExtAll([], [], len - 1, []) == [];
    }
  }

  /** Distinct candidates give distinct names. */
  lemma VariableNamesDistinct(cands: seq<char>, count: nat)
    requires Distinct(cands)
    ensures Distinct(VariableNames(cands, count))
  {
    UptoDistinct(cands, count);
  }

  // ---------------------------------------------------------------------------
  // The enumeration as the source performs it.

  /** One more candidate in the outer loop adds that candidate's extensions. */
  lemma ExtAllStep(cands: seq<char>, prefix: string, n: nat, i: nat)
    requires i < |cands|
    ensures ExtAll(cands, prefix, n, cands[..i + 1]) == ExtAll(cands, prefix, n, cands[..i]) + Ext(cands, prefix + [cands[i]], n)
  {
    assert cands[..i + 1][..i] == cands[..i];
  }

  /**
   * `createPermutation(goalLength, prefix)`: appends the extensions of `prefix`
   * to length `goal` to `results`, stopping as soon as `count` names are collected.
   */
  method CreatePermutation(cands: seq<char>, count: nat, goal: nat, prefix: string, results: seq<string>)
    returns (out: seq<string>)
    requires |prefix| <= goal && |results| <= count
    ensures out == Take(results + Ext(cands, prefix, goal - |prefix|), count)
    decreases goal - |prefix|
  {
    if |results| == count {
      return results;
    }
    if |prefix| == goal {
      return results + [prefix];
    }
    var n := goal - |prefix| - 1;
    out := results;
    var i := 0;
    while i < |cands|
      invariant 0 <= i <= |cands|
      invariant out == Take(results + ExtAll(cands, prefix, n, cands[..i]), count)
    {
      var v := cands[i];
      var next := CreatePermutation(cands, count, goal, prefix + [v], out);
      ExtAllStep(cands, prefix, n, i);
      TakeAppend(results + ExtAll(cands, prefix, n, cands[..i]), Ext(cands, prefix + [v], n), count);
      assert results + ExtAll(cands, prefix, n, cands[..i + 1]) ==
        results + ExtAll(cands, prefix, n, cands[..i]) + Ext(cands, prefix + [v], n);
      out := next;
      i := i + 1;
    }
    assert cands[..i] == cands;
    assert Ext(cands, prefix, goal - |prefix|) == ExtAll(cands, prefix, n, cands);
  }

  /** `createVariableNames(cands, count)`. */
  method CreateVariableNames(cands: seq<char>, count: nat) returns (names: seq<string>)
    ensures names == VariableNames(cands, count)
  {
    names := [];
    if |cands| > 0 {
      var length := 1;
      while |names| < count
        invariant 1 <= length
        invariant names == Take(Upto(cands, length - 1), count)
        invariant length - 1 <= count
        decreases count - |names|
      {
        UptoLength(cands, length - 1);
        ExtNonEmpty(cands, [], length);
        names := CreatePermutation(cands, count, length, [], names);
        TakeAppend(Upto(cands, length - 1), Words(cands, length), count);
        length := length + 1;
      }
      UptoEnough(cands, length - 1, count, count);
    } else {
      VariableNamesEmpty(count);
    }
  }

  /** `[...new Set(s)]`: the first occurrence of every element, in order. */
  function Dedupe(s: seq<char>): (r: seq<char>)
    ensures Distinct(r)
    ensures forall x :: x in r <==> x in s
  {
    if s == [] then []
    else
      var init := Dedupe(s[..|s| - 1]);
      if s[|s| - 1] in init then init else init + [s[|s| - 1]]
  }

  /** The position of the first occurrence of `x` in `s`. */
  function FirstIndex(s: seq<char>, x: char): (i: nat)
    requires x in s
    ensures i < |s| && s[i] == x && x !in s[..i]
  {
    if s[0] == x then 0 else 1 + FirstIndex(s[1..], x)
  }

  /** Any position holding `x` with no `x` before it is the first occurrence. */
  lemma FirstIndexUnique(s: seq<char>, x: char, k: nat)
    requires k < |s| && s[k] == x && x !in s[..k]
    ensures FirstIndex(s, x) == k
  {
  }

  /**
   * `Dedupe` lists the elements in the order of their first occurrences in `s`,
   * so together with its contract it is the only repeat-free sequence of the
   * members of `s` in that order.
   */
  lemma {:induction false} DedupeFirstOccurrenceOrder(s: seq<char>)
    ensures forall i, j :: 0 <= i < j < |Dedupe(s)| ==>
      FirstIndex(s, Dedupe(s)[i]) < FirstIndex(s, Dedupe(s)[j])
  {
    if s != [] {
      var n := |s| - 1;
      var init := Dedupe(s[..n]);
      DedupeFirstOccurrenceOrder(s[..n]);
      forall y | y in s[..n]
        ensures FirstIndex(s, y) == FirstIndex(s[..n], y)
      {
        var k := FirstIndex(s[..n], y);
        assert s[..k] == s[..n][..k];
        FirstIndexUnique(s, y, k);
      }
      if s[n] !in init {
        FirstIndexUnique(s, s[n], n);
      }
    }
  }
}
