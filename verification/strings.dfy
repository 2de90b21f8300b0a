/**
 * The two string primitives the engine leans on: `Array.prototype.join` and
 * `String.prototype.split` with a string separator, and `replaceAll`, which is
 * their composition (scripts/js-obfuscator.js:1133-1135).
 */
module Strings {

  /** `parts.join(sep)`: the parts with `sep` between neighbours. */
  function Join(parts: seq<string>, sep: string): (r: string)
    ensures parts == [] ==> r == []
    ensures |parts| == 1 ==> r == parts[0]
  {
    if parts == [] then []
    else if |parts| == 1 then parts[0]
    else parts[0] + sep + Join(parts[1..], sep)
  }

  /** The summed lengths of a list of strings. */
  function TotalLength(parts: seq<string>): nat {
    if parts == [] then 0 else |parts[0]| + TotalLength(parts[1..])
  }

  lemma {:induction false} JoinLength(parts: seq<string>, sep: string)
    requires parts != []
    ensures |Join(parts, sep)| == TotalLength(parts) + (|parts| - 1) * |sep|
  {
    if |parts| > 1 {
      JoinLength(parts[1..], sep);
    }
  }

  /** Joining appends one more part after one more separator. */
  lemma {:induction false} JoinSnoc(parts: seq<string>, p: string, sep: string)
    requires parts != []
    ensures Join(parts + [p], sep) == Join(parts, sep) + sep + p
  {
    if |parts| == 1 {
      assert parts + [p] == [parts[0], p];
    } else {
      assert (parts + [p])[1..] == parts[1..] + [p];
      JoinSnoc(parts[1..], p, sep);
    }
  }

  /** `t` occurs in `s` (`s.indexOf(t) !== -1`). */
  predicate Contains(s: string, t: string) {
    |t| <= |s| && (s[..|t|] == t || (|s| > 0 && Contains(s[1..], t)))
  }

  lemma {:induction false} ContainsAt(s: string, t: string, i: nat)
    requires i + |t| <= |s| && s[i..i + |t|] == t
    ensures Contains(s, t)
  {
    if i > 0 {
      assert s[1..][i - 1..i - 1 + |t|] == s[i..i + |t|];
      ContainsAt(s[1..], t, i - 1);
    }
  }

  /** Searching for a one-character text is searching for the character. */
  lemma {:induction false} ContainsChar(s: string, q: char)
    ensures Contains(s, [q]) <==> q in s
  {
    if s != [] {
      ContainsChar(s[1..], q);
      assert s == [s[0]] + s[1..];
    }
  }

  /**
   * `s.split(t)`: the pieces between the leftmost non-overlapping occurrences
   * of `t`. An empty separator splits into single characters, and then the empty
   * string splits into no pieces at all.
   */
  function Split(s: string, t: string): (r: seq<string>)
    ensures |t| > 0 ==> |r| >= 1
    decreases |s|
  {
    if |t| == 0 then
      if s == [] then [] else [[s[0]]] + Split(s[1..], t)
    else if |s| < |t| then [s]
    else if s[..|t|] == t then [""] + Split(s[|t|..], t)
    else
      var rest := Split(s[1..], t);
      [[s[0]] + rest[0]] + rest[1..]
  }

  /** `replaceAll(s, t, n)`, as `s.split(t).join(n)`. */
  function ReplaceAll(s: string, t: string, n: string): string {
    Join(Split(s, t), n)
  }

  /** Joining the pieces back with the separator restores the string. */
  lemma {:induction false} SplitJoin(s: string, t: string)
    ensures Join(Split(s, t), t) == s
    decreases |s|
  {
    if |t| == 0 {
      if s != [] {
        SplitJoin(s[1..], t);
        var rest := Split(s[1..], t);
        if rest == [] {
          assert s == [s[0]];
        }
      }
    } else if |s| < |t| {
    } else if s[..|t|] == t {
      SplitJoin(s[|t|..], t);
      assert s == s[..|t|] + s[|t|..];
    } else {
      SplitJoin(s[1..], t);
      var rest := Split(s[1..], t);
      if |rest| > 1 {
        assert ([[s[0]] + rest[0]] + rest[1..])[1..] == rest[1..];
      }
      assert s == [s[0]] + s[1..];
    }
  }

  /** `split` cuts exactly when the separator occurs; otherwise it returns the whole string. */
  lemma {:induction false} SplitCuts(s: string, t: string)
    requires |t| > 0
    ensures Contains(s, t) <==> |Split(s, t)| > 1
    ensures !Contains(s, t) ==> Split(s, t) == [s]
    decreases |s|
  {
    if |s| < |t| {
    } else if s[..|t|] == t {
      SplitCuts(s[|t|..], t);
    } else {
      SplitCuts(s[1..], t);
      assert [s[0]] + s[1..] == s;
    }
  }

  /** The number of occurrences `split` cuts at. */
  function Matches(s: string, t: string): nat
    requires |t| > 0
  {
    |Split(s, t)| - 1
  }

  /** Each replaced occurrence changes the length by the difference of the two texts. */
  lemma {:induction false} SplitLength(s: string, t: string)
    requires |t| > 0
    ensures TotalLength(Split(s, t)) + Matches(s, t) * |t| == |s|
  {
    SplitJoin(s, t);
    JoinLength(Split(s, t), t);
  }

  lemma ReplaceAllLength(s: string, t: string, n: string)
    requires |t| > 0
    ensures |ReplaceAll(s, t, n)| + Matches(s, t) * |t| == |s| + Matches(s, t) * |n|
  {
    SplitLength(s, t);
    JoinLength(Split(s, t), n);
  }

  /** Where the search text does not occur, `replaceAll` changes nothing. */
  lemma ReplaceAllAbsent(s: string, t: string, n: string)
    requires |t| > 0 && !Contains(s, t)
    ensures ReplaceAll(s, t, n) == s
  {
    SplitCuts(s, t);
  }

  /** Replacing a text by itself changes nothing. */
  lemma ReplaceAllSelf(s: string, t: string)
    ensures ReplaceAll(s, t, t) == s
  {
    SplitJoin(s, t);
  }
}
