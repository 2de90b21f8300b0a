/**
 * The text every entry stands for: the template of the entry under the
 * blacklist with each part resolved. This is the value the memoized builders
 * of scripts/js-obfuscator.js:950-1006 compute and cache; here it is a pure
 * function of the blacklist and the key, defined by recursion on the rank.
 */
module Expressions {
  import opened Blacklist
  import opened Strings
  import opened Productions

  /** What `makeX(v, wrap)` returns: the text, parenthesised when asked to wrap a non-atomic entry. */
  function Term(bl: Blacklist, k: Key, wrap: bool): string
    decreases Rank(k), 3, 0
  {
    if wrap && !IsWrap(bl, k) then "(" + Text(bl, k) + ")" else Text(bl, k)
  }

  /** What `X[v].result()` returns and the cache keeps. */
  function Text(bl: Blacklist, k: Key): string
    decreases Rank(k), 2, 0
  {
    ProductionRanked(bl, k);
    Resolve(bl, Production(bl, k), Rank(k))
  }

  /** The concatenated texts of the parts of a template. */
  function Resolve(bl: Blacklist, parts: seq<Part>, bound: nat): string
    requires PartsBelow(parts, bound)
    decreases bound, 1, |parts|
  {
    if parts == [] then ""
    else Resolve(bl, parts[..|parts| - 1], bound) + PartText(bl, parts[|parts| - 1], bound)
  }

  function PartText(bl: Blacklist, p: Part, bound: nat): string
    requires PartBelow(p, bound)
    decreases bound, 1, 0
  {
    match p
    case Lit(s) => s
    case Ref(k, wrap) => Term(bl, k, wrap)
    case Str(s) => StrText(bl, s, bound)
    case EvalStr(s) => Eval(StrText(bl, "flat", bound), StrText(bl, "constructor", bound), StrText(bl, s, bound))
  }

  /** `makeCharacter(c, true)` for each character of `s`, in order. */
  function CharTerms(bl: Blacklist, s: string, bound: nat): (r: seq<string>)
    requires CharsBelow(s, bound)
    ensures |r| == |s|
    decreases bound, 0, |s|
  {
    if s == [] then []
    else CharTerms(bl, s[..|s| - 1], bound) + [Term(bl, Char(s[|s| - 1]), true)]
  }

  function StrText(bl: Blacklist, s: string, bound: nat): string
    requires CharsBelow(s, bound)
    decreases bound, 0, |s| + 1
  {
    Join(CharTerms(bl, s, bound), "+")
  }

  /** The `[][flat][constructor](v)()` shape of `makeEval`, from the texts of its two property names. */
  function Eval(flat: string, ctor: string, v: string): string {
    "[][" + flat + "][" + ctor + "](" + v + ")()"
  }

  /** Every character of `s` has an entry. */
  predicate CatalogString(s: string) {
    forall i :: 0 <= i < |s| ==> IsCatalogChar(s[i])
  }

  lemma CatalogBelowMax(s: string)
    requires CatalogString(s)
    ensures CharsBelow(s, MaxRank)
  {
  }

  /** The terms `makeString(s)` joins, one per character. */
  function StringTerms(bl: Blacklist, s: string): (r: seq<string>)
    requires CatalogString(s)
    ensures |r| == |s|
  {
    CharTerms(bl, s, MaxRank)
  }

  /** `makeString(s)`: the `+`-join of the wrapped character terms. */
  function StringText(bl: Blacklist, s: string): string
    requires CatalogString(s)
  {
    Join(StringTerms(bl, s), "+")
  }

  /** `makeEval(v)`. */
  function EvalText(bl: Blacklist, v: string): string {
    Eval(StringText(bl, "flat"), StringText(bl, "constructor"), v)
  }

  /** The rank bound used to justify termination does not change the text. */
  lemma {:induction false} CharTermsBound(bl: Blacklist, s: string, b1: nat, b2: nat)
    requires CharsBelow(s, b1) && CharsBelow(s, b2)
    ensures CharTerms(bl, s, b1) == CharTerms(bl, s, b2)
  {
    if s != [] {
      CharTermsBound(bl, s[..|s| - 1], b1, b2);
    }
  }

  lemma StrTextIsStringText(bl: Blacklist, s: string, bound: nat)
    requires CharsBelow(s, bound)
    ensures CatalogString(s) && StrText(bl, s, bound) == StringText(bl, s)
  {
    CharTermsBound(bl, s, bound, MaxRank);
  }

  /** The `i`-th term of `makeString(s)` is the wrapped term of the `i`-th character. */
  lemma {:induction false} StringTermsAt(bl: Blacklist, s: string, i: nat)
    requires CatalogString(s) && i < |s|
    ensures StringTerms(bl, s)[i] == Term(bl, Char(s[i]), true)
  {
    CatalogBelowMax(s);
    CharTermsAt(bl, s, MaxRank, i);
  }

  lemma {:induction false} CharTermsAt(bl: Blacklist, s: string, bound: nat, i: nat)
    requires CharsBelow(s, bound) && i < |s|
    ensures CharTerms(bl, s, bound)[i] == Term(bl, Char(s[i]), true)
  {
    if i < |s| - 1 {
      CharTermsAt(bl, s[..|s| - 1], bound, i);
    }
  }

  /** `makeString` of a longer string adds one more `+`-joined term. */
  lemma StringTermsSnoc(bl: Blacklist, s: string, c: CatalogChar)
    requires CatalogString(s)
    ensures CatalogString(s + [c])
    ensures StringTerms(bl, s + [c]) == StringTerms(bl, s) + [Term(bl, Char(c), true)]
  {
    assert (s + [c])[..|s|] == s;
  }
}
