/**
 * The memoized builders (scripts/js-obfuscator.js:37-45, 950-1006). An `Engine`
 * holds the blacklist it was built for and the three result caches; every
 * cached text is the text of its entry, so a second request for the same key
 * returns the same text without recomputing it. The character cache also keeps
 * the order in which its keys were first inserted, because the compaction
 * search enumerates it in that order.
 */
module Builder {
  import opened Blacklist
  import opened Strings
  import opened Productions
  import opened Expressions

  class Engine {
    const bl: Blacklist
    var internalResults: map<InternalName, string>
    var digitResults: map<DigitValue, string>
    var characterResults: map<CatalogChar, string>
    /** The keys of `characterResults`, oldest first. */
    var characterOrder: seq<CatalogChar>

    /** Every cached text is the text of its entry under this engine's blacklist. */
    ghost predicate Valid()
      reads this
    {
      (forall n :: n in internalResults ==> internalResults[n] == Text(bl, Internal(n))) &&
      (forall d :: d in digitResults ==> digitResults[d] == Text(bl, Digit(d))) &&
      (forall c :: c in characterResults ==> characterResults[c] == Text(bl, Char(c))) &&
      (forall c :: c in characterResults <==> c in characterOrder) &&
      (forall i, j :: 0 <= i < j < |characterOrder| ==> characterOrder[i] != characterOrder[j])
    }

    /** The caches only ever gain entries, and new characters go after the old ones. */
    twostate predicate Grew()
      reads this
    {
      old(internalResults).Keys <= internalResults.Keys &&
      old(digitResults).Keys <= digitResults.Keys &&
      old(characterResults).Keys <= characterResults.Keys &&
      old(characterOrder) <= characterOrder
    }

    constructor (bl: Blacklist)
      ensures Valid() && this.bl == bl
      ensures internalResults == map[] && digitResults == map[] && characterResults == map[]
      ensures characterOrder == []
    {
      this.bl := bl;
      internalResults := map[];
      digitResults := map[];
      characterResults := map[];
      characterOrder := [];
    }

    /** `resetResults`: empties the three caches. */
    method ResetResults()
      modifies this
      ensures Valid()
      ensures internalResults == map[] && digitResults == map[] && characterResults == map[]
      ensures characterOrder == []
    {
      internalResults := map[];
      digitResults := map[];
      characterResults := map[];
      characterOrder := [];
    }

    /** `makeInternal(n, wrap)`. */
    method MakeInternal(n: InternalName, wrap: bool := false) returns (r: string)
      requires Valid()
      modifies this
      ensures Valid() && Grew()
      ensures r == Term(bl, Internal(n), wrap)
      ensures n in internalResults
      ensures old(n in internalResults) ==> unchanged(this)
      decreases Rank(Internal(n)), 4
    {
      if n !in internalResults {
        var t := Produce(Internal(n));
        internalResults := internalResults[n := t];
      }
      r := internalResults[n];
      if wrap && !IsWrap(bl, Internal(n)) {
        r := "(" + r + ")";
      }
    }

    /** `makeDigit(d, wrap)`. */
    method MakeDigit(d: DigitValue, wrap: bool := false) returns (r: string)
      requires Valid()
      modifies this
      ensures Valid() && Grew()
      ensures r == Term(bl, Digit(d), wrap)
      ensures d in digitResults
      ensures old(d in digitResults) ==> unchanged(this)
      decreases Rank(Digit(d)), 4
    {
      if d !in digitResults {
        var t := Produce(Digit(d));
        digitResults := digitResults[d := t];
      }
      r := digitResults[d];
      if wrap && !IsWrap(bl, Digit(d)) {
        r := "(" + r + ")";
      }
    }

    /** `makeCharacter(c, wrap)`. */
    method MakeCharacter(c: CatalogChar, wrap: bool := false) returns (r: string)
      requires Valid()
      modifies this
      ensures Valid() && Grew()
      ensures r == Term(bl, Char(c), wrap)
      ensures c in characterResults
      ensures old(c in characterResults) ==> unchanged(this)
      decreases Rank(Char(c)), 4
    {
      if c !in characterResults {
        var t := Produce(Char(c));
        if c !in characterResults {
          characterOrder := characterOrder + [c];
        }
        characterResults := characterResults[c := t];
      }
      r := characterResults[c];
      if wrap && !IsWrap(bl, Char(c)) {
        r := "(" + r + ")";
      }
    }

    /** `X[k].result()`: resolves the entry's template part by part through the builders. */
    method Produce(k: Key) returns (t: string)
      requires Valid()
      modifies this
      ensures Valid() && Grew()
      ensures t == Text(bl, k)
      decreases Rank(k), 3
    {
      var parts := Production(bl, k);
      var b := Rank(k);
      ProductionRanked(bl, k);
      t := "";
      var i := 0;
      while i < |parts|
        invariant 0 <= i <= |parts|
        invariant Valid() && Grew()
        invariant t == Resolve(bl, parts[..i], b)
      {
        var piece := ProducePart(parts[i], b);
        assert parts[..i + 1][..i] == parts[..i];
        t := t + piece;
        i := i + 1;
      }
      assert parts[..i] == parts;
    }

    /** The text of one part of a template, built through the builders. */
    method ProducePart(p: Part, ghost b: nat) returns (piece: string)
      requires Valid() && PartBelow(p, b)
      modifies this
      ensures Valid() && Grew()
      ensures piece == PartText(bl, p, b)
      decreases b, 2
    {
      match p {
        case Lit(x) =>
          piece := x;
        case Ref(key, w) =>
          match key {
            case Internal(n) => piece := MakeInternal(n, w);
            case Digit(d) => piece := MakeDigit(d, w);
            case Char(c) => piece := MakeCharacter(c, w);
          }
        case Str(x) =>
          piece := MakeString(x, false, b);
          StrTextIsStringText(bl, x, b);
        case EvalStr(x) =>
          var v := MakeString(x, false, b);
          piece := MakeEval(v, b);
          StrTextIsStringText(bl, x, b);
          StrTextIsStringText(bl, "flat", b);
          StrTextIsStringText(bl, "constructor", b);
      }
    }

    /**
     * `makeString(s, wrap)`: the `+`-join of `makeCharacter(c, true)` over the
     * characters of `s`, parenthesised when asked. `bound` is a rank above every
     * character of `s`; it only serves the termination argument.
     */
    method MakeString(s: string, wrap: bool, ghost bound: nat) returns (r: string)
      requires Valid() && CharsBelow(s, bound)
      modifies this
      ensures Valid() && Grew()
      ensures CatalogString(s)
      ensures r == if wrap then "(" + StringText(bl, s) + ")" else StringText(bl, s)
      decreases bound, 0
    {
      var results: seq<string> := [];
      var i := 0;
      while i < |s|
        invariant 0 <= i <= |s|
        invariant Valid() && Grew()
        invariant CatalogString(s[..i]) && results == StringTerms(bl, s[..i])
      {
        var c: CatalogChar := s[i];
        var term := MakeCharacter(c, true);
        StringTermsSnoc(bl, s[..i], c);
        assert s[..i + 1] == s[..i] + [c];
        results := results + [term];
        i := i + 1;
      }
      assert s[..i] == s;
      r := Join(results, "+");
      if wrap {
        r := "(" + r + ")";
      }
    }

    /** `makeEval(v)`: `v` passed to the Function constructor reached through `[]["flat"]["constructor"]`, then called. */
    method MakeEval(v: string, ghost bound: nat) returns (r: string)
      requires Valid() && CharsBelow("flat", bound) && CharsBelow("constructor", bound)
      modifies this
      ensures Valid() && Grew()
      ensures r == EvalText(bl, v)
      decreases bound, 1
    {
      var flat := MakeString("flat", false, bound);
      var ctor := MakeString("constructor", false, bound);
      r := "[][" + flat + "][" + ctor + "](" + v + ")()";
    }
  }
}
