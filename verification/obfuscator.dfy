/**
 * `obfuscate` (scripts/js-obfuscator.js:1038-1131): the encoder loop that turns
 * every input character into an expression, the `makeEval` around their
 * `+`-join, and, when aliases are enabled, the compaction of the result.
 */
module Obfuscator {
  import opened Wrappers
  import opened Blacklist
  import opened Strings
  import opened Escape
  import opened Productions
  import opened Expressions
  import opened Builder
  import opened Names
  import opened Compaction

  /** The `unescape` program around an escape: every character of it has an entry. */
  lemma UnescapeSourceCatalog(e: string)
    requires EscapeAlphabet(e)
    ensures CatalogString(UnescapeSource(e))
  {
    var pre := "return unescape(\"";
    var post := "\")";
    assert CatalogString(pre) && CatalogString(post);
    EscapeCatalog(e);
    CatalogConcat(pre, e);
    CatalogConcat(pre + e, post);
    assert UnescapeSource(e) == pre + e + post;
  }

  /** Every character an escape is made of has an entry. */
  lemma EscapeCatalog(e: string)
    requires EscapeAlphabet(e)
    ensures CatalogString(e)
  {
  }

  lemma CatalogConcat(a: string, b: string)
    requires CatalogString(a) && CatalogString(b)
    ensures CatalogString(a + b)
  {
  }

  /** The property names the engine spells out have entries for all their characters. */
  lemma PropertyNamesBelow()
    ensures CharsBelow("toString", MaxRank) && CharsBelow("constructor", MaxRank) && CharsBelow("flat", MaxRank)
    ensures CatalogString("toString") && CatalogString("constructor") && CatalogString("flat")
  {
  }

  /** Whether a character is written through `unescape` rather than quoted. */
  predicate NeedsUnescape(bl: Blacklist, c: char) {
    (bl.upperCase && 'A' <= c <= 'Z') || IsNoWrapString(bl)
  }

  /** The expression the encoder emits for one input character. */
  function EncodeChar(bl: Blacklist, c: char): string {
    if IsCatalogChar(c) then Term(bl, Char(c), true)
    else if NeedsUnescape(bl, c) then
      UnescapeSourceCatalog(EscapeFixed(CharCode(c)));
      EvalText(bl, StringText(bl, UnescapeSource(EscapeFixed(CharCode(c)))))
    else Quote(bl, [c])
  }

  /**
   * The expression the encoder emits for one input character, with the escape
   * exactly as the source writes it (no zero padding).
   */
  function EncodeCharAsWritten(bl: Blacklist, c: char): string {
    if IsCatalogChar(c) then Term(bl, Char(c), true)
    else if NeedsUnescape(bl, c) then
      UnescapeSourceCatalog(EscapeAsWritten(CharCode(c)));
      EvalText(bl, StringText(bl, UnescapeSource(EscapeAsWritten(CharCode(c)))))
    else Quote(bl, [c])
  }

  /**
   * The corrected encoding differs from the one as written only in the `unescape`
   * programs of codes below 16 and from 256 to 4095.
   */
  lemma EncodeCharAsWrittenAgrees(bl: Blacklist, c: char)
    requires 16 <= CharCode(c) < 256 || 0x1000 <= CharCode(c) || IsCatalogChar(c) || !NeedsUnescape(bl, c)
    ensures EncodeCharAsWritten(bl, c) == EncodeChar(bl, c)
  {
    if !IsCatalogChar(c) && NeedsUnescape(bl, c) {
      EscapeAsWrittenAgrees(CharCode(c));
    }
  }

  /**
   * As written, a tab under a blacklist that forbids every quote mark is sent
   * through `unescape("%9")`, which does not decode to a tab.
   */
  lemma EncodeTabAsWritten(bl: Blacklist)
    requires IsNoWrapString(bl)
    ensures EncodeCharAsWritten(bl, '\t') == EvalText(bl, StringText(bl, UnescapeSource("%9")))
    ensures ParseEscape("%9") == None
  {
    assert !IsCatalogChar('\t') && NeedsUnescape(bl, '\t') && CharCode('\t') == 9;
    EscapeAsWrittenUnpadded();
  }

  function EncodeChars(bl: Blacklist, s: string): (r: seq<string>)
    ensures |r| == |s|
  {
    if s == [] then [] else EncodeChars(bl, s[..|s| - 1]) + [EncodeChar(bl, s[|s| - 1])]
  }

  /** `resultCode` before compaction: `makeEval` of the `+`-join of the encoded characters. */
  function Encoded(bl: Blacklist, s: string): string {
    EvalText(bl, Join(EncodeChars(bl, s), "+"))
  }

  /**
   * The three ways a character is encoded: a character with an entry becomes its
   * wrapped term; a character under the upper-case blacklist, or any character
   * when no quote mark is permitted, becomes an evaluated `unescape` of an escape
   * that decodes to its code; anything else becomes the character between a
   * permitted quote mark.
   */
  lemma EncodeCharCases(bl: Blacklist, c: char)
    ensures IsCatalogChar(c) ==> EncodeChar(bl, c) == Term(bl, Char(c), true)
    ensures !IsCatalogChar(c) && NeedsUnescape(bl, c) ==>
      ParseEscape(EscapeFixed(CharCode(c))) == Some(CharCode(c)) &&
      EncodeChar(bl, c) == EvalText(bl, StringText(bl, UnescapeSource(EscapeFixed(CharCode(c)))))
    ensures !IsCatalogChar(c) && !NeedsUnescape(bl, c) ==>
      |EncodeChar(bl, c)| == 3 && EncodeChar(bl, c)[1] == c && QuotePermitted(bl, EncodeChar(bl, c)[0]) &&
      EncodeChar(bl, c)[2] == EncodeChar(bl, c)[0]
  {
    if !IsCatalogChar(c) && NeedsUnescape(bl, c) {
      EscapeFixedRoundTrip(CharCode(c));
    }
  }

  /** The `i`-th encoded piece is the encoding of the `i`-th character. */
  lemma {:induction false} EncodeCharsAt(bl: Blacklist, s: string, i: nat)
    requires i < |s|
    ensures EncodeChars(bl, s)[i] == EncodeChar(bl, s[i])
  {
    if i < |s| - 1 {
      EncodeCharsAt(bl, s[..|s| - 1], i);
    }
  }

  /** The body of the encoder loop for one character. */
  method EncodeCharacter(engine: Engine, c: char) returns (makedCode: string)
    requires engine.Valid()
    modifies engine
    ensures engine.Valid() && engine.Grew()
    ensures makedCode == EncodeChar(engine.bl, c)
    ensures IsCatalogChar(c) ==> c in engine.characterResults
  {
    var bl := engine.bl;
    if IsCatalogChar(c) {
      makedCode := engine.MakeCharacter(c, true);
    } else if NeedsUnescape(bl, c) {
      var source := UnescapeSource(EscapeFixed(CharCode(c)));
      UnescapeSourceCatalog(EscapeFixed(CharCode(c)));
      CatalogBelowMax(source);
      var program := engine.MakeString(source, false, MaxRank);
      PropertyNamesBelow();
      makedCode := engine.MakeEval(program, MaxRank);
    } else {
      makedCode := Quote(bl, [c]);
    }
  }

  /** The characters of `s` that have an entry. */
  function CatalogChars(s: string): (r: set<CatalogChar>)
    ensures forall c: CatalogChar :: c in r <==> c in s
  {
    if s == [] then {}
    else
      var c := s[|s| - 1];
      CatalogChars(s[..|s| - 1]) + (if IsCatalogChar(c) then {c as CatalogChar} else {})
  }

  /** The encoder loop: every character encoded, and every character with an entry cached. */
  method EncodeCharacters(engine: Engine, jsCode: string) returns (results: seq<string>)
    requires engine.Valid()
    modifies engine
    ensures engine.Valid() && engine.Grew()
    ensures results == EncodeChars(engine.bl, jsCode)
    ensures CatalogChars(jsCode) <= engine.characterResults.Keys
  {
    results := [];
    var i := 0;
    while i < |jsCode|
      invariant 0 <= i <= |jsCode|
      invariant engine.Valid() && engine.Grew()
      invariant results == EncodeChars(engine.bl, jsCode[..i])
      invariant CatalogChars(jsCode[..i]) <= engine.characterResults.Keys
    {
      ghost var cached := engine.characterResults.Keys;
      var makedCode := EncodeCharacter(engine, jsCode[i]);
      assert cached <= engine.characterResults.Keys;
      assert jsCode[..i + 1][..i] == jsCode[..i];
      results := results + [makedCode];
      i := i + 1;
    }
    assert jsCode[..i] == jsCode;
  }

  /** The encoder loop and the `makeEval` around it. */
  method Encode(engine: Engine, jsCode: string) returns (resultCode: string)
    requires engine.Valid()
    modifies engine
    ensures engine.Valid() && engine.Grew()
    ensures resultCode == Encoded(engine.bl, jsCode)
    ensures CatalogChars(jsCode) <= engine.characterResults.Keys
  {
    var results := EncodeCharacters(engine, jsCode);
    ghost var cached := engine.characterResults.Keys;
    PropertyNamesBelow();
    resultCode := engine.MakeEval(Join(results, "+"), MaxRank);
    assert cached <= engine.characterResults.Keys;
  }

  // ---------------------------------------------------------------------------
  // The candidates of the compaction search.

  const DecimalKeys: seq<CatalogChar> := ['0', '1', '2', '3', '4', '5', '6', '7', '8', '9']

  /** The cached decimal-digit keys among the first `n` digits, ascending. */
  function DigitKeys(order: seq<CatalogChar>, n: nat): seq<CatalogChar>
    requires n <= 10
  {
    if n == 0 then []
    else DigitKeys(order, n - 1) + (if DecimalKeys[n - 1] in order then [DecimalKeys[n - 1]] else [])
  }

  /** The other keys, in insertion order. */
  function OtherKeys(order: seq<CatalogChar>): seq<CatalogChar> {
    if order == [] then []
    else
      var c := order[|order| - 1];
      OtherKeys(order[..|order| - 1]) + (if '0' <= c <= '9' then [] else [c])
  }

  /**
   * The order `for (key in characterResults)` visits the keys in: the integer-like
   * keys "0" to "9" ascending, then the other keys in insertion order.
   */
  function ForInOrder(order: seq<CatalogChar>): seq<CatalogChar> {
    DigitKeys(order, 10) + OtherKeys(order)
  }

  lemma {:induction false} DigitKeysMembers(order: seq<CatalogChar>, n: nat)
    requires n <= 10
    ensures forall c :: c in DigitKeys(order, n) <==> c in order && c in DecimalKeys[..n]
  {
    if n > 0 {
      DigitKeysMembers(order, n - 1);
      assert DecimalKeys[..n] == DecimalKeys[..n - 1] + [DecimalKeys[n - 1]];
    }
  }

  lemma {:induction false} OtherKeysMembers(order: seq<CatalogChar>)
    ensures forall c :: c in OtherKeys(order) <==> c in order && !('0' <= c <= '9')
  {
    if order != [] {
      OtherKeysMembers(order[..|order| - 1]);
      assert order == order[..|order| - 1] + [order[|order| - 1]];
    }
  }

  /** The enumeration visits exactly the cached keys. */
  lemma ForInOrderMembers(order: seq<CatalogChar>)
    ensures forall c :: c in ForInOrder(order) <==> c in order
  {
    DigitKeysMembers(order, 10);
    OtherKeysMembers(order);
    forall c | c in order && '0' <= c <= '9'
      ensures c in DecimalKeys
    {
      var k := c as int - '0' as int;
      assert DecimalKeys[k] == c;
    }
  }

  /** A text without any of the three quote marks (`indexOf` of each is -1). */
  predicate QuoteFree(t: string) {
    !Contains(t, "'") && !Contains(t, "\"") && !Contains(t, "`")
  }

  lemma QuoteFreeChars(t: string)
    ensures QuoteFree(t) <==> forall i :: 0 <= i < |t| ==> t[i] != '\'' && t[i] != '"' && t[i] != '`'
  {
    ContainsChar(t, '\'');
    ContainsChar(t, '"');
    ContainsChar(t, '`');
  }

  /** The cached texts of `keys`, in order, leaving out those with a quote mark. */
  function CandidateTexts(results: map<CatalogChar, string>, keys: seq<CatalogChar>): (r: seq<string>)
    requires forall c :: c in keys ==> c in results
    ensures forall t :: t in r ==> QuoteFree(t) && exists c :: c in keys && results[c] == t
  {
    if keys == [] then []
    else
      var c := keys[|keys| - 1];
      CandidateTexts(results, keys[..|keys| - 1]) + (if QuoteFree(results[c]) then [results[c]] else [])
  }

  /** The quote-free cached texts of `keys` are all candidates. */
  lemma {:induction false} CandidateTextsComplete(results: map<CatalogChar, string>, keys: seq<CatalogChar>)
    requires forall c :: c in keys ==> c in results
    ensures forall c :: c in keys && QuoteFree(results[c]) ==> results[c] in CandidateTexts(results, keys)
  {
    if keys != [] {
      CandidateTextsComplete(results, keys[..|keys| - 1]);
      assert keys == keys[..|keys| - 1] + [keys[|keys| - 1]];
    }
  }

  /** The candidate list the search builds from the character cache. */
  function Candidates(engine: Engine): seq<string>
    reads engine
    requires engine.Valid()
  {
    ForInOrderMembers(engine.characterOrder);
    CandidateTexts(engine.characterResults, ForInOrder(engine.characterOrder))
  }

  /** The candidates are exactly the cached character texts that hold no quote mark. */
  lemma CandidatesMembers(engine: Engine)
    requires engine.Valid()
    ensures forall c :: c in engine.characterResults && QuoteFree(engine.characterResults[c]) ==>
      engine.characterResults[c] in Candidates(engine)
    ensures forall t :: t in Candidates(engine) ==>
      QuoteFree(t) && exists c :: c in engine.characterResults && engine.characterResults[c] == t
  {
    ForInOrderMembers(engine.characterOrder);
    CandidateTextsComplete(engine.characterResults, ForInOrder(engine.characterOrder));
  }

  /** Every quote-free cached text of a character in `cs` is a candidate. */
  lemma CandidatesCover(engine: Engine, cs: set<CatalogChar>)
    requires engine.Valid() && cs <= engine.characterResults.Keys
    ensures forall c :: c in cs && QuoteFree(Text(engine.bl, Char(c))) ==> Text(engine.bl, Char(c)) in Candidates(engine)
  {
    CandidatesMembers(engine);
  }

  /** The loop that collects the candidates (lines 1100-1108). */
  method CollectCandidates(engine: Engine) returns (candidates: seq<string>)
    requires engine.Valid()
    ensures candidates == Candidates(engine)
  {
    var keys := ForInOrder(engine.characterOrder);
    ForInOrderMembers(engine.characterOrder);
    candidates := [];
    var j := 0;
    while j < |keys|
      invariant 0 <= j <= |keys|
      invariant candidates == CandidateTexts(engine.characterResults, keys[..j])
    {
      var text := engine.characterResults[keys[j]];
      assert keys[..j + 1][..j] == keys[..j];
      if !Contains(text, "'") && !Contains(text, "\"") && !Contains(text, "`") {
        candidates := candidates + [text];
      }
      j := j + 1;
    }
    assert keys[..j] == keys;
  }

  // ---------------------------------------------------------------------------
  // The whole pipeline.

  /** The alias alphabet: the caller's candidates, then `$` and `_` where permitted. */
  function AliasAlphabet(bl: Blacklist, variableCandidates: seq<char>): seq<char> {
    variableCandidates + (if !bl.dollar then ['$'] else []) + (if !bl.underscore then ['_'] else [])
  }

  /** How many alias names are generated. */
  const NameCount: nat := 50

  /** The optimizer state after the first phase. */
  function AfterPhase1(bl: Blacklist, jsCode: string, variableCandidates: seq<char>): State {
    PropertyNamesBelow();
    var names := VariableNames(Dedupe(AliasAlphabet(bl, variableCandidates)), NameCount);
    Phase1(State("", Encoded(bl, jsCode), names),
      StringText(bl, "toString"), StringText(bl, "constructor"), StringText(bl, "flat"))
  }

  /**
   * `obfuscate(jsCode, variableCandidates = [], iterationCount = 50)`, with the alias option
   * `useVariable` and the random draws `rand`. Without aliases the output is the
   * encoded program; with them it is the outcome of the search from the state
   * after the first phase, over the candidates of the final character cache.
   */
  method Obfuscate(engine: Engine, useVariable: bool, jsCode: string, rand: (nat, nat) -> nat,
                   variableCandidates: seq<char> := [], iterationCount: int := 50) returns (out: string)
    requires engine.Valid()
    modifies engine
    ensures engine.Valid() && engine.Grew()
    ensures !useVariable ==> out == Encoded(engine.bl, jsCode)
    ensures useVariable ==> out == SearchOutput(AfterPhase1(engine.bl, jsCode, variableCandidates),
      Candidates(engine), rand, if iterationCount < 0 then 0 else iterationCount)
    ensures forall c :: c in CatalogChars(jsCode) && QuoteFree(Text(engine.bl, Char(c))) ==>
      Text(engine.bl, Char(c)) in Candidates(engine)
  {
    var resultCode := Encode(engine, jsCode);
    ghost var cached := engine.characterResults.Keys;
    if useVariable {
      out := Compact(engine, jsCode, resultCode, variableCandidates, iterationCount, rand);
      assert cached <= engine.characterResults.Keys;
    } else {
      out := resultCode;
    }
    CandidatesCover(engine, CatalogChars(jsCode));
  }

  /** The alias branch of `obfuscate`: the names, the first phase, the candidates and the search. */
  method Compact(engine: Engine, jsCode: string, resultCode: string, variableCandidates: seq<char>,
                 iterationCount: int, rand: (nat, nat) -> nat) returns (out: string)
    requires engine.Valid() && resultCode == Encoded(engine.bl, jsCode)
    modifies engine
    ensures engine.Valid() && engine.Grew()
    ensures out == SearchOutput(AfterPhase1(engine.bl, jsCode, variableCandidates),
      Candidates(engine), rand, if iterationCount < 0 then 0 else iterationCount)
  {
    var bl := engine.bl;
    var variableNames := AliasNames(bl, variableCandidates);
    var compactor := new Compactor(resultCode, variableNames);
    assert compactor.Current() == State("", Encoded(bl, jsCode), VariableNames(Dedupe(AliasAlphabet(bl, variableCandidates)), NameCount));
    RunPhase1(engine, compactor);
    var searchCandidates := CollectCandidates(engine);
    out := Search(compactor, searchCandidates, rand, iterationCount);
  }

  /** The alias names: the user's candidates with `$` and `_` where permitted, deduplicated, enumerated. */
  method AliasNames(bl: Blacklist, variableCandidates: seq<char>) returns (names: seq<string>)
    ensures names == VariableNames(Dedupe(AliasAlphabet(bl, variableCandidates)), NameCount)
  {
    var candidates := variableCandidates;
    if !bl.dollar {
      candidates := candidates + ['$'];
    }
    if !bl.underscore {
      candidates := candidates + ['_'];
    }
    assert candidates == AliasAlphabet(bl, variableCandidates);
    candidates := Dedupe(candidates);
    names := CreateVariableNames(candidates, NameCount);
  }

  /** The first phase: hoist the texts of "toString", "constructor" and "flat" where that pays. */
  method RunPhase1(engine: Engine, compactor: Compactor)
    requires engine.Valid()
    modifies engine, compactor
    ensures engine.Valid() && engine.Grew()
    ensures compactor.Current() == Phase1(old(compactor.Current()),
      StringText(engine.bl, "toString"), StringText(engine.bl, "constructor"), StringText(engine.bl, "flat"))
  {
    PropertyNamesBelow();
    var toStringText := engine.MakeString("toString", false, MaxRank);
    compactor.MakeShorter(toStringText);
    var constructorText := engine.MakeString("constructor", false, MaxRank);
    compactor.MakeShorter(constructorText);
    var flatText := engine.MakeString("flat", false, MaxRank);
    compactor.MakeShorter(flatText);
  }
}
