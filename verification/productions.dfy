/**
 * The guarded production tables INTERNAL, DIGIT and CHARACTER
 * (scripts/js-obfuscator.js:47-936). Every entry is a function of the blacklist
 * that picks the first fallback whose guard passes and yields a template: the
 * text of the entry is the concatenation of its parts, where a `Ref` part is the
 * (possibly parenthesised) text of another entry, `Str(s)` is `makeString(s)` and
 * `EvalStr(s)` is `makeEval(makeString(s))`.
 */
module Productions {
  import opened Blacklist
  import opened Escape
  import opened Wrappers

  /** The keys of INTERNAL (the JavaScript values whose text forms are indexed). */
  datatype InternalName =
    | False | True | Undefined | NaN | Infinity
    | BigNumber          // 1.1e+101
    | FlatText           // 'function flat() { [native code] }'
    | StringCtorText     // 'function String() { [native code] }'
    | ObjectText         // '[object Object]'
    | ArrayIteratorText  // '[object Array Iterator]'
    | SubText            // '<sub></sub>'
    | FontColorText      // '<font color="undefined"></font>'
    | EscapedFlat        // escape of the flat function's text
    | EscapedSub         // '%3Csub%3E%3C/sub%3E'

  /** The upper-case letters that have an entry of their own. */
  const UpperKeys: set<char> := {'A', 'B', 'C', 'D', 'E', 'I', 'N', 'O', 'S'}

  /** The symbols that have an entry of their own. */
  const SymbolKeys: set<char> :=
    {' ', '$', '\n', '%', '*', '_', '=', '+', '\'', '"', '.', '/', '\\', '(', ')', '{', '}', '[', ']', '<', '>'}

  /** The keys of CHARACTER. */
  predicate IsCatalogChar(c: char) {
    'a' <= c <= 'z' || c in UpperKeys || '0' <= c <= '9' || c in SymbolKeys
  }

  type CatalogChar = c: char | IsCatalogChar(c) witness 'a'

  type DigitValue = d: nat | d < 10

  datatype Key = Internal(name: InternalName) | Digit(d: DigitValue) | Char(c: CatalogChar)

  datatype Part =
    | Lit(text: string)
    | Ref(key: Key, wrap: bool)
    | Str(s: string)       // makeString(s)
    | EvalStr(s: string)   // makeEval(makeString(s))

  function I(n: InternalName, wrap: bool := false): Part { Ref(Internal(n), wrap) }
  function D(d: DigitValue, wrap: bool := false): Part { Ref(Digit(d), wrap) }

  /** The `isWrap` flag: true when the entry's text may be composed without parentheses. */
  function IsWrap(bl: Blacklist, k: Key): bool {
    match k
    case Internal(n) => n in {Undefined, SubText, FontColorText, EscapedFlat, EscapedSub}
    case Digit(_) => !bl.number
    case Char(c) => if '0' <= c <= '9' then !bl.number else true
  }

  /** The argument of the `unescape` fallback of a character entry, as written in the source. */
  function FallbackEscapeAsWritten(c: char): string {
    match c
    case '$' => "%24"
    case '\n' => "%0a"
    case '*' => "%38"
    case '_' => "%5f"
    case '\'' => "%27"
    case '\\' => "%5c"
    case 'O' => "%4f"
    case _ => ""
  }

  /** The same with the asterisk's code corrected to %2a. */
  function FallbackEscape(c: char): string {
    if c == '*' then "%2a" else FallbackEscapeAsWritten(c)
  }

  /** As written, the asterisk's fallback unescapes "%38", the code of '8' rather than of '*'. */
  lemma FallbackAsteriskAsWritten()
    ensures FallbackEscapeAsWritten('*') == "%38"
    ensures ParseEscape(FallbackEscapeAsWritten('*')) == Some('8' as nat)
    ensures ParseEscape(FallbackEscapeAsWritten('*')) != Some(CharCode('*'))
  {
    var h := "%38"[1..];
    assert h == "38" && h[..1] == "3" && "3"[..0] == [];
    assert HexValue(h) == 0x38;
  }

  /** A code of two hex digits is escaped as `%` before those digits. */
  lemma TwoDigitEscape(code: nat, h: string)
    requires 16 <= code < 256 && Hex(code) == h
    ensures EscapeFixed(code) == "%" + h
  {
    assert Pow16(1) == 16 && Pow16(2) == 256;
    HexLength(code, 1);
    HexLength(code, 2);
  }

  /** Each corrected fallback unescapes to its own character. */
  lemma FallbackEscapeDecodes(c: char)
    requires c in {'$', '\n', '*', '_', '\'', '\\', 'O'}
    ensures ParseEscape(FallbackEscape(c)) == Some(CharCode(c))
  {
    FallbackEscapeFixed(c);
    EscapeFixedRoundTrip(CharCode(c));
  }

  /** Each corrected fallback is the escape of its own character's code. */
  lemma FallbackEscapeFixed(c: char)
    requires c in {'$', '\n', '*', '_', '\'', '\\', 'O'}
    ensures FallbackEscape(c) == EscapeFixed(CharCode(c))
  {
    match c
    case '$' => TwoDigitEscape(0x24, "24");
    case '\n' => assert Hex(0x0a) == "a" && Zeros(1) == "0";
    case '*' => TwoDigitEscape(0x2a, "2a");
    case '_' => TwoDigitEscape(0x5f, "5f");
    case '\'' => TwoDigitEscape(0x27, "27");
    case '\\' => TwoDigitEscape(0x5c, "5c");
    case 'O' => TwoDigitEscape(0x4f, "4f");
  }

  /** The source text run through `makeEval` by a fallback: `return unescape("<escape>")`. */
  function UnescapeSource(escape: string): string {
    "return unescape(\"" + escape + "\")"
  }

  /** A character entry whose first rung is the quoted literal. */
  function Quoted(bl: Blacklist, permitted: bool, v: string, otherwise: seq<Part>): seq<Part> {
    if permitted && !IsNoWrapString(bl) then [Lit(Quote(bl, v))] else otherwise
  }

  function InternalProduction(bl: Blacklist, n: InternalName): seq<Part> {
    match n
    case False => [Lit("![]")]
    case True => [Lit("!![]")]
    case Undefined => [Lit("[][[]]")]
    case NaN => [Lit("+[![]]")]
    case Infinity =>
      if !bl.slash then [D(1), Lit("/"), D(0)]
      else if !bl.number then [Lit("+(1+"), Ref(Char('e'), false), Lit("+1000)")]
      else [Lit("+("), D(1), Lit("+"), Ref(Char('e'), false), Lit("+["), D(1), Lit("]+["), D(0),
            Lit("]+["), D(0), Lit("]+["), D(0), Lit("])")]
    case BigNumber =>
      if !bl.number then [Lit("+(11+"), Ref(Char('e'), false), Lit("+100)")]
      else [Lit("+("), D(1), Lit("+["), D(1), Lit("]+"), Ref(Char('e'), false), Lit("+["), D(1),
            Lit("]+["), D(0), Lit("]+["), D(0), Lit("])")]
    case FlatText => [Lit("[]["), Str("flat"), Lit("]+[]")]
    case StringCtorText => [Lit("([]+[])["), Str("constructor"), Lit("]+[]")]
    case ObjectText => [Lit("[]+{}")]
    case ArrayIteratorText => [Lit("[]["), Str("entries"), Lit("]()+[]")]
    case SubText => [Lit("([]+[])["), Str("sub"), Lit("]()")]
    case FontColorText => [Lit("([]+[])["), Str("fontcolor"), Lit("]()")]
    case EscapedFlat => [EvalStr("return escape([][\"flat\"])")]
    case EscapedSub => [EvalStr("return escape(([]+[])[\"sub\"]())")]
  }

  /** The decimal literal of a digit. */
  function DigitLiteral(d: DigitValue): string {
    ["0123456789"[d]]
  }

  function DigitProduction(bl: Blacklist, d: DigitValue): seq<Part> {
    if !bl.number then [Lit(DigitLiteral(d))]
    else match d
    case 0 => [Lit("+[]")]
    case 1 => [Lit("+"), I(True)]
    case 2 => [I(True), Lit("+"), I(True)]
    case 3 => [D(2), Lit("+"), I(True)]
    case 4 =>
      if !bl.angleBrackets then [D(2), Lit("<<"), I(True)]
      else [D(3), Lit("+"), I(True)]
    case 5 =>
      if !bl.angleBrackets then [D(4, true), Lit("+"), I(True)]
      else [D(4), Lit("+"), I(True)]
    case 6 =>
      if !bl.angleBrackets then [D(3), Lit("<<"), I(True)]
      else if !bl.asterisk then [D(3, true), Lit("*"), D(2, true)]
      else [D(5), Lit("+"), I(True)]
    case 7 =>
      if !bl.angleBrackets then [D(6, true), Lit("+"), I(True)]
      else [D(6), Lit("+"), I(True)]
    case 8 =>
      if !bl.angleBrackets then [D(2), Lit("<<"), D(2)]
      else if !bl.asterisk then [D(2, true), Lit("**"), D(3, true)]
      else [D(7), Lit("+"), I(True)]
    case 9 =>
      if !bl.angleBrackets then [D(8, true), Lit("+"), I(True)]
      else if !bl.asterisk then [D(3, true), Lit("**"), D(2, true)]
      else [D(8), Lit("+"), I(True)]
  }

  /** `(<internal>+[])[<digit>]`: a character of a value's text form. */
  function IndexText(n: InternalName, d: DigitValue): seq<Part> {
    [Lit("("), I(n), Lit("+[])["), D(d), Lit("]")]
  }

  /** `<internal>[<digit>]` for an entry whose text is already a string. */
  function IndexWrapped(n: InternalName, d: DigitValue): seq<Part> {
    [I(n, true), Lit("["), D(d), Lit("]")]
  }

  /** `<internal>[<d1>+[<d2>]]`: a two-digit index built from digits. */
  function IndexTwoDigits(n: InternalName, d1: DigitValue, d2: DigitValue): seq<Part> {
    [I(n, true), Lit("["), D(d1), Lit("+["), D(d2), Lit("]]")]
  }

  /** `(<a>+<b>)[<d1>+[<d2>]]`: index into the concatenation of two values' texts. */
  function IndexPair(a: Part, b: Part, d1: DigitValue, d2: DigitValue): seq<Part> {
    [Lit("("), a, Lit("+"), b, Lit(")["), D(d1), Lit("+["), D(d2), Lit("]]")]
  }

  /** `(n)[toString](radix)` with number literals. */
  function RadixLiteral(n: string, radix: string): seq<Part> {
    [Lit("(" + n + ")["), Str("toString"), Lit("](" + radix + ")")]
  }

  /** `(+(<a>+[<b>]))[toString](<c>+[<e>])` with numbers built from digits. */
  function RadixDigits(a: DigitValue, b: DigitValue, c: DigitValue, e: DigitValue): seq<Part> {
    [Lit("(+("), D(a), Lit("+["), D(b), Lit("]))["), Str("toString"), Lit("]("), D(c), Lit("+["), D(e), Lit("])")]
  }

  function UnescapeFallback(c: char): seq<Part> {
    [EvalStr(UnescapeSource(FallbackEscape(c)))]
  }

  function LowerProduction(bl: Blacklist, c: char): seq<Part>
    requires 'a' <= c <= 'z'
  {
    match c
    case 'a' => Quoted(bl, !bl.lowerCase, [c], IndexText(False, 1))
    case 'b' => Quoted(bl, !bl.lowerCase, [c], if !bl.curlyBrackets then IndexWrapped(ObjectText, 2) else IndexWrapped(ArrayIteratorText, 2))
    case 'c' => Quoted(bl, !bl.lowerCase, [c], if !bl.curlyBrackets then IndexWrapped(ObjectText, 5) else IndexWrapped(FlatText, 3))
    case 'd' => Quoted(bl, !bl.lowerCase, [c], IndexText(Undefined, 2))
    case 'e' => Quoted(bl, !bl.lowerCase, [c], IndexText(True, 3))
    case 'f' => Quoted(bl, !bl.lowerCase, [c], IndexText(False, 0))
    case 'g' => Quoted(bl, !bl.lowerCase, [c], if !bl.number then [I(StringCtorText, true), Lit("[14]")] else IndexTwoDigits(StringCtorText, 1, 4))
    case 'h' => Quoted(bl, !bl.lowerCase, [c], if !bl.number then RadixLiteral("17", "20") else RadixDigits(1, 7, 2, 0))
    case 'i' => Quoted(bl, !bl.lowerCase, [c], if !bl.number then [Lit("("), I(Undefined), Lit("+[])[5]")]
                  else [Lit("(["), I(False), Lit("]+"), I(Undefined), Lit(")["), D(1), Lit("+["), D(0), Lit("]]")])
    case 'j' => Quoted(bl, !bl.lowerCase, [c], if !bl.curlyBrackets then IndexWrapped(ObjectText, 3) else IndexWrapped(ArrayIteratorText, 3))
    case 'k' => Quoted(bl, !bl.lowerCase, [c], if !bl.number then RadixLiteral("20", "21") else RadixDigits(2, 0, 2, 1))
    case 'l' => Quoted(bl, !bl.lowerCase, [c], IndexText(False, 2))
    case 'm' => Quoted(bl, !bl.lowerCase, [c], if !bl.number then [Lit("(("), D(0), Lit(")["), Str("constructor"), Lit("]+[])[11]")]
                  else [Lit("(("), D(0), Lit(")["), Str("constructor"), Lit("]+[])["), D(1), Lit("+["), D(1), Lit("]]")])
    case 'n' => Quoted(bl, !bl.lowerCase, [c], IndexText(Undefined, 1))
    case 'o' => Quoted(bl, !bl.lowerCase, [c], if !bl.curlyBrackets then IndexWrapped(ObjectText, 1)
                  else if !bl.number then [I(FlatText, true), Lit("[6]")]
                  else IndexPair(I(True), I(FlatText), 1, 0))
    case 'p' => Quoted(bl, !bl.lowerCase, [c], if !bl.number then RadixLiteral("25", "30") else RadixDigits(2, 5, 3, 0))
    case 'q' => Quoted(bl, !bl.lowerCase, [c], if !bl.number then RadixLiteral("26", "30") else RadixDigits(2, 6, 3, 0))
    case 'r' => Quoted(bl, !bl.lowerCase, [c], IndexText(True, 1))
    case 's' => Quoted(bl, !bl.lowerCase, [c], IndexText(False, 3))
    case 't' => Quoted(bl, !bl.lowerCase, [c], IndexText(True, 0))
    case 'u' => Quoted(bl, !bl.lowerCase, [c], IndexText(Undefined, 0))
    case 'v' => Quoted(bl, !bl.lowerCase, [c], if !bl.number then [I(FlatText, true), Lit("[23]")] else IndexTwoDigits(FlatText, 2, 3))
    case 'w' => Quoted(bl, !bl.lowerCase, [c], if !bl.number then RadixLiteral("32", "33") else RadixDigits(3, 2, 3, 3))
    case 'x' => Quoted(bl, !bl.lowerCase, [c], if !bl.number then RadixLiteral("33", "34")
                  else [Lit("(+("), D(1), Lit("+["), D(0), Lit("]+["), D(1), Lit("]))["), Str("toString"),
                        Lit("]("), D(3), Lit("+["), D(4), Lit("])["), D(1), Lit("]")])
    case 'y' => Quoted(bl, !bl.lowerCase, [c], if !bl.number then IndexText(Infinity, 7)
                  else [Lit("("), I(NaN), Lit("+["), I(Infinity), Lit("])["), D(1), Lit("+["), D(0), Lit("]]")])
    case 'z' => Quoted(bl, !bl.lowerCase, [c], if !bl.number then RadixLiteral("35", "36") else RadixDigits(3, 5, 3, 6))
    case _ => []
  }

  function UpperProduction(bl: Blacklist, c: char): seq<Part>
    requires c in UpperKeys
  {
    match c
    case 'A' => Quoted(bl, !bl.upperCase, [c], IndexWrapped(ArrayIteratorText, 8))
    case 'B' => Quoted(bl, !bl.upperCase, [c], if !bl.number then [Lit("(("), I(False), Lit(")["), Str("constructor"), Lit("]+[])[9]")]
                  else [Lit("(["), D(0), Lit("]+("), I(False), Lit(")["), Str("constructor"), Lit("])["),
                        D(1), Lit("+["), D(0), Lit("]]")])
    case 'C' => Quoted(bl, !bl.upperCase, [c], IndexWrapped(EscapedSub, 2))
    case 'D' => Quoted(bl, !bl.upperCase, [c], if !bl.number then [I(EscapedFlat, true), Lit("[48]")]
                  else [I(EscapedFlat, true), Lit("[["), D(4), Lit("]+["), D(8), Lit("]]")])
    case 'E' => Quoted(bl, !bl.upperCase, [c], IndexWrapped(EscapedSub, 8))
    case 'I' => Quoted(bl, !bl.upperCase, [c], IndexText(Infinity, 0))
    case 'N' => Quoted(bl, !bl.upperCase, [c], IndexText(NaN, 0))
    case 'O' => Quoted(bl, !bl.upperCase, [c], if !bl.curlyBrackets then IndexWrapped(ObjectText, 8) else UnescapeFallback('O'))
    case 'S' => Quoted(bl, !bl.upperCase, [c], if !bl.number then [I(StringCtorText, true), Lit("[9]")]
                  else IndexPair(D(0), I(StringCtorText), 1, 0))
    case _ => []
  }

  function SymbolProduction(bl: Blacklist, c: char): seq<Part> {
    var noQuote := IsNoWrapString(bl);
    match c
    case ' ' => Quoted(bl, !bl.space, " ",
      if !bl.curlyBrackets then IndexWrapped(ObjectText, 7)
      else if !bl.number then [I(FlatText, true), Lit("[8]")]
      else IndexPair(I(False), I(FlatText), 2, 0))
    case '$' => Quoted(bl, !bl.dollar, "$", UnescapeFallback('$'))
    case '\n' => Quoted(bl, !bl.lowerCase && !bl.backslash, "\\n", UnescapeFallback('\n'))
    case '%' => Quoted(bl, !bl.percent, "%",
      if !bl.number then [I(EscapedFlat, true), Lit("[8]")] else IndexTwoDigits(EscapedFlat, 3, 0))
    case '*' => Quoted(bl, !bl.asterisk, "*", UnescapeFallback('*'))
    case '_' => Quoted(bl, !bl.underscore, "_", UnescapeFallback('_'))
    case '=' => Quoted(bl, !bl.equals, "=",
      if !bl.number then [I(FontColorText, true), Lit("[11]")] else IndexTwoDigits(FontColorText, 1, 1))
    case '+' => Quoted(bl, true, "+", IndexText(BigNumber, 4))
    case '\'' =>
      if !bl.singleQuotes && !bl.doubleQuotes then [Lit("\"'\"")]
      else if !bl.singleQuotes && !bl.backtick then [Lit("`'`")]
      else if !bl.singleQuotes && !bl.backslash then [Lit("'\\''")]
      else UnescapeFallback('\'')
    case '"' =>
      if !bl.doubleQuotes && !bl.singleQuotes then [Lit("'\"'")]
      else if !bl.doubleQuotes && !bl.backtick then [Lit("`\"`")]
      else if !bl.doubleQuotes && !bl.backslash then [Lit("\"\\\"\"")]
      else if !bl.number then [I(FontColorText, true), Lit("[12]")]
      else IndexTwoDigits(FontColorText, 1, 2)
    case '.' => Quoted(bl, !bl.dot, ".",
      if !bl.slash then [Lit("(("), D(1, true), Lit("/"), D(2, true), Lit(")+[])["), D(1), Lit("]")]
      else IndexText(BigNumber, 1))
    case '/' => Quoted(bl, !bl.slash, "/",
      if !bl.number then [I(SubText, true), Lit("[6]")] else IndexPair(I(True), I(SubText), 1, 0))
    case '\\' => Quoted(bl, !bl.backslash, "\\\\", UnescapeFallback('\\'))
    case '(' => Quoted(bl, true, "(",
      if !bl.number then [I(FlatText, true), Lit("[13]")] else IndexTwoDigits(FlatText, 1, 3))
    case ')' => Quoted(bl, true, ")",
      if !bl.number then [I(FlatText, true), Lit("[14]")] else IndexTwoDigits(FlatText, 1, 4))
    case '{' => Quoted(bl, !bl.curlyBrackets, "{",
      if !bl.number then [I(FlatText, true), Lit("[16]")] else IndexPair(I(True), I(FlatText), 2, 0))
    case '}' => Quoted(bl, !bl.curlyBrackets, "}",
      if !bl.number then [I(FlatText, true), Lit("[32]")] else IndexTwoDigits(FlatText, 3, 2))
    case '[' => Quoted(bl, true, "[",
      if !bl.curlyBrackets then IndexWrapped(ObjectText, 0)
      else if !bl.number then [I(FlatText, true), Lit("[18]")]
      else IndexTwoDigits(FlatText, 1, 8))
    case ']' => Quoted(bl, true, "]",
      if !bl.curlyBrackets then (if !bl.number then [I(ObjectText, true), Lit("[14]")] else IndexTwoDigits(ObjectText, 1, 4))
      else if !bl.number then [I(FlatText, true), Lit("[30]")]
      else IndexTwoDigits(FlatText, 3, 0))
    case '<' => Quoted(bl, !bl.angleBrackets, "<", IndexWrapped(SubText, 0))
    case '>' => Quoted(bl, !bl.angleBrackets, ">", IndexWrapped(SubText, 4))
    case _ => []
  }

  function CharProduction(bl: Blacklist, c: CatalogChar): seq<Part> {
    if 'a' <= c <= 'z' then LowerProduction(bl, c)
    else if c in UpperKeys then UpperProduction(bl, c)
    else if '0' <= c <= '9' then
      Quoted(bl, !bl.number, [c], [D(c as int - '0' as int, true), Lit("+[]")])
    else SymbolProduction(bl, c)
  }

  /** The template of an entry under a blacklist: `X[v].result()`. */
  function Production(bl: Blacklist, k: Key): seq<Part> {
    match k
    case Internal(n) => InternalProduction(bl, n)
    case Digit(d) => DigitProduction(bl, d)
    case Char(c) => CharProduction(bl, c)
  }

  // ---------------------------------------------------------------------------
  // The dependency graph between entries is acyclic: every entry refers only to
  // entries of smaller rank (the depth of the entry in the graph).

  function InternalRank(n: InternalName): nat {
    match n
    case False => 0
    case True => 0
    case Undefined => 0
    case NaN => 0
    case ObjectText => 0
    case FlatText => 3
    case Infinity => 4
    case BigNumber => 4
    case ArrayIteratorText => 4
    case StringCtorText => 6
    case SubText => 6
    case FontColorText => 6
    case EscapedFlat => 9
    case EscapedSub => 9
  }

  function DigitRank(d: DigitValue): nat {
    if d == 0 then 0 else if d <= 2 then 1 else d - 1
  }

  function CharRank(c: char): (r: nat)
    ensures r < MaxRank
  {
    match c
    case 'f' => 1 case 't' => 1 case 'u' => 1 case 'N' => 1 case '0' => 1
    case 'a' => 2 case 'd' => 2 case 'i' => 2 case 'l' => 2 case 'n' => 2 case 'r' => 2
    case '1' => 2 case '2' => 2
    case 'e' => 3 case 's' => 3 case '3' => 3
    case 'o' => 4 case 'v' => 4 case '4' => 4 case '(' => 4 case ')' => 4 case '{' => 4
    case '}' => 4 case ']' => 4
    case 'b' => 5 case 'c' => 5 case 'j' => 5 case 'I' => 5 case '5' => 5 case '+' => 5 case '.' => 5
    case 'm' => 6 case 'B' => 6 case '6' => 6
    case 'g' => 7 case 'y' => 7 case 'S' => 7 case '7' => 7 case ' ' => 7 case '=' => 7
    case '"' => 7 case '/' => 7 case '<' => 7 case '>' => 7
    case 'h' => 8 case 'k' => 8 case 'p' => 8 case 'q' => 8 case 'w' => 8 case 'x' => 8
    case 'z' => 8 case 'A' => 8 case '8' => 8 case '[' => 8
    case '9' => 9
    case 'C' => 10 case 'D' => 10 case 'E' => 10 case '%' => 10
    case _ => 11
  }

  /** The rank of an entry; every rank is below `MaxRank`. */
  function Rank(k: Key): (r: nat)
    ensures r < MaxRank
  {
    match k
    case Internal(n) => InternalRank(n)
    case Digit(d) => DigitRank(d)
    case Char(c) => CharRank(c)
  }

  const MaxRank: nat := 12

  /** Every character of `s` has an entry, of rank below `b`. */
  predicate CharsBelow(s: string, b: nat) {
    forall i :: 0 <= i < |s| ==> IsCatalogChar(s[i]) && CharRank(s[i]) < b
  }

  predicate PartBelow(p: Part, b: nat) {
    match p
    case Lit(_) => true
    case Ref(k, _) => Rank(k) < b
    case Str(s) => CharsBelow(s, b)
    case EvalStr(s) => CharsBelow(s, b) && CharsBelow("flat", b) && CharsBelow("constructor", b)
  }

  /** Every part of a template refers only to entries of rank below `b`. */
  predicate PartsBelow(parts: seq<Part>, b: nat) {
    forall i :: 0 <= i < |parts| ==> PartBelow(parts[i], b)
  }

  lemma CharsBelowMonotone(s: string, a: nat, b: nat)
    requires a <= b && CharsBelow(s, a)
    ensures CharsBelow(s, b)
  {
  }

  lemma ToStringRanked()
    ensures CharsBelow("toString", 8)
  {
  }

  /** Both forms of a `toString` radix template stay below rank 8 and above. */
  lemma RadixRanked(n: string, radix: string, a: DigitValue, b: DigitValue, c: DigitValue, e: DigitValue, r: nat)
    requires 8 <= r && DigitRank(a) < r && DigitRank(b) < r && DigitRank(c) < r && DigitRank(e) < r
    ensures PartsBelow(RadixLiteral(n, radix), r) && PartsBelow(RadixDigits(a, b, c, e), r)
  {
    ToStringRanked();
    CharsBelowMonotone("toString", 8, r);
  }

  /** An indexed internal text stays below any rank above both of its entries. */
  lemma IndexWrappedRanked(n: InternalName, d: DigitValue, r: nat)
    requires InternalRank(n) < r && DigitRank(d) < r
    ensures PartsBelow(IndexWrapped(n, d), r)
  {
  }

  lemma ConstructorRanked()
    ensures CharsBelow("constructor", 6)
  {
  }

  lemma FlatRanked()
    ensures CharsBelow("flat", 3)
  {
  }

  lemma FallbackRanked(c: char)
    requires c in {'$', '\n', '*', '_', '\'', '\\', 'O'}
    ensures PartsBelow(UnescapeFallback(c), 11)
  {
    assert CharsBelow(UnescapeSource(FallbackEscape(c)), 11);
  }

  lemma InternalRankedConstants(bl: Blacklist, n: InternalName)
    requires n in {False, True, Undefined, NaN, ObjectText, Infinity, BigNumber}
    ensures PartsBelow(InternalProduction(bl, n), InternalRank(n))
  {
  }

  /** A property name spelled between two literals stays below any rank above its characters. */
  lemma StrTemplateRanked(pre: string, name: string, post: string, r: nat)
    requires CharsBelow(name, r)
    ensures PartsBelow([Lit(pre), Str(name), Lit(post)], r)
  {
  }

  lemma InternalRankedStrings(bl: Blacklist, n: InternalName)
    requires n in {FlatText, StringCtorText, ArrayIteratorText, SubText, FontColorText}
    ensures PartsBelow(InternalProduction(bl, n), InternalRank(n))
  {
    match n
    case FlatText =>
      FlatRanked();
      StrTemplateRanked("[][", "flat", "]+[]", 3);
    case StringCtorText =>
      ConstructorRanked();
      StrTemplateRanked("([]+[])[", "constructor", "]+[]", 6);
    case ArrayIteratorText =>
      assert CharsBelow("entries", 4);
      StrTemplateRanked("[][", "entries", "]()+[]", 4);
    case SubText =>
      assert CharsBelow("sub", 6);
      StrTemplateRanked("([]+[])[", "sub", "]()", 6);
    case FontColorText =>
      assert CharsBelow("fontcolor", 6);
      StrTemplateRanked("([]+[])[", "fontcolor", "]()", 6);
  }

  lemma EscapedFlatRanked(bl: Blacklist)
    ensures PartsBelow(InternalProduction(bl, EscapedFlat), 9)
  {
    FlatRanked();
    ConstructorRanked();
    CharsBelowMonotone("flat", 3, 9);
    CharsBelowMonotone("constructor", 6, 9);
    assert CharsBelow("return escape([][\"flat\"])", 9);
  }

  lemma EscapedSubRanked(bl: Blacklist)
    ensures PartsBelow(InternalProduction(bl, EscapedSub), 9)
  {
    FlatRanked();
    ConstructorRanked();
    CharsBelowMonotone("flat", 3, 9);
    CharsBelowMonotone("constructor", 6, 9);
    assert CharsBelow("return escape(([]+[])[\"sub\"]())", 9);
  }

  lemma InternalRanked(bl: Blacklist, n: InternalName)
    ensures PartsBelow(InternalProduction(bl, n), InternalRank(n))
  {
    if n in {FlatText, StringCtorText, ArrayIteratorText, SubText, FontColorText} {
      InternalRankedStrings(bl, n);
    } else if n == EscapedFlat {
      EscapedFlatRanked(bl);
    } else if n == EscapedSub {
      EscapedSubRanked(bl);
    } else {
      InternalRankedConstants(bl, n);
    }
  }

  lemma DigitRanked(bl: Blacklist, d: DigitValue)
    ensures PartsBelow(DigitProduction(bl, d), DigitRank(d))
  {
  }

  lemma LowerRankedA(bl: Blacklist)
    ensures PartsBelow(LowerProduction(bl, 'a'), CharRank('a'))
  {
  }

  lemma LowerRankedB(bl: Blacklist)
    ensures PartsBelow(LowerProduction(bl, 'b'), CharRank('b'))
  {
    IndexWrappedRanked(ObjectText, 2, CharRank('b'));
    IndexWrappedRanked(ArrayIteratorText, 2, CharRank('b'));
  }

  lemma LowerRankedC(bl: Blacklist)
    ensures PartsBelow(LowerProduction(bl, 'c'), CharRank('c'))
  {
    IndexWrappedRanked(ObjectText, 5, CharRank('c'));
    IndexWrappedRanked(FlatText, 3, CharRank('c'));
  }

  lemma LowerRankedD(bl: Blacklist)
    ensures PartsBelow(LowerProduction(bl, 'd'), CharRank('d'))
  {
  }

  lemma LowerRankedE(bl: Blacklist)
    ensures PartsBelow(LowerProduction(bl, 'e'), CharRank('e'))
  {
  }

  lemma LowerRankedF(bl: Blacklist)
    ensures PartsBelow(LowerProduction(bl, 'f'), CharRank('f'))
  {
  }

  lemma LowerRankedG(bl: Blacklist)
    ensures PartsBelow(LowerProduction(bl, 'g'), CharRank('g'))
  {
  }

  lemma LowerRankedH(bl: Blacklist)
    ensures PartsBelow(LowerProduction(bl, 'h'), CharRank('h'))
  {
    RadixRanked("17", "20", 1, 7, 2, 0, CharRank('h'));
  }

  lemma LowerRankedI(bl: Blacklist)
    ensures PartsBelow(LowerProduction(bl, 'i'), CharRank('i'))
  {
  }

  lemma LowerRankedJ(bl: Blacklist)
    ensures PartsBelow(LowerProduction(bl, 'j'), CharRank('j'))
  {
    IndexWrappedRanked(ObjectText, 3, CharRank('j'));
    IndexWrappedRanked(ArrayIteratorText, 3, CharRank('j'));
  }

  lemma LowerRankedK(bl: Blacklist)
    ensures PartsBelow(LowerProduction(bl, 'k'), CharRank('k'))
  {
    RadixRanked("20", "21", 2, 0, 2, 1, CharRank('k'));
  }

  lemma LowerRankedL(bl: Blacklist)
    ensures PartsBelow(LowerProduction(bl, 'l'), CharRank('l'))
  {
  }

  lemma LowerRankedM(bl: Blacklist)
    ensures PartsBelow(LowerProduction(bl, 'm'), CharRank('m'))
  {
    ConstructorRanked();
  }

  lemma LowerRankedN(bl: Blacklist)
    ensures PartsBelow(LowerProduction(bl, 'n'), CharRank('n'))
  {
  }

  lemma LowerRankedO(bl: Blacklist)
    ensures PartsBelow(LowerProduction(bl, 'o'), CharRank('o'))
  {
  }

  lemma LowerRankedP(bl: Blacklist)
    ensures PartsBelow(LowerProduction(bl, 'p'), CharRank('p'))
  {
    RadixRanked("25", "30", 2, 5, 3, 0, CharRank('p'));
  }

  lemma LowerRankedQ(bl: Blacklist)
    ensures PartsBelow(LowerProduction(bl, 'q'), CharRank('q'))
  {
    RadixRanked("26", "30", 2, 6, 3, 0, CharRank('q'));
  }

  lemma LowerRankedR(bl: Blacklist)
    ensures PartsBelow(LowerProduction(bl, 'r'), CharRank('r'))
  {
  }

  lemma LowerRankedS(bl: Blacklist)
    ensures PartsBelow(LowerProduction(bl, 's'), CharRank('s'))
  {
  }

  lemma LowerRankedT(bl: Blacklist)
    ensures PartsBelow(LowerProduction(bl, 't'), CharRank('t'))
  {
  }

  lemma LowerRankedU(bl: Blacklist)
    ensures PartsBelow(LowerProduction(bl, 'u'), CharRank('u'))
  {
  }

  lemma LowerRankedV(bl: Blacklist)
    ensures PartsBelow(LowerProduction(bl, 'v'), CharRank('v'))
  {
  }

  lemma LowerRankedW(bl: Blacklist)
    ensures PartsBelow(LowerProduction(bl, 'w'), CharRank('w'))
  {
    RadixRanked("32", "33", 3, 2, 3, 3, CharRank('w'));
  }

  lemma LowerRankedX(bl: Blacklist)
    ensures PartsBelow(LowerProduction(bl, 'x'), CharRank('x'))
  {
    ToStringRanked();
  }

  lemma LowerRankedY(bl: Blacklist)
    ensures PartsBelow(LowerProduction(bl, 'y'), CharRank('y'))
  {
  }

  lemma LowerRankedZ(bl: Blacklist)
    ensures PartsBelow(LowerProduction(bl, 'z'), CharRank('z'))
  {
    RadixRanked("35", "36", 3, 5, 3, 6, CharRank('z'));
  }

  lemma UpperRankedA(bl: Blacklist)
    ensures PartsBelow(UpperProduction(bl, 'A'), CharRank('A'))
  {
  }

  lemma UpperRankedB(bl: Blacklist)
    ensures PartsBelow(UpperProduction(bl, 'B'), CharRank('B'))
  {
    ConstructorRanked();
  }

  lemma UpperRankedC(bl: Blacklist)
    ensures PartsBelow(UpperProduction(bl, 'C'), CharRank('C'))
  {
  }

  lemma UpperRankedD(bl: Blacklist)
    ensures PartsBelow(UpperProduction(bl, 'D'), CharRank('D'))
  {
  }

  lemma UpperRankedE(bl: Blacklist)
    ensures PartsBelow(UpperProduction(bl, 'E'), CharRank('E'))
  {
  }

  lemma UpperRankedI(bl: Blacklist)
    ensures PartsBelow(UpperProduction(bl, 'I'), CharRank('I'))
  {
  }

  lemma UpperRankedN(bl: Blacklist)
    ensures PartsBelow(UpperProduction(bl, 'N'), CharRank('N'))
  {
  }

  lemma UpperRankedO(bl: Blacklist)
    ensures PartsBelow(UpperProduction(bl, 'O'), CharRank('O'))
  {
    FallbackRanked('O');
  }

  lemma UpperRankedS(bl: Blacklist)
    ensures PartsBelow(UpperProduction(bl, 'S'), CharRank('S'))
  {
  }

  lemma SymbolRankedSpace(bl: Blacklist)
    ensures PartsBelow(SymbolProduction(bl, ' '), CharRank(' '))
  {
  }

  lemma SymbolRankedDollar(bl: Blacklist)
    ensures PartsBelow(SymbolProduction(bl, '$'), CharRank('$'))
  {
    FallbackRanked('$');
  }

  lemma SymbolRankedNewline(bl: Blacklist)
    ensures PartsBelow(SymbolProduction(bl, '\n'), CharRank('\n'))
  {
    FallbackRanked('\n');
  }

  lemma SymbolRankedPercent(bl: Blacklist)
    ensures PartsBelow(SymbolProduction(bl, '%'), CharRank('%'))
  {
  }

  lemma SymbolRankedAsterisk(bl: Blacklist)
    ensures PartsBelow(SymbolProduction(bl, '*'), CharRank('*'))
  {
    FallbackRanked('*');
  }

  lemma SymbolRankedUnderscore(bl: Blacklist)
    ensures PartsBelow(SymbolProduction(bl, '_'), CharRank('_'))
  {
    FallbackRanked('_');
  }

  lemma SymbolRankedEquals(bl: Blacklist)
    ensures PartsBelow(SymbolProduction(bl, '='), CharRank('='))
  {
  }

  lemma SymbolRankedPlus(bl: Blacklist)
    ensures PartsBelow(SymbolProduction(bl, '+'), CharRank('+'))
  {
  }

  lemma SymbolRankedQuote(bl: Blacklist)
    ensures PartsBelow(SymbolProduction(bl, '\''), CharRank('\''))
  {
    FallbackRanked('\'');
  }

  lemma SymbolRankedDoubleQuote(bl: Blacklist)
    ensures PartsBelow(SymbolProduction(bl, '"'), CharRank('"'))
  {
  }

  lemma SymbolRankedDot(bl: Blacklist)
    ensures PartsBelow(SymbolProduction(bl, '.'), CharRank('.'))
  {
  }

  lemma SymbolRankedSlash(bl: Blacklist)
    ensures PartsBelow(SymbolProduction(bl, '/'), CharRank('/'))
  {
  }

  lemma SymbolRankedBackslash(bl: Blacklist)
    ensures PartsBelow(SymbolProduction(bl, '\\'), CharRank('\\'))
  {
    FallbackRanked('\\');
  }

  lemma SymbolRankedOpenParen(bl: Blacklist)
    ensures PartsBelow(SymbolProduction(bl, '('), CharRank('('))
  {
  }

  lemma SymbolRankedCloseParen(bl: Blacklist)
    ensures PartsBelow(SymbolProduction(bl, ')'), CharRank(')'))
  {
  }

  lemma SymbolRankedOpenBrace(bl: Blacklist)
    ensures PartsBelow(SymbolProduction(bl, '{'), CharRank('{'))
  {
  }

  lemma SymbolRankedCloseBrace(bl: Blacklist)
    ensures PartsBelow(SymbolProduction(bl, '}'), CharRank('}'))
  {
  }

  lemma SymbolRankedOpenBracket(bl: Blacklist)
    ensures PartsBelow(SymbolProduction(bl, '['), CharRank('['))
  {
  }

  lemma SymbolRankedCloseBracket(bl: Blacklist)
    ensures PartsBelow(SymbolProduction(bl, ']'), CharRank(']'))
  {
  }

  lemma SymbolRankedLess(bl: Blacklist)
    ensures PartsBelow(SymbolProduction(bl, '<'), CharRank('<'))
  {
  }

  lemma SymbolRankedGreater(bl: Blacklist)
    ensures PartsBelow(SymbolProduction(bl, '>'), CharRank('>'))
  {
  }

  lemma LowerRanked(bl: Blacklist, c: char)
    requires 'a' <= c <= 'z'
    ensures PartsBelow(LowerProduction(bl, c), CharRank(c))
  {
    match c
    case 'a' => LowerRankedA(bl);
    case 'b' => LowerRankedB(bl);
    case 'c' => LowerRankedC(bl);
    case 'd' => LowerRankedD(bl);
    case 'e' => LowerRankedE(bl);
    case 'f' => LowerRankedF(bl);
    case 'g' => LowerRankedG(bl);
    case 'h' => LowerRankedH(bl);
    case 'i' => LowerRankedI(bl);
    case 'j' => LowerRankedJ(bl);
    case 'k' => LowerRankedK(bl);
    case 'l' => LowerRankedL(bl);
    case 'm' => LowerRankedM(bl);
    case 'n' => LowerRankedN(bl);
    case 'o' => LowerRankedO(bl);
    case 'p' => LowerRankedP(bl);
    case 'q' => LowerRankedQ(bl);
    case 'r' => LowerRankedR(bl);
    case 's' => LowerRankedS(bl);
    case 't' => LowerRankedT(bl);
    case 'u' => LowerRankedU(bl);
    case 'v' => LowerRankedV(bl);
    case 'w' => LowerRankedW(bl);
    case 'x' => LowerRankedX(bl);
    case 'y' => LowerRankedY(bl);
    case 'z' => LowerRankedZ(bl);
  }

  lemma UpperRanked(bl: Blacklist, c: char)
    requires c in UpperKeys
    ensures PartsBelow(UpperProduction(bl, c), CharRank(c))
  {
    match c
    case 'A' => UpperRankedA(bl);
    case 'B' => UpperRankedB(bl);
    case 'C' => UpperRankedC(bl);
    case 'D' => UpperRankedD(bl);
    case 'E' => UpperRankedE(bl);
    case 'I' => UpperRankedI(bl);
    case 'N' => UpperRankedN(bl);
    case 'O' => UpperRankedO(bl);
    case 'S' => UpperRankedS(bl);
  }

  lemma SymbolRanked(bl: Blacklist, c: char)
    requires c in SymbolKeys
    ensures PartsBelow(SymbolProduction(bl, c), CharRank(c))
  {
    match c
    case ' ' => SymbolRankedSpace(bl);
    case '$' => SymbolRankedDollar(bl);
    case '\n' => SymbolRankedNewline(bl);
    case '%' => SymbolRankedPercent(bl);
    case '*' => SymbolRankedAsterisk(bl);
    case '_' => SymbolRankedUnderscore(bl);
    case '=' => SymbolRankedEquals(bl);
    case '+' => SymbolRankedPlus(bl);
    case '\'' => SymbolRankedQuote(bl);
    case '"' => SymbolRankedDoubleQuote(bl);
    case '.' => SymbolRankedDot(bl);
    case '/' => SymbolRankedSlash(bl);
    case '\\' => SymbolRankedBackslash(bl);
    case '(' => SymbolRankedOpenParen(bl);
    case ')' => SymbolRankedCloseParen(bl);
    case '{' => SymbolRankedOpenBrace(bl);
    case '}' => SymbolRankedCloseBrace(bl);
    case '[' => SymbolRankedOpenBracket(bl);
    case ']' => SymbolRankedCloseBracket(bl);
    case '<' => SymbolRankedLess(bl);
    case '>' => SymbolRankedGreater(bl);
  }

  /** The tables are well founded: an entry refers only to entries of smaller rank. */
  lemma ProductionRanked(bl: Blacklist, k: Key)
    ensures PartsBelow(Production(bl, k), Rank(k))
  {
    match k
    case Internal(n) => InternalRanked(bl, n);
    case Digit(d) => DigitRanked(bl, d);
    case Char(c) =>
      if 'a' <= c <= 'z' {
        LowerRanked(bl, c);
      } else if c in UpperKeys {
        UpperRanked(bl, c);
      } else if '0' <= c <= '9' {
      } else {
        SymbolRanked(bl, c);
      }
  }
}
