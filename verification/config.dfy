/**
 * The blacklist of symbol classes (scripts/js-obfuscator.js:13-34) as an immutable
 * record, and the quoting helpers that depend only on it (lines 938-948).
 * A field that is `true` means the symbol class is forbidden in the output.
 */
module Blacklist {
  import opened Wrappers

  datatype Blacklist = Blacklist(
    upperCase: bool,
    lowerCase: bool,
    number: bool,
    space: bool,
    dollar: bool,         // $
    percent: bool,        // %
    asterisk: bool,       // *
    underscore: bool,     // _
    equals: bool,         // =
    singleQuotes: bool,   // '
    doubleQuotes: bool,   // "
    backtick: bool,       // `
    dot: bool,            // .
    slash: bool,          // /
    backslash: bool,      // \
    curlyBrackets: bool,  // { or }
    angleBrackets: bool   // < or >
  )

  /** The blacklist the engine starts with: both letter cases forbidden, everything else allowed. */
  function Initial(): Blacklist {
    Blacklist(true, true, false, false, false, false, false, false, false,
              false, false, false, false, false, false, false, false)
  }

  /** Whether the quote mark `q` (one of ' " `) may appear in the output. */
  predicate QuotePermitted(bl: Blacklist, q: char) {
    match q
    case '\'' => !bl.singleQuotes
    case '"' => !bl.doubleQuotes
    case '`' => !bl.backtick
    case _ => false
  }

  /** `isNoWrapString`: no quote mark at all is permitted. */
  predicate IsNoWrapString(bl: Blacklist) {
    bl.singleQuotes && bl.doubleQuotes && bl.backtick
  }

  /**
   * `wrapString`: the text `v` between the first permitted quote mark, trying
   * single quote, double quote and backtick in that order; `None` when all three
   * are forbidden (the source logs an error and yields nothing).
   */
  function WrapString(bl: Blacklist, v: string): (r: Option<string>)
    ensures r.None? <==> IsNoWrapString(bl)
    ensures r.Some? ==> |r.value| == |v| + 2 && r.value[1..|v| + 1] == v
    ensures r.Some? ==> r.value[0] == r.value[|v| + 1] && QuotePermitted(bl, r.value[0])
    ensures r.Some? && r.value[0] != '\'' ==> bl.singleQuotes
    ensures r.Some? && r.value[0] == '`' ==> bl.doubleQuotes
  {
    if !bl.singleQuotes then Some("'" + v + "'")
    else if !bl.doubleQuotes then Some("\"" + v + "\"")
    else if !bl.backtick then Some("`" + v + "`")
    else None
  }

  /** The quoted text, for the branches the source guards by `!isNoWrapString()`. */
  function Quote(bl: Blacklist, v: string): (r: string)
    requires !IsNoWrapString(bl)
    ensures Some(r) == WrapString(bl, v)
  {
    WrapString(bl, v).value
  }

  /** The inverse of quoting: the text between the outer marks. */
  function Unquote(q: string): string
    requires |q| >= 2
  {
    q[1..|q| - 1]
  }

  /** Quoting with any permitted mark is undone by `Unquote`. */
  lemma UnquoteWrapString(bl: Blacklist, v: string)
    requires !IsNoWrapString(bl)
    ensures |Quote(bl, v)| >= 2 && Unquote(Quote(bl, v)) == v
  {
  }

  /** The mark chosen for a permitted single quote is the single quote itself. */
  lemma SingleQuoteFirst(bl: Blacklist, v: string)
    requires !bl.singleQuotes
    ensures WrapString(bl, v) == Some("'" + v + "'")
  {
  }
}
