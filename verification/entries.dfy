/**
 * Properties of individual entries of the tables: the digits
 * (scripts/js-obfuscator.js:165-275) and the character 'a' (lines 278-285).
 */
module Entries {
  import opened Blacklist
  import opened Productions
  import opened Expressions

  predicate NoDecimalDigits(s: string) {
    forall i :: 0 <= i < |s| ==> !('0' <= s[i] <= '9')
  }

  lemma TrueText(bl: Blacklist)
    ensures Text(bl, Internal(True)) == "!![]"
  {
    assert Resolve(bl, [Lit("!![]")], 0) == Resolve(bl, [], 0) + "!![]";
  }

  /** With numbers permitted a digit is its decimal literal, and it needs no parentheses. */
  lemma DigitPermitted(bl: Blacklist, d: DigitValue)
    requires !bl.number
    ensures Text(bl, Digit(d)) == DigitLiteral(d) && IsWrap(bl, Digit(d))
    ensures forall wrap :: Term(bl, Digit(d), wrap) == DigitLiteral(d)
  {
    var parts := [Lit(DigitLiteral(d))];
    assert Resolve(bl, parts, Rank(Digit(d))) == Resolve(bl, [], Rank(Digit(d))) + DigitLiteral(d);
  }

  /** A template whose every part resolves without decimal digits resolves without them. */
  lemma {:induction false} ResolveNoDecimal(bl: Blacklist, parts: seq<Part>, bound: nat)
    requires PartsBelow(parts, bound)
    requires forall i :: 0 <= i < |parts| ==> NoDecimalDigits(PartText(bl, parts[i], bound))
    ensures NoDecimalDigits(Resolve(bl, parts, bound))
  {
    if parts != [] {
      ResolveNoDecimal(bl, parts[..|parts| - 1], bound);
    }
  }

  /** The parts a digit's template is made of when numbers are blacklisted. */
  predicate DigitPart(p: Part) {
    match p
    case Lit(s) => NoDecimalDigits(s)
    case Ref(k, _) => k.Digit? || k == Internal(True)
    case _ => false
  }

  lemma DigitTemplate(bl: Blacklist, d: DigitValue)
    requires bl.number
    ensures forall i :: 0 <= i < |DigitProduction(bl, d)| ==> DigitPart(DigitProduction(bl, d)[i])
  {
    assert NoDecimalDigits("+") && NoDecimalDigits("+[]") && NoDecimalDigits("<<");
    assert NoDecimalDigits("*") && NoDecimalDigits("**");
  }

  lemma ParenNoDecimal(s: string)
    requires NoDecimalDigits(s)
    ensures NoDecimalDigits("(" + s + ")")
  {
  }

  /**
   * With numbers blacklisted, no digit's text contains a decimal digit, and
   * every digit is parenthesised before further composition.
   */
  lemma {:induction false} DigitBlacklisted(bl: Blacklist, d: DigitValue)
    requires bl.number
    ensures NoDecimalDigits(Text(bl, Digit(d))) && !IsWrap(bl, Digit(d))
    ensures forall wrap :: NoDecimalDigits(Term(bl, Digit(d), wrap))
    decreases Rank(Digit(d)), 1
  {
    var parts := DigitProduction(bl, d);
    var b := Rank(Digit(d));
    DigitRanked(bl, d);
    DigitTemplate(bl, d);
    forall i | 0 <= i < |parts|
      ensures NoDecimalDigits(PartText(bl, parts[i], b))
    {
      DigitPartNoDecimal(bl, parts[i], b);
    }
    ResolveNoDecimal(bl, parts, b);
    TextIsResolved(bl, Digit(d));
    ParenNoDecimal(Text(bl, Digit(d)));
  }

  /** A part of a digit's template resolves without decimal digits. */
  lemma {:induction false} DigitPartNoDecimal(bl: Blacklist, p: Part, b: nat)
    requires bl.number && DigitPart(p) && PartBelow(p, b)
    ensures NoDecimalDigits(PartText(bl, p, b))
    decreases b, 0
  {
    match p
    case Lit(_) =>
    case Ref(k, w) =>
      if k.Digit? {
        DigitBlacklisted(bl, k.d);
      } else {
        TrueNoDecimal(bl, w);
      }
  }

  lemma TrueNoDecimal(bl: Blacklist, wrap: bool)
    ensures NoDecimalDigits(Term(bl, Internal(True), wrap))
  {
    var t := Text(bl, Internal(True));
    TrueText(bl);
    TrueLiteralNoDecimal(t);
  }

  lemma TrueLiteralNoDecimal(t: string)
    requires t == "!![]"
    ensures NoDecimalDigits(t) && NoDecimalDigits("(" + t + ")")
  {
    ParenNoDecimal(t);
  }

  lemma Resolve3(bl: Blacklist, p0: Part, p1: Part, p2: Part, b: nat)
    requires PartBelow(p0, b) && PartBelow(p1, b) && PartBelow(p2, b)
    ensures PartsBelow([p0, p1, p2], b)
    ensures Resolve(bl, [p0, p1, p2], b) == PartText(bl, p0, b) + PartText(bl, p1, b) + PartText(bl, p2, b)
  {
    assert [p0, p1, p2][..2] == [p0, p1];
    assert [p0, p1][..1] == [p0];
    assert [p0][..0] == [];
    assert Resolve(bl, [p0], b) == PartText(bl, p0, b);
    assert Resolve(bl, [p0, p1], b) == PartText(bl, p0, b) + PartText(bl, p1, b);
  }

  /** The text of a digit resolved from a `<a> <op> <b>` template of three parts. */
  lemma DigitText3(bl: Blacklist, d: DigitValue, p0: Part, p1: Part, p2: Part)
    requires DigitProduction(bl, d) == [p0, p1, p2]
    ensures PartBelow(p0, DigitRank(d)) && PartBelow(p1, DigitRank(d)) && PartBelow(p2, DigitRank(d))
    ensures Text(bl, Digit(d)) == PartText(bl, p0, DigitRank(d)) + PartText(bl, p1, DigitRank(d)) + PartText(bl, p2, DigitRank(d))
  {
    DigitRanked(bl, d);
    var parts := [p0, p1, p2];
    assert parts[0] == p0 && parts[1] == p1 && parts[2] == p2;
    Resolve3(bl, p0, p1, p2, DigitRank(d));
  }

  /** A digit composed by an operator between two parenthesised digits. */
  lemma DigitOperatorText(bl: Blacklist, d: DigitValue, a: DigitValue, op: string, b: DigitValue)
    requires bl.number && DigitProduction(bl, d) == [D(a, true), Lit(op), D(b, true)]
    ensures Text(bl, Digit(d)) == "(" + Text(bl, Digit(a)) + ")" + op + "(" + Text(bl, Digit(b)) + ")"
  {
    DigitText3(bl, d, D(a, true), Lit(op), D(b, true));
  }

  /** A digit composed by an operator between a digit and the text of true. */
  lemma DigitPlusTrueText(bl: Blacklist, d: DigitValue, a: DigitValue, op: string)
    requires bl.number && DigitProduction(bl, d) == [D(a), Lit(op), I(True)]
    ensures Text(bl, Digit(d)) == Text(bl, Digit(a)) + op + "!![]"
  {
    DigitText3(bl, d, D(a), Lit(op), I(True));
    TrueText(bl);
  }

  /** A digit composed by a shift of two digits. */
  lemma DigitShiftText(bl: Blacklist, d: DigitValue, a: DigitValue, b: DigitValue)
    requires DigitProduction(bl, d) == [D(a), Lit("<<"), D(b)]
    ensures Text(bl, Digit(d)) == Text(bl, Digit(a)) + "<<" + Text(bl, Digit(b))
  {
    DigitText3(bl, d, D(a), Lit("<<"), D(b));
  }

  /**
   * Four with numbers blacklisted: a shift when angle brackets are permitted,
   * otherwise three plus true; there is no multiplication rung.
   */
  lemma FourRungs(bl: Blacklist)
    requires bl.number
    ensures Text(bl, Digit(4)) ==
      if !bl.angleBrackets then Text(bl, Digit(2)) + "<<" + "!![]"
      else Text(bl, Digit(3)) + "+" + "!![]"
  {
    if !bl.angleBrackets {
      DigitPlusTrueText(bl, 4, 2, "<<");
    } else {
      DigitPlusTrueText(bl, 4, 3, "+");
    }
  }

  /** Two parenthesised operands around an operator, the operator glued to the parentheses. */
  lemma ParenOperator(x: string, op: string, y: string, glued: string)
    requires glued == ")" + op + "("
    ensures "(" + x + ")" + op + "(" + y + ")" == "(" + x + glued + y + ")"
  {
  }

  lemma SixProduct(bl: Blacklist)
    requires bl.number && bl.angleBrackets && !bl.asterisk
    ensures Text(bl, Digit(6)) == "(" + Text(bl, Digit(3)) + ")*(" + Text(bl, Digit(2)) + ")"
  {
    DigitOperatorText(bl, 6, 3, "*", 2);
    ParenOperator(Text(bl, Digit(3)), "*", Text(bl, Digit(2)), ")*(");
  }

  /** Six: a shift, else a parenthesised product, else five plus true. */
  lemma SixRungs(bl: Blacklist)
    requires bl.number
    ensures Text(bl, Digit(6)) ==
      if !bl.angleBrackets then Text(bl, Digit(3)) + "<<" + "!![]"
      else if !bl.asterisk then "(" + Text(bl, Digit(3)) + ")*(" + Text(bl, Digit(2)) + ")"
      else Text(bl, Digit(5)) + "+" + "!![]"
  {
    if !bl.angleBrackets {
      DigitPlusTrueText(bl, 6, 3, "<<");
    } else if !bl.asterisk {
      SixProduct(bl);
    } else {
      DigitPlusTrueText(bl, 6, 5, "+");
    }
  }

  lemma EightShift(bl: Blacklist)
    requires bl.number && !bl.angleBrackets
    ensures Text(bl, Digit(8)) == Text(bl, Digit(2)) + "<<" + Text(bl, Digit(2))
  {
    DigitShiftText(bl, 8, 2, 2);
  }

  lemma EightPower(bl: Blacklist)
    requires bl.number && bl.angleBrackets && !bl.asterisk
    ensures Text(bl, Digit(8)) == "(" + Text(bl, Digit(2)) + ")**(" + Text(bl, Digit(3)) + ")"
  {
    DigitOperatorText(bl, 8, 2, "**", 3);
    ParenOperator(Text(bl, Digit(2)), "**", Text(bl, Digit(3)), ")**(");
  }

  lemma EightSum(bl: Blacklist)
    requires bl.number && bl.angleBrackets && bl.asterisk
    ensures Text(bl, Digit(8)) == Text(bl, Digit(7)) + "+" + "!![]"
  {
    DigitPlusTrueText(bl, 8, 7, "+");
  }

  /** Eight: a shift, else a parenthesised power, else seven plus true. */
  lemma EightRungs(bl: Blacklist)
    requires bl.number
    ensures Text(bl, Digit(8)) ==
      if !bl.angleBrackets then Text(bl, Digit(2)) + "<<" + Text(bl, Digit(2))
      else if !bl.asterisk then "(" + Text(bl, Digit(2)) + ")**(" + Text(bl, Digit(3)) + ")"
      else Text(bl, Digit(7)) + "+" + "!![]"
  {
    if !bl.angleBrackets {
      EightShift(bl);
    } else if !bl.asterisk {
      EightPower(bl);
    } else {
      EightSum(bl);
    }
  }

  lemma FalseText(bl: Blacklist)
    ensures Text(bl, Internal(False)) == "![]"
  {
    assert Resolve(bl, [Lit("![]")], 0) == Resolve(bl, [], 0) + "![]";
  }

  /** With lower case permitted and some quote mark available, 'a' is the quoted letter. */
  lemma LetterAQuoted(bl: Blacklist)
    requires !bl.lowerCase && !IsNoWrapString(bl)
    ensures Text(bl, Char('a')) == Quote(bl, "a")
    ensures !bl.singleQuotes ==> Text(bl, Char('a')) == "'a'"
  {
    var q := Quote(bl, "a");
    var parts := [Lit(q)];
    assert LowerProduction(bl, 'a') == parts;
    assert Production(bl, Char('a')) == parts;
    assert Text(bl, Char('a')) == Resolve(bl, parts, 2);
    assert parts[..0] == [];
    assert Resolve(bl, parts, 2) == q;
    if !bl.singleQuotes {
      SingleQuoteFirst(bl, "a");
    }
  }

  lemma ResolveSnoc(bl: Blacklist, parts: seq<Part>, p: Part, b: nat)
    requires PartsBelow(parts, b) && PartBelow(p, b)
    ensures PartsBelow(parts + [p], b)
    ensures Resolve(bl, parts + [p], b) == Resolve(bl, parts, b) + PartText(bl, p, b)
  {
    assert (parts + [p])[..|parts|] == parts;
  }

  /** The text of an entry is its resolved template. */
  lemma TextIsResolved(bl: Blacklist, k: Key)
    ensures PartsBelow(Production(bl, k), Rank(k))
    ensures Text(bl, k) == Resolve(bl, Production(bl, k), Rank(k))
  {
    ProductionRanked(bl, k);
  }

  lemma Resolve5(bl: Blacklist, p0: Part, p1: Part, p2: Part, p3: Part, p4: Part, b: nat)
    requires PartBelow(p0, b) && PartBelow(p1, b) && PartBelow(p2, b) && PartBelow(p3, b) && PartBelow(p4, b)
    ensures PartsBelow([p0, p1, p2, p3, p4], b)
    ensures Resolve(bl, [p0, p1, p2, p3, p4], b) ==
      PartText(bl, p0, b) + PartText(bl, p1, b) + PartText(bl, p2, b) + PartText(bl, p3, b) + PartText(bl, p4, b)
  {
    Resolve3(bl, p0, p1, p2, b);
    ResolveSnoc(bl, [p0, p1, p2], p3, b);
    ResolveSnoc(bl, [p0, p1, p2] + [p3], p4, b);
    assert [p0, p1, p2] + [p3] + [p4] == [p0, p1, p2, p3, p4];
  }

  lemma FalsePart(bl: Blacklist, b: nat)
    requires b > 0
    ensures PartBelow(I(False), b) && PartText(bl, I(False), b) == "![]"
  {
    FalseText(bl);
  }

  lemma OnePart(bl: Blacklist, b: nat)
    requires !bl.number && b > 1
    ensures PartBelow(D(1), b) && PartText(bl, D(1), b) == "1"
  {
    DigitPermitted(bl, 1);
  }

  lemma IndexedAResolved(bl: Blacklist, parts: seq<Part>)
    requires !bl.number && parts == [Lit("("), I(False), Lit("+[])["), D(1), Lit("]")]
    ensures PartsBelow(parts, 2) && Resolve(bl, parts, 2) == "(![]+[])[1]"
  {
    FalsePart(bl, 2);
    OnePart(bl, 2);
    Resolve5(bl, parts[0], parts[1], parts[2], parts[3], parts[4], 2);
    assert Resolve(bl, parts, 2) == "(" + "![]" + "+[])[" + "1" + "]";
    IndexedALiteral();
  }

  lemma IndexedALiteral()
    ensures "(" + "![]" + "+[])[" + "1" + "]" == "(![]+[])[1]"
  {
  }

  /** With lower case blacklisted and numbers permitted, 'a' is the second character of the text of false. */
  lemma LetterAIndexed(bl: Blacklist)
    requires bl.lowerCase && !bl.number
    ensures Text(bl, Char('a')) == "(![]+[])[1]"
  {
    TextIsResolved(bl, Char('a'));
    IndexedAResolved(bl, Production(bl, Char('a')));
  }

  /** Under the blacklist the engine starts with, 'a' is indexed out of the text of false. */
  lemma InitialLetterA()
    ensures Text(Initial(), Char('a')) == "(![]+[])[1]"
  {
    LetterAIndexed(Initial());
  }
}
