# JavaScript obfuscator core, modelled in Dafny

`scripts/js-obfuscator.js` turns a JavaScript program into an equivalent
program written with a small set of symbols. It works in two stages.

First it encodes the program. Every character is rewritten as a JavaScript
expression whose value is that character. These expressions are built from
three tables of guarded productions:

- INTERNAL: texts such as `false`, `undefined` or `[object Object]`;
- DIGIT: the numbers 0 to 9;
- CHARACTER: letters, digits and symbols.

Each entry tries its fallbacks in order, and the first one that the
*blacklist* (the forbidden symbol classes) permits wins. The builders
`makeInternal`, `makeDigit` and `makeCharacter` memoise each entry's text.
`makeString` joins character texts with `+`. `makeEval` wraps a source text
in `[][flat][constructor](...)()`. The whole program is passed through
`makeEval`.

Second, when aliases are enabled, it compacts the output. Short variable
names are enumerated over an alphabet. `makeShorter` hoists a repeated text
into an assignment `name=text;` whenever that shortens the program. A fixed
first phase tries the texts of "toString", "constructor" and "flat". Then a
best-of-N search tries the cached character texts in random orders, always
starting again from the same snapshot.

The modules follow that structure:

| file | module | what it holds |
|---|---|---|
| `config.dfy` | `Blacklist` | the blacklist record, `wrapString`, `isNoWrapString` |
| `productions.dfy` | `Productions` | the three tables as templates of parts; ranks that make every production refer only to lower-ranked entries |
| `expressions.dfy` | `Expressions` | the text of every entry, of `makeString` and of `makeEval`, as functions |
| `entries.dfy` | `Entries` | what particular entries evaluate to under particular blacklists |
| `builder.dfy` | `Builder` | the memoising builders, as a class over the three caches |
| `escape.dfy` | `Escape` | `charCodeAt`, `toString(16)` and the `%XX` / `\uXXXX` escapes |
| `strings.dfy` | `Strings` | `join`, `split` and `replaceAll` |
| `names.dfy` | `Names` | `createVariableNames` and `[...new Set(...)]` |
| `compaction.dfy` | `Compaction` | `makeShorter`, the first phase, the shuffle and the best-of-N search |
| `obfuscator.dfy` | `Obfuscator` | the encoder loop, the search candidates and `obfuscate` itself |

A template is a sequence of parts:

- `Lit` is literal text;
- `Ref` is another entry's text, parenthesised if asked to wrap and that
  entry is not atomic;
- `Str` is `makeString(s)`;
- `EvalStr` is `makeEval(makeString(s))`.

`Text(bl, k)` resolves the template of `k`. The builder methods are proved to
return exactly that text, while keeping every cache entry equal to it.

The tables and the encoder use the corrected escapes described under
"## Findings": the `*` entry's `unescape` fallback spells `%2a`, and the
encoder zero-pads the hex code (`%` and two digits below 0x100, `\u` and four
digits otherwise). The escapes as written are modelled beside them
(`FallbackEscapeAsWritten`, `EscapeAsWritten`, `EncodeCharAsWritten`), with
lemmas saying where the two agree and an input where they do not.

## Model

| member | source | states |
|---|---|---|
| Blacklist.Initial | scripts/js-obfuscator.js:13-34 | the blacklist the engine starts with: both letter cases forbidden, every other class permitted (used by `Entries.InitialLetterA`) |
| Blacklist.IsNoWrapString | scripts/js-obfuscator.js:946-948 | true exactly when all three quote marks are forbidden (see `Blacklist.WrapString`) |
| Blacklist.Quote | scripts/js-obfuscator.js:1047-1053 | the `wrapString` calls the source guards by `!isNoWrapString()`: the quoted text is exactly what `wrapString` yields |
| Blacklist.WrapString | scripts/js-obfuscator.js:938-944 | None exactly when all three quote marks are forbidden. Otherwise the value sits between two equal, permitted marks, and the single quote is preferred, then the double quote |
| Blacklist.UnquoteWrapString | scripts/js-obfuscator.js:938-941 | removing the outer marks of a quoted text gives back the text |
| Blacklist.SingleQuoteFirst | scripts/js-obfuscator.js:939 | with single quotes permitted, the value is wrapped in single quotes |
| Productions.InternalProduction | scripts/js-obfuscator.js:47-163 | the `result()` templates of INTERNAL, with the blacklist guards of the source (ranked by `InternalRanked`) |
| Productions.DigitProduction | scripts/js-obfuscator.js:165-275 | the `result()` templates of DIGIT, rung by rung (ranked by `DigitRanked`; values in the `Entries` rows) |
| Productions.LowerProduction | scripts/js-obfuscator.js:278-528 | the `result()` templates of the lower-case letters (ranked by `LowerRanked`) |
| Productions.UpperProduction | scripts/js-obfuscator.js:530-614 | the `result()` templates of the upper-case letters (ranked by `UpperRanked`) |
| Productions.SymbolProduction | scripts/js-obfuscator.js:616-935 | the `result()` templates of the digit characters and symbols, with the corrected `*` fallback (ranked by `SymbolRanked`) |
| Productions.CharProduction | scripts/js-obfuscator.js:277-936 | the CHARACTER table: each key's template by its class |
| Productions.IsWrap | scripts/js-obfuscator.js:49-936 | each entry's `isWrap()`: whether its text may be used without parentheses |
| Productions.ProductionRanked | scripts/js-obfuscator.js:47-936 | every entry of the three tables refers only to entries of strictly lower rank. So the mutually recursive builders terminate, and no entry depends on itself |
| Productions.InternalRanked | scripts/js-obfuscator.js:47-163 | every INTERNAL production refers only to lower-ranked entries |
| Productions.DigitRanked | scripts/js-obfuscator.js:165-275 | every DIGIT production refers only to lower-ranked digits and INTERNAL entries |
| Productions.LowerRanked | scripts/js-obfuscator.js:278-528 | every lower-case letter's production refers only to lower-ranked entries |
| Productions.UpperRanked | scripts/js-obfuscator.js:530-614 | the same for the upper-case letters |
| Productions.SymbolRanked | scripts/js-obfuscator.js:616-935 | the same for the digit characters and the symbols |
| Productions.Production | scripts/js-obfuscator.js:47-936 | `X[v].result()`: the template of an entry, dispatched to its table (ranked by `Productions.ProductionRanked`) |
| Productions.FallbackEscapeAsWritten | scripts/js-obfuscator.js:602-848 | the `unescape` fallback escapes as the source writes them, one per character (see `Productions.FallbackAsteriskAsWritten`) |
| Productions.FallbackAsteriskAsWritten | scripts/js-obfuscator.js:762 | the asterisk's fallback as written unescapes `%38`, which decodes to the code of '8', not of '*' |
| Productions.FallbackEscapeFixed | scripts/js-obfuscator.js:602-848 | each corrected `unescape` fallback is the zero-padded escape of its own character's code |
| Productions.FallbackEscapeDecodes | scripts/js-obfuscator.js:602-848 | each corrected `unescape` fallback decodes to its own character |
| Expressions.Term | scripts/js-obfuscator.js:950-987 | what `makeInternal`, `makeDigit` and `makeCharacter` return: the entry's text, in parentheses when asked to wrap an entry whose `isWrap()` is false (contract in the builder rows) |
| Expressions.Text | scripts/js-obfuscator.js:47-936 | what an entry's `result()` returns: its template resolved part by part, which terminates because every template refers only to lower-ranked entries (`Productions.ProductionRanked`) |
| Expressions.StringText | scripts/js-obfuscator.js:989-1002 | `makeString(s)` without wrapping: the `+`-join of the wrapped character terms (see `Expressions.StringTermsAt`) |
| Expressions.EvalText | scripts/js-obfuscator.js:1004-1006 | `makeEval(v)`: `v` called through the texts of "flat" and "constructor" (see `Builder.Engine.MakeEval`) |
| Expressions.StringTermsAt | scripts/js-obfuscator.js:992-994 | the i-th term of `makeString(s)` is `makeCharacter(s[i], true)` |
| Expressions.StringTermsSnoc | scripts/js-obfuscator.js:992-994 | one more character appends exactly one more term |
| Entries.TrueText | scripts/js-obfuscator.js:56-63 | `true` is `!![]` |
| Entries.FalseText | scripts/js-obfuscator.js:48-55 | `false` is `![]` |
| Entries.DigitPermitted | scripts/js-obfuscator.js:165-275 | with numbers permitted, each digit is its decimal literal and is never parenthesised |
| Entries.DigitBlacklisted | scripts/js-obfuscator.js:165-275 | with numbers blacklisted, no digit's text contains a decimal digit, and a wrapped digit is parenthesised |
| Entries.FourRungs | scripts/js-obfuscator.js:206-216 | with numbers blacklisted, 4 is `2<<true` unless angle brackets are forbidden, and then `3+true` |
| Entries.SixRungs | scripts/js-obfuscator.js:228-239 | 6 is `3<<true`, else `(3)*(2)`, else `5+true`, by the same guards as the source |
| Entries.EightRungs | scripts/js-obfuscator.js:251-262 | 8 is `2<<2`, else `(2)**(3)`, else `7+true`, by the same guards as the source |
| Entries.LetterAQuoted | scripts/js-obfuscator.js:278-284 | with lower case permitted and a quote mark available, 'a' is the quoted letter, `'a'` when single quotes are permitted |
| Entries.LetterAIndexed | scripts/js-obfuscator.js:278-284 | with lower case forbidden and numbers permitted, 'a' is `(![]+[])[1]` |
| Entries.InitialLetterA | scripts/js-obfuscator.js:13-34 | under the initial blacklist, 'a' is `(![]+[])[1]` |
| Builder.Engine.constructor | scripts/js-obfuscator.js:36-39 | the three caches start empty |
| Builder.Engine.ResetResults | scripts/js-obfuscator.js:41-45 | `resetResults` empties the three caches and keeps the cache invariant |
| Builder.Engine.MakeInternal | scripts/js-obfuscator.js:950-961 | returns the entry's text, parenthesised exactly when asked to wrap a non-atomic entry. The entry is cached afterwards, a cache hit changes nothing, and every cached text stays equal to its entry's text |
| Builder.Engine.MakeDigit | scripts/js-obfuscator.js:963-974 | the same for DIGIT |
| Builder.Engine.MakeCharacter | scripts/js-obfuscator.js:976-987 | the same for CHARACTER. The insertion order of the character cache lists each cached key exactly once |
| Builder.Engine.Produce | scripts/js-obfuscator.js:47-936 | running an entry's `result()` yields the text of its template and only adds to the caches |
| Builder.Engine.MakeString | scripts/js-obfuscator.js:989-1002 | `makeString(s, wrap)` is the `+`-join of the wrapped character terms, parenthesised when `wrap` is set |
| Builder.Engine.MakeEval | scripts/js-obfuscator.js:1004-1006 | `makeEval(v)` is `v` called through the texts of "flat" and "constructor" |
| Escape.Hex | scripts/js-obfuscator.js:1048 | `toString(16)`: at least one digit, all of them hex digits |
| Escape.ParseEscape | scripts/js-obfuscator.js:1049 | `unescape` of an escape written with `Hex`'s lower-case digits: `%` and two digits, or `\u` and four, decode to their value; `%` followed by one or three digits does not decode to one character |
| Escape.HexRoundTrip | scripts/js-obfuscator.js:1048 | `toString(16)` is undone by reading the digits back |
| Escape.HexLength | scripts/js-obfuscator.js:1048-1049 | the hex text has at most k digits exactly when the code is below 16^k |
| Escape.CharCode | scripts/js-obfuscator.js:1048 | `charCodeAt()` is a 16-bit code unit. It is the character itself in the basic plane |
| Escape.EscapeAsWritten | scripts/js-obfuscator.js:1048-1049 | the escape as the source writes it: `\u` before exactly four hex digits, `%` before any other count. It uses only `%`, backslash, `u` and hex digits |
| Escape.EscapeFixed | scripts/js-obfuscator.js:1048-1049 | the corrected escape: at least three characters, starting with `%` or a backslash, made only of `%`, backslash, `u` and hex digits (it decodes back: `Escape.EscapeFixedRoundTrip`) |
| Escape.EscapeAsWrittenUnpadded | scripts/js-obfuscator.js:1048-1049 | as written, code 9 becomes `%9` and code 0x100 becomes `%100`. Neither decodes to one character |
| Escape.EscapeAsWrittenAgrees | scripts/js-obfuscator.js:1048-1049 | for codes of exactly two or four hex digits, the escape as written is the padded one |
| Escape.EscapeFixedRoundTrip | scripts/js-obfuscator.js:1048-1049 | every basic-plane code, zero-padded into its escape form, decodes back to itself |
| Strings.Join | scripts/js-obfuscator.js:997-1000 | `join(sep)`: empty for no parts, the part itself for one (lengths in `Strings.JoinLength`, appending in `Strings.JoinSnoc`) |
| Strings.Contains | scripts/js-obfuscator.js:1104-1106 | `indexOf(t) !== -1`: `t` occurs somewhere in `s` (see `Strings.ContainsChar`) |
| Strings.Split | scripts/js-obfuscator.js:1133-1135 | `s.split(t)`: a non-empty separator yields at least one piece (see `Strings.SplitJoin` and `Strings.SplitCuts`) |
| Strings.ReplaceAll | scripts/js-obfuscator.js:1133-1135 | `replaceAll`: `split` then `join` with the new text (lengths in `Strings.ReplaceAllLength`) |
| Strings.SplitJoin | scripts/js-obfuscator.js:1133-1135 | joining the pieces of `split(t)` with `t` restores the string |
| Strings.SplitCuts | scripts/js-obfuscator.js:1133-1135 | `split` cuts exactly when the separator occurs, and otherwise returns the whole string |
| Strings.ContainsChar | scripts/js-obfuscator.js:1104-1106 | `indexOf` of a one-character text finds it exactly when the character occurs |
| Strings.JoinLength | scripts/js-obfuscator.js:1134 | the joined length is the sum of the parts plus one separator between each pair |
| Strings.JoinSnoc | scripts/js-obfuscator.js:997-1000 | joining one more part appends a separator and that part |
| Strings.SplitLength | scripts/js-obfuscator.js:1134 | the pieces of `split` plus the cut separators account for the whole length |
| Strings.ReplaceAllLength | scripts/js-obfuscator.js:1133-1135 | each replaced occurrence changes the length by the difference of the two texts |
| Strings.ReplaceAllAbsent | scripts/js-obfuscator.js:1133-1135 | a text that does not occur is not replaced |
| Strings.ReplaceAllSelf | scripts/js-obfuscator.js:1133-1135 | replacing a text by itself changes nothing |
| Names.VariableNames | scripts/js-obfuscator.js:1008-1035 | the value `createVariableNames` returns: the first `count` words, shortest first (see `Names.VariableNamesShape`) |
| Names.Take | scripts/js-obfuscator.js:1013-1014 | stopping at `count` names keeps the first `count`, or all when there are fewer |
| Names.TakeAppend | scripts/js-obfuscator.js:1013-1014 | cutting at `count` early and cutting at the end agree |
| Names.CreatePermutation | scripts/js-obfuscator.js:1012-1025 | the recursion appends the extensions of the prefix to the goal length, in candidate order, and stops at `count` names |
| Names.CreateVariableNames | scripts/js-obfuscator.js:1008-1035 | the result is the first `count` words over the candidates, shortest first, in enumeration order |
| Names.VariableNamesShape | scripts/js-obfuscator.js:1008-1035 | with at least one candidate there are exactly `count` names. Each is non-empty and over the candidates, and lengths never decrease |
| Names.VariableNamesEmpty | scripts/js-obfuscator.js:1027 | with no candidates there are no names |
| Names.VariableNamesDistinct | scripts/js-obfuscator.js:1069-1070 | deduplicated candidates give pairwise distinct names |
| Names.UptoPrefix | scripts/js-obfuscator.js:1028-1031 | enumerating longer words only appends |
| Names.UptoEnough | scripts/js-obfuscator.js:1028-1031 | once `count` words exist, further lengths do not change the first `count` |
| Names.Dedupe | scripts/js-obfuscator.js:1069 | `[...new Set(s)]` has no repeats and the same members as `s` |
| Names.FirstIndex | scripts/js-obfuscator.js:1069 | the first position of a member: it holds the member and no earlier position does |
| Names.DedupeFirstOccurrenceOrder | scripts/js-obfuscator.js:1069 | the deduplicated elements come in the order of their first occurrences in `s` |
| Compaction.Assignment | scripts/js-obfuscator.js:1077 | `variableCode`: the name, `=`, the target and `;` |
| Compaction.Shorter | scripts/js-obfuscator.js:1072-1085 | `makeShorter` as a function of the three variables (contract in `Compaction.ShorterEffect`) |
| Compaction.ShorterEffect | scripts/js-obfuscator.js:1072-1085 | `makeShorter` commits exactly when a name is left and the replaced result plus the assignment is shorter than the old result; otherwise it changes nothing. A commit appends `name=target;` to the preset, replaces the target by the name, uses up the name, and shortens both the program and the result |
| Compaction.ShorterWithoutNames | scripts/js-obfuscator.js:1073-1075 | with no names left nothing happens |
| Compaction.ShorterAbsent | scripts/js-obfuscator.js:1077-1084 | a target absent from the result is never hoisted |
| Compaction.ShorterCommitsOnOccurrence | scripts/js-obfuscator.js:1077-1084 | a hoisting that changes the state implies the target occurs in the result |
| Compaction.Compactor.MakeShorter | scripts/js-obfuscator.js:1072-1085 | the in-place update computes the state `Shorter` describes |
| Compaction.Compactor.RunTrial | scripts/js-obfuscator.js:1116-1118 | `shuffle.forEach(makeShorter)` computes `Trial` |
| Compaction.Compactor.Restore | scripts/js-obfuscator.js:1125-1127 | after a trial the three variables are the snapshot again |
| Compaction.Phase1 | scripts/js-obfuscator.js:1087-1089 | `makeShorter` on the texts of "toString", "constructor" and "flat", in that order |
| Compaction.Phase1Shrinks | scripts/js-obfuscator.js:1087-1089 | the first phase is the trial of those three texts, so it never lengthens the program or the result and only uses up names from the front |
| Compaction.Trial | scripts/js-obfuscator.js:1116-1118 | `makeShorter` applied to the candidates in order (see `Compaction.TrialShrinks`) |
| Compaction.Shuffle | scripts/js-obfuscator.js:1111-1114 | the order the splice loop draws: as long as the candidate list (a permutation by `Compaction.ShufflePermutes`) |
| Compaction.Best | scripts/js-obfuscator.js:1120-1123 | the index of the kept trial, -1 for the snapshot (see `Compaction.BestIsEarliestShortest`) |
| Compaction.SearchOutput | scripts/js-obfuscator.js:1091-1130 | `presetCode + resultCode` of the kept state (see `Compaction.SearchOutputNotLonger`) |
| Compaction.TrialShrinks | scripts/js-obfuscator.js:1116-1118 | a trial never lengthens the program or the result, and only uses up names from the front |
| Compaction.ShufflePermutes | scripts/js-obfuscator.js:1111-1114 | the splice loop's order is a permutation of the candidates |
| Compaction.ShuffleCandidates | scripts/js-obfuscator.js:1111-1114 | the splice loop draws each candidate once, in the order of the draws, as a permutation |
| Compaction.SearchStep | scripts/js-obfuscator.js:1099-1128 | one iteration keeps a trial only when its result is strictly shorter, and restores the snapshot |
| Compaction.Search | scripts/js-obfuscator.js:1091-1130 | the search returns the kept state's preset and result after `max(0, iterationCount)` trials, and leaves the variables at the snapshot |
| Compaction.BestIsEarliestShortest | scripts/js-obfuscator.js:1120-1123 | the kept state has the shortest result among the snapshot and all trials, and it is the earliest such one |
| Compaction.SearchNotLonger | scripts/js-obfuscator.js:1120-1123 | the kept result is no longer than the snapshot's or any trial's |
| Compaction.SearchOutputNotLonger | scripts/js-obfuscator.js:1091-1130 | the search's output is no longer than the program it started from |
| Compaction.SearchWithoutTrials | scripts/js-obfuscator.js:1095-1099 | with no trials, the output is the snapshot |
| Obfuscator.NeedsUnescape | scripts/js-obfuscator.js:1047 | the branch condition: an upper-case letter under a blacklisted upper case, or any character when no quote mark is permitted |
| Obfuscator.EncodeChar | scripts/js-obfuscator.js:1041-1054 | the expression for one character, with the corrected zero-padded escape (cases in `Obfuscator.EncodeCharCases`) |
| Obfuscator.EncodeCharAsWritten | scripts/js-obfuscator.js:1041-1054 | the same with the unpadded escape as written |
| Obfuscator.EncodeCharAsWrittenAgrees | scripts/js-obfuscator.js:1041-1054 | the two encodings agree except on `unescape` programs for codes below 16 and from 256 to 4095 |
| Obfuscator.EncodeTabAsWritten | scripts/js-obfuscator.js:1048-1049 | as written, a tab under a blacklist without quote marks goes through `unescape("%9")`, which does not decode |
| Obfuscator.EncodeCharCases | scripts/js-obfuscator.js:1040-1054 | a character with an entry becomes its wrapped term. Otherwise an upper-case letter under a blacklisted upper case, or any character when no quote mark is left, becomes an `unescape` of its zero-padded escaped code, which decodes back to the code. Any other character is quoted |
| Obfuscator.EncodeCharsAt | scripts/js-obfuscator.js:1040-1057 | the i-th encoded piece encodes the i-th character |
| Obfuscator.UnescapeSourceCatalog | scripts/js-obfuscator.js:1049 | the `unescape` source around any escape, padded or not, uses only characters that have entries |
| Obfuscator.Encoded | scripts/js-obfuscator.js:1060 | `resultCode` before compaction: `makeEval` of the `+`-join of the (corrected) encoded characters |
| Obfuscator.EncodeCharacter | scripts/js-obfuscator.js:1041-1054 | one iteration of the encoder loop computes the character's (corrected) encoding, caches a character that has an entry, and keeps the caches valid |
| Obfuscator.CatalogChars | scripts/js-obfuscator.js:1040-1044 | the characters of the input that have an entry: exactly those of its characters that are keys of CHARACTER |
| Obfuscator.EncodeCharacters | scripts/js-obfuscator.js:1040-1055 | the loop encodes every character and leaves every character of the input that has an entry cached |
| Obfuscator.Encode | scripts/js-obfuscator.js:1038-1060 | the encoder returns `makeEval` of the `+`-join of the (corrected) encoded characters, and every character of the input that has an entry is cached |
| Obfuscator.OtherKeysMembers | scripts/js-obfuscator.js:1103 | the non-digit keys of the character cache, in insertion order, are exactly its non-digit keys |
| Obfuscator.DigitKeysMembers | scripts/js-obfuscator.js:1103 | the digit keys come in ascending order and are exactly the cached digits |
| Obfuscator.ForInOrder | scripts/js-obfuscator.js:1103 | the `for...in` order of the character cache: integer-like keys ascending, then the others in insertion order |
| Obfuscator.Candidates | scripts/js-obfuscator.js:1100-1109 | the candidate list: the cached texts, in `for...in` order, that hold no quote mark |
| Obfuscator.CandidatesMembers | scripts/js-obfuscator.js:1100-1109 | the candidates are exactly the cached character texts without a quote mark |
| Obfuscator.CandidatesCover | scripts/js-obfuscator.js:1100-1109 | every quote-free text of a cached character is a candidate |
| Obfuscator.ForInOrderMembers | scripts/js-obfuscator.js:1103 | `for...in` visits exactly the cached keys |
| Obfuscator.QuoteFreeChars | scripts/js-obfuscator.js:1104-1106 | the three `indexOf` tests pass exactly when the text has no quote mark |
| Obfuscator.CandidateTexts | scripts/js-obfuscator.js:1103-1109 | every search candidate is a quote-free cached character text |
| Obfuscator.CandidateTextsComplete | scripts/js-obfuscator.js:1103-1109 | every quote-free cached character text is a search candidate |
| Obfuscator.CollectCandidates | scripts/js-obfuscator.js:1100-1109 | the loop collects the candidates in `for...in` order |
| Obfuscator.AliasAlphabet | scripts/js-obfuscator.js:1066-1067 | the caller's candidates followed by `$` and `_` where permitted, before deduplication |
| Obfuscator.AliasNames | scripts/js-obfuscator.js:1066-1070 | the alias names come from the user's candidates, plus `$` and `_` where permitted, deduplicated, 50 names |
| Obfuscator.RunPhase1 | scripts/js-obfuscator.js:1087-1089 | the first phase applies `makeShorter` to the texts of "toString", "constructor" and "flat", in that order |
| Obfuscator.Compact | scripts/js-obfuscator.js:1066-1130 | the alias branch: the output is the search's output over the cached candidates, started from the state after the first phase |
| Obfuscator.Obfuscate | scripts/js-obfuscator.js:1037-1131 | without aliases the output is the (corrected) encoded program. With aliases it is the search's output over the cached candidates, started from the state after the first phase. The caches only grow, and the quote-free text of every input character that has an entry is among the candidates |

## Left out

- Character encoding: the source iterates code points with `for...of`, and `charCodeAt()`
  gives the first UTF-16 code unit. The model's characters are Unicode scalar values,
  and `CharCode` returns the high surrogate for characters outside the basic plane,
  as `charCodeAt()` does. Surrogate pairs themselves are not modelled.
- JavaScript evaluation: the model states the texts the engine produces, not what
  they evaluate to when run. That `(![]+[])[1]` evaluates to `"a"` is a fact about a
  JavaScript engine, which is not modelled.
- `Math.random` is a parameter `rand(i, step)`. It is the draw made at the step-th
  splice of the i-th trial, reduced modulo the number of candidates left. This stands
  in for `Math.floor(Math.random() * n)`.
- `console.error` in `wrapString` is modelled as the `None` result. Every caller in
  the core guards the call with `!isNoWrapString()`, so `Quote` requires that.
- The page script that toggles the blacklist and calls `obfuscate` is not part of
  this model. It always calls `resetResults` after changing the blacklist, so the
  blacklist is a constant of each engine.
- The alias candidates are characters. The page passes `split('')` of a text field,
  and `obfuscate` pushes `$` and `_` onto the caller's array. That mutation of the
  argument is not modelled.
- `option.useVariable` is a parameter of `Obfuscate` instead of a global. The
  defaults `variableCandidates = []` and `iterationCount = 50` of line 1037 are
  default parameters of `Obfuscate`.
- The search keeps the whole state as a value. The source keeps `minPresetCode`
  and `minResultCode`, and the output is the same.
- Builder.Engine.MakeCharacter: does not state that the freshly cached key is the
  last in insertion order. The proof of that fact was too costly. The text it
  returns for `*` under a blacklisted asterisk uses the corrected fallback
  `unescape("%2a")`, not the `%38` of line 762 (see "## Findings").
- Productions.SymbolProduction: the `*` entry's fallback is the corrected
  `unescape("%2a")`; line 762 writes `%38`. The as-written fallback is
  `Productions.FallbackAsteriskAsWritten` (see "## Findings").
- Obfuscator.EncodeChar: uses the zero-padded `EscapeFixed` instead of the
  unpadded escape of lines 1048-1049, so it differs from the source for codes
  below 16 and from 256 to 4095 (`EncodeCharAsWritten` is the source's version;
  `EncodeCharAsWrittenAgrees` says where they agree).
- Obfuscator.EncodeCharCases: states the cases of the corrected `EncodeChar`;
  the escape it names is `EscapeFixed`, not the unpadded escape the source writes.
- Obfuscator.EncodeCharacter: computes the corrected `EncodeChar`, so for codes
  below 16 and from 256 to 4095 its output is not the source's `%9`-style escape.
- Obfuscator.Encode: computes `Encoded`, built from the corrected `EncodeChar`
  and the corrected `*` entry. Of the character cache afterwards it states only
  that it is valid, grew, and holds every input character that has an entry;
  which other characters the builder cached on the way is not stated.
- Obfuscator.Obfuscate: its outputs are those of the corrected encoder and
  tables, as for `Obfuscator.Encode`. The candidate list is read from the final
  character cache, which is stated only as for `Obfuscator.Encode`: every
  quote-free text of an input character with an entry is a candidate, but the
  full candidate set, and so the exact search output, depends on cache contents
  the model does not pin down.
- Obfuscator.Compact: the same for the candidate list of the alias branch. Its
  result is also built from the corrected `Encoded` (through `AfterPhase1`), so it
  inherits the escape differences stated for `Obfuscator.EncodeChar`.
- Obfuscator.EncodeCharacters: computes the corrected `EncodeChar` for each
  character, so for codes below 16 and from 256 to 4095 that go through
  `unescape` its pieces are not the source's unpadded `%9`-style escapes.
- Escape.ParseEscape: models only the lower-case `%xx` and `\uXXXX` forms the
  encoder writes; every other input is treated as not decoding to one character.
  `unescape` also decodes upper-case digits (`%4F`), the `%uXXXX` form and passes
  plain characters through, none of which the encoder produces. In the generated
  `return unescape("\uXXXX")` it is the string literal that decodes the `\u`
  form before `unescape` sees it; the result is the same single character.
- Builder.Engine.MakeString: does not state that every character of the string
  is cached afterwards. The proof of that fact was too costly.
- The ranks are chosen by hand from the dependencies of the tables. They are not
  part of the source.

## Findings

| source | as written | input that shows it | evidently intended | confidence | as-written member | corrected member |
|---|---|---|---|---|---|---|
| scripts/js-obfuscator.js:762 | the `*` fallback evaluates `unescape("%38")` | blacklist with `asterisk` true, then encode `*` | `unescape("%2a")`, the code of `*` | high; not executed | Productions.FallbackAsteriskAsWritten | Productions.FallbackEscapeDecodes |
| scripts/js-obfuscator.js:1048-1049 | the hex code is not zero-padded; four digits take `\u`, any other count takes `%` | a tab (code 9) gives `%9`; U+0100 gives `%100` | `%` and two digits below 0x100, `\u` and four digits otherwise | high; not executed | Escape.EscapeAsWrittenUnpadded | Escape.EscapeFixedRoundTrip |
