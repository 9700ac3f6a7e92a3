# Scanner and recursive-descent recogniser for a toy assignment language

The system reads one line of a small language and either prints its tokens
(`lexical.go`) or says whether the line is a well-formed program
(`syntactic.go`). A program has the shape `begin x:=1+2; y:=x*3 end $`.

This project models four things:

- **The scanner.** `scanner` turns the byte at an offset into one unit: a
  length, a code and a text. It uses maximal munch for words and numbers and a
  one-byte lookahead for `:`, `<` and `>`. Codes come from the source's 26-entry
  `codeMap`, whose pseudo-keys `ID`, `NUM`, `SPACE` and `ERR` are ordinary keys.
  The scanner is written twice in the repository, with identical text. It is
  modelled once (`Lexer.Scanner`).
- **The cursor.** `nextUnitButNotSpace` repeats the scanner until it returns
  something other than whitespace (`Lexer.NextSignificant`). The inner loop of
  `scan` does the same, so the same function serves both.
- **`scan` and `Unit.String`.** `Lexer.Scan` is the loop that emits the units
  of a line. `Lexer.UnitString` renders a unit.
- **The recogniser RDP.** It is modelled twice:
  - `Parser.RDP` is a class whose fields the methods update in place, as the Go
    methods do.
  - Pure functions (`AfterFactor` … `AfterParse`) say what each method leaves
    behind, and every method is proved to do exactly that.

On top of these, the project proves three further results:

- **Grammar.** A reference grammar over token codes (`Grammar`) comes with a
  recogniser that returns derivation trees. That recogniser is proved sound and
  complete.
- **Acceptance.** `Acceptance.ParseAccepts` says that parse ends with the
  validity flag set exactly when the codes of the significant units start with
  the yield of a grammar program.
  The proof runs rule by rule. A parser state is *in step* with the code
  stream at position k when its current unit has the k-th code and the cursor
  will go on to return the codes after it.
- **Traces.** `Traces` works through concrete lines: `begin x:=1 end $`,
  the same line without `$`, `x:=1 end $`, `begin x=1 end $`,
  `begin x:=(1+2 end $` and `begin x:=1+2;y:=x*3 end $`.

The scanner, cursor and parser take the code table as a parameter. This keeps
the proofs small. Every statement about the program itself instantiates the
table with `Lexer.CodeMap`, the source's table, and `Parser.ParseLine` is what
`RDP{data: data}.parse()` does. Bytes are the integers 0 to 255. The Go
classifiers call `unicode.IsLetter` and its siblings on `rune(b)`, which for
a byte is the Latin-1 code point. The model writes out exactly those sets:
letters include `ª µ º` and `À`–`ÿ` except `×` and `÷`, and whitespace includes
0x85 and 0xA0.

### Behaviour worth knowing

The model keeps each of these as the code has it:

- **Empty or whitespace-only input.** One might expect parse to fail with
  "no begin" here. It does not: the zero `Unit{}` that the scanner returns at
  the end of the data has code 0, which is also the code of `begin`. So such a
  line passes the `begin` check, fails the statement, and is left with the tag
  "no end" (`Parser.ParseBlank`).
- **Trailing whitespace in `scan`.** An empty line prints nothing, since the
  loop of `scan` (lexical.go:93) never runs. A non-empty whitespace-only line,
  however, prints one zero unit (`Lexer.ScanBlank`), and any line that ends in
  whitespace ends with one (`Lexer.ScanTrailingZero`): the inner loop skips the
  whitespace and then scans past the end.
- **Errors do not stop parsing.** A failing rule only clears the flag and
  writes its tag. The callers carry on, so the tag left is the last one
  written, not the first. For `begin x=1 end $` one might expect "assignment
  error", but the code ends with "no end", because `=` is not `end`
  (`Traces.TraceNoAssign`). For `begin x:=(1+2 end $` "no )" survives, because
  the later `end` and `$` checks pass (`Traces.TraceNoParen`).
- **Two-byte error units.** A `:`, `<` or `>` followed by any operator byte is
  consumed as a two-byte unit, and an unknown pair is one `ERR` unit, e.g. `:+`
  (`Lexer.ScanOtherPairs`).

## Model

| member | source | states |
|---|---|---|
| Lexer.IsLetter | lexical.go:136-138 | `unicode.IsLetter` on a byte read as a Latin-1 code point: ASCII letters, `ª µ º` and `À`–`ÿ` except `×` and `÷` |
| Lexer.IsDigit | lexical.go:140-142 | `unicode.IsDigit` on a byte: exactly `0`–`9` |
| Lexer.IsSpace | lexical.go:144-146 | `unicode.IsSpace` on a byte: tab to carriage return, space, 0x85 and 0xA0 |
| Lexer.IsLetterOrDigit | lexical.go:148-150 | a letter or a digit |
| Lexer.IsSymbol | lexical.go:152-154 | the byte is one of the twelve operator bytes `+-*/:=<>;()$` |
| Lexer.SymbolsAreOperatorBytes | lexical.go:152-154 | a byte is an operator symbol exactly when it occurs in `+-*/:=<>;()$` |
| Lexer.ClassesDisjoint | lexical.go:136-154 | no byte is both a letter and a digit, and the classes letter-or-digit, symbol and whitespace are pairwise disjoint, so the order of the scanner's cases never changes its result |
| Lexer.EndMarkerKey | lexical.go:54-83 | in the code table only the key `$` has the end-marker code -1 |
| Lexer.SingleOperatorsCoded | lexical.go:54-83 | every single operator byte is a key of the table with a code other than `ERR` |
| Lexer.CodeMap | lexical.go:54-83 | the 26 entries of `codeMap`: `$` -1, `begin` 0, `end` 1, `ID` 2, `NUM` 3, `SPACE` 4, `if` `then` `while` `do` 10-13, the operators `+ - * / : := < <> <= > >= = ; ( )` 20-34 in that order, and `ERR` 99 |
| Lexer.CheckID | lexical.go:156-162 | a word's code is its table entry when it has one, else the identifier code 2 |
| Lexer.CheckOperator | lexical.go:164-170 | an operator text's code is its table entry when it has one, else the error code 99 |
| Lexer.CodeMapSpaceKeyOnly | lexical.go:54-83 | in the code table only the key `SPACE` has the whitespace code 4 |
| Lexer.WordRun | lexical.go:172-178 | the length and text of the run of letters and digits starting at an offset, as `getWord` computes them |
| Lexer.DigitRun | lexical.go:180-186 | the length and text of the run of digits starting at an offset, as `getNUM` computes them |
| Lexer.WordRunMaximal | lexical.go:172-178 | the word run covers only letters and digits, the byte after it is neither, and its text is the bytes it covers |
| Lexer.WordRunOf | lexical.go:172-178 | conversely, a stretch of letters and digits that nothing extends is exactly the run found there, with that length and text |
| Lexer.DigitRunMaximal | lexical.go:180-186 | the number run covers only digits, the byte after it is not a digit, and its text is those bytes |
| Lexer.DigitRunOf | lexical.go:180-186 | a stretch of digits that no digit extends is exactly the number run found there |
| Lexer.GetWord | lexical.go:172-178 | the loop returns the length and text of the maximal word run |
| Lexer.GetNum | lexical.go:180-186 | the loop returns the length and text of the maximal number run |
| Lexer.GetOperator | lexical.go:188-227 | the length is positive exactly when the byte is an operator symbol, and never runs past the data |
| Lexer.GetOperatorSpec | lexical.go:188-227 | two bytes are taken exactly when the byte is `:`, `<` or `>` and the next byte exists and is any operator symbol; otherwise one; the text is the bytes taken |
| Lexer.Scanner | lexical.go:104-134 | at or past the end it returns the zero unit; otherwise it consumes between one byte and the rest of the data, and whitespace gives a one-byte `SPACE` unit with empty text |
| Lexer.ScannerText | lexical.go:104-134 | a unit that does not start on whitespace has the bytes it covers as its text, and none of them is whitespace |
| Lexer.ScanPastEnd | lexical.go:105-107 | past the end the unit has length 0, the code of `begin` and empty text |
| Lexer.ScanWord | lexical.go:111-113 | a word is the maximal letter-or-digit run, coded by its table entry or else as `ID` |
| Lexer.ScanNumber | lexical.go:114-116 | a number is the maximal digit run, coded `NUM` whatever the table says of its text |
| Lexer.ScanOperator | lexical.go:117-119 | an operator unit has the length `getOperator` gives, its bytes as text, and its table entry or else `ERR` as code |
| Lexer.ScanSpaceOrOther | lexical.go:120-127 | whitespace gives (1, 4, "") and any other unclassified byte a one-byte `ERR` unit holding that byte |
| Lexer.ScanBegin | lexical.go:104-134 | `begin` scans as one unit with code 0 |
| Lexer.ScanIdent | lexical.go:111-113 | maximal munch: `ab12+` starts with the identifier `ab12` |
| Lexer.ScanNum | lexical.go:104-134 | `12ab` is the number `12` of length 2, then the identifier `ab` of length 2 |
| Lexer.ScanNumKey | lexical.go:156-162 | the word `NUM` is coded as a number, since pseudo-keys are table keys |
| Lexer.ScanSpaceKey | lexical.go:156-162 | the word `SPACE` is coded as whitespace |
| Lexer.ScanPairs | lexical.go:209-224 | `:=`, `<>`, `<=` and `>=` scan as single two-byte units with their codes |
| Lexer.ScanOtherPairs | lexical.go:218-220 | `:+`, `<(` and `>>` are consumed as two-byte `ERR` units |
| Lexer.ScanSingles | lexical.go:188-227 | `<` before a non-symbol is one byte, code 26; `$` is one byte, code -1 |
| Lexer.NextSignificant | syntactic.go:232-239 | the cursor never returns a whitespace unit; it advances whenever data remains; and it returns the zero unit only at the end of the data |
| Lexer.NextSignificantBlank | syntactic.go:232-239 | over whitespace only, the cursor reaches the end and returns the zero unit |
| Lexer.NextSignificantLastByte | syntactic.go:232-239 | a non-empty unit returned by the cursor ends on a byte that is not whitespace |
| Lexer.NextUnit | lexical.go:94-99 | the loop of `scan` that skips whitespace units computes the cursor function |
| Lexer.ScanUnits | lexical.go:91-102 | no emitted unit has the whitespace code, and units are emitted exactly when the line is non-empty |
| Lexer.Scan | lexical.go:91-102 | the loop emits exactly the sequence of significant units |
| Lexer.ScanBlank | lexical.go:91-102 | a non-empty whitespace-only line emits the zero unit and nothing else |
| Lexer.ScanTrailingZero | lexical.go:93-99 | a line ending in whitespace emits the zero unit last |
| Lexer.ScannerSpaceCode | lexical.go:104-134 | with a table that codes only `SPACE` as whitespace, as the source's does, a unit coded as whitespace either starts on a whitespace byte or is the word `SPACE` |
| Lexer.ScannerStrip | lexical.go:104-134 | with a table that codes only `SPACE` as whitespace, a unit other than the word `SPACE` has as text the bytes it covers minus whitespace, and such a unit, when coded as whitespace, has empty text (the word `SPACE` itself is outside this lemma) |
| Lexer.NextSignificantStrip | lexical.go:94-99 | provided the table codes only `SPACE` as whitespace and no unit from the offset on is the word `SPACE`, the text of the unit the cursor returns is the bytes it moved over, with whitespace removed, and the condition still holds where the cursor stops |
| Lexer.ScanUnitsStrip | lexical.go:91-102 | provided the table codes only `SPACE` as whitespace and no unit from the offset on is the word `SPACE`, the texts of the emitted units, concatenated, are the rest of the line with whitespace removed |
| Lexer.ScanValuesStrip | lexical.go:91-102 | for the source's table, the texts of the units of a line, concatenated, give back the line minus its whitespace |
| Lexer.SpaceWordDropped | lexical.go:91-134 | on the line `SPACE` the cursor skips the whole word and returns the zero unit at offset 5, scan emits only the zero unit, and its empty text differs from the line minus whitespace, which is why the strip round trips exclude that word |
| Lexer.WordRunExtend | lexical.go:172-178 | a word run that stops inside the data is unchanged by appending bytes |
| Lexer.DigitRunExtend | lexical.go:180-186 | a number run that stops inside the data is unchanged by appending bytes |
| Lexer.ScannerEndMarker | lexical.go:206-208 | a unit with the end-marker code is the one byte `$` |
| Lexer.ScannerExtend | lexical.go:104-134 | a unit that ends inside the data, or is `$`, is unchanged by appending bytes |
| Lexer.NextSignificantExtend | syntactic.go:232-239 | the cursor's result is unchanged by appending bytes when it stops inside the data or on `$` |
| Lexer.NatTextRoundTrip | lexical.go:33-35 | the decimal text of a natural number reads back as that number |
| Lexer.IntTextRoundTrip | lexical.go:33-35 | `strconv.Itoa`'s text of any integer, sign included, reads back as that integer and has no comma |
| Lexer.IntText | lexical.go:33-35 | `strconv.Itoa`: a minus sign for negative numbers, then the decimal digits of the magnitude, without leading zeros |
| Lexer.UnitString | lexical.go:29-38 | `Unit.String`: `(code, text)`, with the text in single quotes when the code is 2, the identifier code |
| Lexer.UnitStringRoundTrip | lexical.go:29-38 | the rendering `(code, text)`, with the text quoted for identifiers, can be read back to the unit's code and text |
| Parser.AfterNext | syntactic.go:232-239 | after the cursor step the current unit is not whitespace, the offset has not gone back and moves when data remains, the termination measure drops by the old unit's length, and flag and tag are unchanged |
| Parser.AfterFactor | syntactic.go:304-323 | the offset never goes back; the flag can only fall; a changed tag is one of the rule tags and comes with a cleared flag |
| Parser.AfterTermLoop | syntactic.go:298-301 | as for factor, and on leaving with data remaining the current unit is neither `*` nor `/` |
| Parser.AfterTerm | syntactic.go:296-302 | the offset never goes back, the flag only falls, and a new tag is a rule tag |
| Parser.AfterExprLoop | syntactic.go:290-293 | as above, and on leaving with data remaining the current unit is neither `+` nor `-` |
| Parser.AfterExpression | syntactic.go:288-294 | the offset never goes back, the flag only falls, and a new tag is a rule tag |
| Parser.AfterStatement | syntactic.go:272-286 | the offset never goes back, the flag only falls, and a new tag is a rule tag |
| Parser.AfterMultiLoop | syntactic.go:266-269 | the loop leaves on a unit other than `;`, with the same monotonicity |
| Parser.AfterMulti | syntactic.go:264-270 | a statement list ends on a unit other than `;`; the offset never goes back and the flag only falls |
| Parser.AfterParse | syntactic.go:241-262 | a successful parse leaves the tag untouched, and a failed one leaves one of the seven tags |
| Parser.AfterBegin | syntactic.go:249-261 | after `begin`, success needs the flag already set; a failure writes one of the tags |
| Parser.ParseLine | syntactic.go:60-61 | the state a fresh recogniser over the line is left in by parse, using the source's table |
| Parser.ParseNoBegin | syntactic.go:243-248 | if the first significant unit is not coded 0, parse stops there with "no begin" |
| Parser.ParseBlank | syntactic.go:241-262 | an empty or whitespace-only line passes the `begin` check on the zero unit and ends with "no end" at the end of the data |
| Parser.RDP.constructor | syntactic.go:60 | a fresh recogniser over the line, with Go's zero values in every other field |
| Parser.RDP.NextUnitButNotSpace | syntactic.go:232-239 | the loop leaves the fields as the cursor function says |
| Parser.RDP.Parse | syntactic.go:241-262 | the method leaves the fields as the parse function says |
| Parser.RDP.MultiStatements | syntactic.go:264-270 | the loop leaves the fields as the statement-list function says |
| Parser.RDP.Statement | syntactic.go:272-286 | the method leaves the fields as the statement function says |
| Parser.RDP.Expression | syntactic.go:288-294 | the loop leaves the fields as the expression function says |
| Parser.RDP.Term | syntactic.go:296-302 | the loop leaves the fields as the term function says |
| Parser.RDP.Factor | syntactic.go:304-323 | the method leaves the fields as the factor function says |
| Grammar.RecFactor | syntactic.go:304-323 | a recognised factor's yield lies at position k and the result position is just past it |
| Grammar.RecMulTail | syntactic.go:298-301 | a recognised `*`/`/` tail's yield lies at k and is followed by a code other than `*` or `/` |
| Grammar.RecTerm | syntactic.go:296-302 | a recognised term's yield lies at k and is followed by a code other than `*` or `/` |
| Grammar.RecAddTail | syntactic.go:290-293 | a recognised `+`/`-` tail's yield lies at k and is followed by a code other than `+` or `-` |
| Grammar.RecExpr | syntactic.go:288-294 | a recognised expression's yield lies at k and is followed by a code other than `+` or `-` |
| Grammar.RecStmt | syntactic.go:272-286 | a recognised statement's yield lies at k |
| Grammar.RecStmtTail | syntactic.go:266-269 | a recognised `;` tail's yield lies at k and is followed by a code other than `;` |
| Grammar.RecStmts | syntactic.go:264-270 | a recognised statement list's yield lies at k and is followed by a code other than `;` |
| Grammar.RecProgram | syntactic.go:241-262 | a recognised program's yield is a prefix of the codes |
| Grammar.FactorComplete | syntactic.go:304-323 | whenever a factor's yield lies at position k, the recogniser returns that factor and the position just past it |
| Grammar.MulTailComplete | syntactic.go:298-301 | whenever a `*`/`/` tail's yield lies at k and the code after it is neither `*` nor `/`, the recogniser returns that tail and the position just past it |
| Grammar.TermComplete | syntactic.go:296-302 | whenever a term's yield lies at k and the code after it is neither `*` nor `/`, the recogniser returns that term and the position just past it |
| Grammar.AddTailComplete | syntactic.go:290-293 | whenever a `+`/`-` tail's yield lies at k and the code after it is none of `+ - * /`, the recogniser returns that tail and the position just past it |
| Grammar.ExprComplete | syntactic.go:288-294 | whenever an expression's yield lies at k and the code after it is none of `+ - * /`, the recogniser returns that expression and the position just past it |
| Grammar.StmtComplete | syntactic.go:272-286 | whenever a statement's yield lies at k and the code after it is none of `+ - * /`, the recogniser returns that statement and the position just past it |
| Grammar.StmtTailComplete | syntactic.go:266-269 | whenever a `;` tail's yield lies at k and the code after it is none of `+ - * / ;`, the recogniser returns that tail and the position just past it |
| Grammar.StmtsComplete | syntactic.go:264-270 | whenever a statement list's yield lies at k and the code after it is none of `+ - * / ;`, the recogniser returns that list and the position just past it |
| Grammar.ProgramComplete | syntactic.go:241-262 | a program whose yield is a prefix of the codes is recognised as that program |
| Grammar.Recognises | syntactic.go:241-323 | the recogniser succeeds exactly when some program's yield is a prefix of the codes, and then it returns that program |
| Acceptance.ScanCodes | syntactic.go:232-239 | the codes of the units the cursor returns from an offset are non-empty exactly when data remains |
| Acceptance.ScanCodesOfUnits | lexical.go:91-102 | those codes are the codes of the units `scan` emits, one for one |
| Acceptance.FactorAgrees | syntactic.go:304-323 | started valid and in step at position k, the rule on bytes agrees with the code recogniser for factor: where that succeeds, the flag stays set and the parser ends in step just past what was recognised; where it fails, the flag is cleared or the parser stops at the end of the data on an operator |
| Acceptance.ParenAgrees | syntactic.go:310-318 | started valid and in step at position k, the rule on bytes agrees with the code recogniser for a parenthesised factor: where that succeeds, the flag stays set and the parser ends in step just past what was recognised; where it fails, the flag is cleared or the parser stops at the end of the data on an operator |
| Acceptance.CloseAgrees | syntactic.go:313-318 | the closing-parenthesis check of factor turns agreement on the inner expression into agreement on the parenthesised factor |
| Acceptance.MulTailAgrees | syntactic.go:298-301 | started valid and in step at position k, the rule on bytes agrees with the code recogniser for a `*`/`/` tail, for the term loop: where that succeeds, the flag stays set and the parser ends in step just past what was recognised; where it fails, the flag is cleared or the parser stops at the end of the data on an operator |
| Acceptance.TermAgrees | syntactic.go:296-302 | started valid and in step at position k, the rule on bytes agrees with the code recogniser for a term: where that succeeds, the flag stays set and the parser ends in step just past what was recognised; where it fails, the flag is cleared or the parser stops at the end of the data on an operator |
| Acceptance.AddTailAgrees | syntactic.go:290-293 | started valid and in step at position k, the rule on bytes agrees with the code recogniser for a `+`/`-` tail, for the expression loop: where that succeeds, the flag stays set and the parser ends in step just past what was recognised; where it fails, the flag is cleared or the parser stops at the end of the data on an operator |
| Acceptance.ExprAgrees | syntactic.go:288-294 | started valid and in step at position k, the rule on bytes agrees with the code recogniser for an expression: where that succeeds, the flag stays set and the parser ends in step just past what was recognised; where it fails, the flag is cleared or the parser stops at the end of the data on an operator |
| Acceptance.StmtAgrees | syntactic.go:272-286 | started valid and in step at position k, the rule on bytes agrees with the code recogniser for a statement: where that succeeds, the flag stays set and the parser ends in step just past what was recognised; where it fails, the flag is cleared or the parser stops at the end of the data on an operator |
| Acceptance.StmtTailAgrees | syntactic.go:266-269 | started valid and in step at position k, the rule on bytes agrees with the code recogniser for a `;` tail, for the statement loop: where that succeeds, the flag stays set and the parser ends in step just past what was recognised; where it fails, the flag is cleared or the parser stops at the end of the data on an operator |
| Acceptance.SemicolonAgrees | syntactic.go:266-269 | started valid and in step at position k, the rule on bytes agrees with the code recogniser for a `;` tail starting on `;`, for one turn of the statement loop: where that succeeds, the flag stays set and the parser ends in step just past what was recognised; where it fails, the flag is cleared or the parser stops at the end of the data on an operator |
| Acceptance.StmtsAgrees | syntactic.go:264-270 | started valid and in step at position k, the rule on bytes agrees with the code recogniser for a statement list, for multiStatements: where that succeeds, the flag stays set and the parser ends in step just past what was recognised; where it fails, the flag is cleared or the parser stops at the end of the data on an operator |
| Acceptance.BeginAgrees | syntactic.go:249-261 | after `begin`, parse keeps its flag exactly when a statement list is recognised and followed by `end` and `$` |
| Acceptance.ParseAgrees | syntactic.go:241-262 | parse ends valid exactly when the code recogniser accepts the line's code stream |
| Acceptance.ParseAccepts | syntactic.go:241-323 | a line is accepted exactly when the codes of its significant units start with the yield of a program of the grammar |
| Acceptance.ScanCodesExtend | syntactic.go:232-239 | appending bytes keeps the code stream unchanged up to and including any end marker in it |
| Acceptance.TailKeepsPrefix | syntactic.go:256-261 | a prefix of the code stream that ends in `$` stays a prefix when bytes are appended |
| Acceptance.ParseIgnoresTail | syntactic.go:256-261 | an accepted line stays accepted whatever bytes are appended after it |
| Traces.WordAt | lexical.go:111-113 | a word followed by a byte that cannot extend it scans as exactly that word |
| Traces.NumberAt | lexical.go:114-116 | a number followed by a non-digit scans as exactly that number |
| Traces.SingleAt | lexical.go:188-227 | an operator byte that does not pair scans as one byte |
| Traces.PairAt | lexical.go:218-220 | a pair lead before any operator byte scans as two bytes |
| Traces.TraceNoMarker | syntactic.go:256-261 | `begin x:=1 end` ends invalid with "no $" at the end of the line |
| Traces.TraceValid | syntactic.go:241-262 | `begin x:=1 end $` is accepted, stopping on `$` |
| Traces.TraceValidWithTail | syntactic.go:256-261 | `begin x:=1 end $` followed by any bytes is accepted |
| Traces.TraceNoBegin | syntactic.go:243-248 | `x:=1 end $` stops on `x` with "no begin" |
| Traces.TraceNoAssign | syntactic.go:279-283 | `begin x=1 end $` fails the assignment, then the `end` check overwrites the tag: "no end" |
| Traces.TraceNoParen | syntactic.go:313-317 | `begin x:=(1+2 end $` keeps "no )", since `end` and `$` are still found |
| Traces.TraceTwoStatements | syntactic.go:264-270 | `begin x:=1+2;y:=x*3 end $` is accepted |

## Left out

- The `main` functions of both files are left out: they read a line from standard input, trim `\r\n`, and print units or the verdict. `checkError`, `filePath` and the commented-out file reading go with them. `Lexer.Scan` returns the units instead of printing them, and `Lexer.UnitString` models the text each print produces.
- The process-wide `codeMap` variable and its `init` are modelled as the constant `Lexer.CodeMap`. The scanner, cursor and recogniser take the table as a parameter, and statements about the program use `CodeMap`.
- The duplicated scanner and classifiers in `syntactic.go` (lines 107-230) are not modelled separately: their text is identical to `lexical.go` 104-227.
- Go's `int` width: lengths, offsets and codes are unbounded integers. An overflow would need a line of more than 2^63 bytes.
- Unit texts are modelled as sequences of code points, one per byte. Go's `string(data[index])` holds the UTF-8 encoding of that code point, so a Latin-1 letter above 0x7F occupies two bytes of Go text. Lengths and codes are unaffected, since the length counts bytes of input and lookups only hit ASCII keys.
- `Lexer.ScanValuesStrip`: stated only for lines without a word `SPACE`. The scanner codes that word as whitespace (`Lexer.ScanSpaceKey`), so `scan` silently drops it and the texts no longer give back the line.
- `Lexer.NextSignificantStrip`: stated only when no unit from the offset on is the word `SPACE`, for the same reason as `Lexer.ScanValuesStrip`: on the line `SPACE` the cursor skips the whole word and returns the zero unit with empty text (`Lexer.SpaceWordDropped`).
- `Lexer.ScanUnitsStrip`: stated only when no unit from the offset on is the word `SPACE`, for the same reason: on the line `SPACE` scan emits one zero unit, whose text is empty, not `SPACE` (`Lexer.SpaceWordDropped`).
- The validity result of parse is modelled; the `success`/`error` lines printed from it are not.
