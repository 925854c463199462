# PSI lexical analyser in Dafny

This project models the lexical analyser of the PSI language found in
`main.c`. The analyser reads a source file one character at a time and
classifies each character in turn, with one character of lookahead. It
writes each token to `code.lex` as its text followed by a newline:
`Keyword(w)`, `Identifier(w)`,
`IntConst(d)`, `Operator(o)` or `StrConst(s)`, and the bare names
`LeftPar`, `RightPar`, `LeftCurlyBracket`, `RightCurlyBracket`,
`LeftSquareBracket`, `RightSquareBracket` and `EndOfLine`. A string
constant keeps any newlines it holds, so its text can span several lines of
the file. Blanks, tabs,
newlines and `/* ... */` comments are skipped. Newlines are counted so that
an error can be reported with its line. The first error stops the analysis.

The model replaces the stream with a string and the lookahead character
with an index into it. Every scanner is a pure function
`(input, pos, line) -> Result<Step, Error>`. A `Step` holds the token
emitted (if any), the index of the next lookahead character and the updated
line counter. An `Error` holds its kind, the line reported and `at`, the
index where the scanner stopped. The C program has no `at`. The model keeps
it so that the line of every error can be stated: it is the start line plus
the newlines in `input[pos..at]`.

Files and modules:

- `results.dfy` (`Results`): `Option` and `Result`.
- `chars.dfy` (`Chars`): the character classes of `<ctype.h>` in ASCII, and
  the `isSpace`, `isBracket` and `isOperator` tests. Also `tolower`, and the
  newline count that drives `lineNumber`.
- `tokens.dfy` (`Tokens`): the keyword table, the operator table, tokens and
  errors. Also the text written for a token (`Render`), its reading back
  (`Unrender`), and the whole file (`FileOf`).
- `scanners.dfy` (`Scanners`): `parseWord`, `parseNumber`, `skipSpace`,
  `parseBracket`, `parseStringConst` and `parseOperator`, including the
  block-comment loop.
- `lexer.dfy` (`Lexer`): the dispatcher loop of `main` (`DispatchOne` is
  one pass; `Scan` and `Tokenize` are the whole loop).
- `properties.dfy` (`LexerProperties`): the converse of the scanner
  contracts, which says that a well-shaped lexeme IS scanned as such. Also
  the dispatch order and facts about the loop as a whole.
- `examples.dfy` (`Examples`): complete analyses of small PSI fragments.
- `termination.dfy` (`Termination`): the exit-code path of `exitProgram`.
  See "Findings".

## Model

| member | source | states |
|---|---|---|
| Chars.ToLower | main.c:112 | Upper-case letters map to the lower-case letter 32 code points below them. Every other character is unchanged. The result is a letter exactly when the input is, and digits and word characters are preserved. |
| Chars.NewlinesSplit | main.c:171-172 | The newline count of two adjacent ranges is the sum of their counts, so the line counter can be advanced scanner by scanner. |
| Chars.NewlinesZero | main.c:229 | A range contains no newline exactly when its newline count is 0. |
| Tokens.WordToken | main.c:117-118 | A folded word becomes `Keyword` exactly when it is one of the 18 reserved words of main.c:154-155. Otherwise it becomes `Identifier`. Either way the token carries the word. |
| Tokens.LexemeRoundTrip | main.c:117-118 | A token written as `Kind(lexeme)` is read back as the same token. The same format is used at main.c:147, 297 and 326. |
| Tokens.BareRoundTrip | main.c:183-188 | A token written as its bare name (brackets here, `EndOfLine` at main.c:79) is read back as the same token. |
| Tokens.RenderRoundTrip | main.c:297 | The text written for any token reads back as that token, whatever characters its lexeme holds. |
| Tokens.RenderInjective | main.c:326 | Distinct tokens render to distinct strings, even string constants holding parentheses or newlines. |
| Tokens.Render | main.c:117-118 | The text of a token: its kind name, followed by its lexeme in parentheses for the five kinds that carry one (also main.c:147, 297, 326; bare names at main.c:79 and 183-188). |
| Tokens.KindNameLetters | main.c:183-188 | Every kind name is a non-empty word of letters, so it holds no newline or parenthesis. |
| Tokens.RenderLines | main.c:313-326 | A token's text holds a newline exactly when its lexeme does (only a string constant can), and ends in `)` exactly when the token carries a lexeme. |
| Tokens.FileInjective | main.c:117-118 | When no lexeme holds a newline, the file (each token's text followed by a newline) determines the token sequence. |
| Tokens.FileAmbiguous | main.c:313-326 | The single constant `a)` newline `StrConst(b` and the two constants `a`, `b` give the same file. |
| Tokens.IsKeyword | main.c:153-163 | A word is reserved exactly when it is one of the 18 entries of the keyword table, compared case-sensitively. |
| Tokens.KeywordShape | main.c:154-155 | Every reserved word has 2 to 8 lower-case letters, so it fits the 9-byte table rows and only folded text can match it. |
| Chars.IsAlpha | main.c:60 | `isalpha` in the "C" locale: an ASCII letter of either case. |
| Chars.IsDigit | main.c:63 | `isdigit`: one of `0` to `9`. |
| Chars.IsWordChar | main.c:107 | The identifier-continuation test `isalnum(ch) \|\| ch == '_'`. |
| Chars.IsSpace | main.c:165-167 | Blank, newline and tab, and nothing else (no carriage return). |
| Chars.IsBracket | main.c:178-180 | The six bracket characters. |
| Chars.IsOperator | main.c:195-197 | The five operator-starters `+ - * / :`. |
| Chars.ClassTables | main.c:165-197 | The space, bracket, operator and digit classes are exactly the character lists the C tests compare against. |
| Scanners.WordLoop | main.c:107-114 | The loop consumes word characters, folding each one. It stops at the first non-word character after at most 30 of them, and the 31st is an `IdentifierTooLong` error at its index. |
| Scanners.ScanWord | main.c:99-122 | On success: the run from the letter at `pos` is maximal, has at most 30 word characters, and becomes `WordToken` of its folded text. The line is unchanged. On failure: 31 word characters follow `pos` and the error is at the 31st. |
| Scanners.DigitLoop | main.c:132-139 | The loop consumes digits. It stops at the first non-digit after at most 10 of them, and an 11th digit is an `IntegerTooLong` error at its index. |
| Scanners.ScanNumber | main.c:124-151 | On success: a maximal run of at most 10 digits, not followed by a letter, is emitted verbatim. On failure: exactly one of two errors. Either an 11th digit (`IntegerTooLong`), or a letter right after a run of at most 10 digits (`InvalidIdentifier`, at the letter). |
| Scanners.SkipSpace | main.c:169-176 | Consumes the maximal run of blanks, tabs and newlines (at least one character when it starts on one). Emits nothing and advances the line by the newlines consumed. |
| Scanners.ScanBracket | main.c:182-193 | Emits the one token whose bracket character is `input[pos]` and consumes exactly that character. |
| Scanners.StringLoop | main.c:313-317 | Copies characters verbatim up to the first `"`, counting newlines. If no `"` remains, the result is `UnterminatedString` at the end of input on the last line. |
| Scanners.ScanString | main.c:303-330 | On success: emits the text strictly between the opening quote and the first quote after it, and resumes after the closing quote, with the text's newlines counted. On failure: no closing quote exists. |
| Scanners.LongestIsMaximal | main.c:199-301 | Every table operator occurring at `pos` is no longer than the operator the scanner matches there (longest match). |
| Scanners.SkipComment | main.c:226-241 | On success: resumes right after the FIRST `*/`, with the comment's newlines counted. On failure: no `*/` follows, and the error is `UnterminatedComment` on the last line. |
| Scanners.EmitOperator | main.c:290-300 | The operator is emitted exactly when the character after it does not start an operator. Otherwise the error is `InvalidOperatorPair` of the first character and that next character, at the next character. |
| Scanners.ScanColon | main.c:209-223 | Only `:=` is emitted. A `:` without `=` after it is `InvalidColon`, reported one character later. |
| Scanners.ScanSlash | main.c:224-247 | `/*` opens a comment that emits nothing. Otherwise `/` is the longest operator at `pos`. |
| Scanners.ScanPlus | main.c:248-266 | `++` wins over `+`. Either is rejected when an operator-starter follows it. |
| Scanners.ScanMinus | main.c:267-288 | `--` is tried first. Then a digit after `-` is `NegativeValue`. Otherwise `-` is emitted unless an operator-starter follows. |
| Scanners.ScanStar | main.c:289-296 | `*` is emitted unless an operator-starter follows it. |
| Scanners.ScanOperator | main.c:199-301 | The result is exactly one of these. The longest operator of the table, with no operator-starter after it. A comment ended by its first `*/`. Or one of four errors (invalid colon, negative value, unterminated comment, invalid pair), each only under the condition that causes it. |
| Lexer.Classified | main.c:60-81 | A character some branch of the dispatcher accepts: a letter, a digit, an operator-starter, `"`, a bracket, whitespace or `;`. |
| Lexer.ClassesDisjoint | main.c:60-81 | The dispatcher's classes are pairwise disjoint, so the order of its branches decides nothing. |
| Lexer.DispatchOne | main.c:58-85 | Each pass consumes at least one character, adds the newlines consumed to the line, and emits only well-formed tokens. An error is reported on the line reached where it was detected. The pass fails with `InvalidCharacter(c)` at `pos` exactly when `c` belongs to no lexical class. |
| Lexer.Scan | main.c:57-87 | On success: every token is well formed and the final line is the start line plus all newlines in the rest of the input. On failure: the error lies inside the input and is reported on the start line plus the newlines before it. |
| Lexer.Tokenize | main.c:8 | The analysis starts on line 1, so the reported line of an error at index `at` is 1 plus the newlines before `at`. |
| LexerProperties.WordRunAccepted | main.c:107-121 | A maximal run of at most 30 word characters starting with a letter is scanned as one token of its folded text, and scanning resumes right after it. |
| LexerProperties.WordRunTooLong | main.c:108-110 | 31 word characters starting with a letter are `IdentifierTooLong` at the 31st. |
| LexerProperties.KeywordInAnyCase | main.c:112-117 | A reserved word written in any mix of cases is emitted as `Keyword` of its lower-case form. |
| LexerProperties.DigitRunAccepted | main.c:132-150 | A maximal run of at most 10 digits not followed by a letter is emitted verbatim, and scanning resumes right after it. |
| LexerProperties.DigitRunTooLong | main.c:133-135 | 11 digits in a row are `IntegerTooLong` at the 11th. |
| LexerProperties.LetterAfterDigits | main.c:141-144 | A letter right after at most 10 digits is `InvalidIdentifier` at the letter. |
| LexerProperties.UnderscoreAfterDigits | main.c:141-150 | `_` after digits is not caught by the letter test. The integer is emitted, and the dispatcher then rejects `_` as an invalid character. |
| LexerProperties.OperatorAccepted | main.c:199-301 | The longest table operator, outside `/*` and a negative literal, and with no operator-starter after it, is emitted. Scanning resumes after it. |
| LexerProperties.DecrementBeforeDigit | main.c:267-280 | `--` before a digit is the operator `--`. The negative-literal rule is not reached. |
| LexerProperties.CommentSkipped | main.c:224-238 | A comment closed by its first `*/` at `k` is skipped through `k + 1`, with its newlines counted. |
| LexerProperties.UnclosedCommentRejected | main.c:238-241 | A comment without `*/` is `UnterminatedComment`, reported at the end of input on the last line. |
| LexerProperties.NegativeLiteralRejected | main.c:278-280 | `-` directly before a digit is `NegativeValue`, reported at the digit. |
| LexerProperties.StringLiteralAccepted | main.c:313-329 | A literal closed by the quote at `q` is emitted verbatim. Its newlines are counted and scanning resumes after `q`. |
| LexerProperties.DispatchWord | main.c:59-60 | A letter is handed to the word scanner. |
| LexerProperties.DispatchNumber | main.c:62-63 | A digit is handed to the number scanner. |
| LexerProperties.DispatchOperator | main.c:65-66 | An operator-starter is handed to the operator scanner. |
| LexerProperties.DispatchString | main.c:68-69 | A `"` is handed to the string scanner. |
| LexerProperties.DispatchBracket | main.c:71-72 | A bracket is handed to the bracket scanner. |
| LexerProperties.DispatchSpace | main.c:74-75 | Whitespace is handed to the whitespace skipper. |
| LexerProperties.DispatchSemicolon | main.c:77-79 | `;` emits `EndOfLine` and consumes one character. |
| LexerProperties.ScanAfterToken | main.c:57-87 | A pass that emits a token puts it in front of everything scanned after it. |
| LexerProperties.ScanAfterSkip | main.c:57-87 | A pass that emits nothing leaves the rest of the analysis unchanged. |
| LexerProperties.ScanFailsAfterStep | main.c:90-97 | An error further on is the outcome of the whole analysis, because `exitProgram` ends the process. |
| LexerProperties.SpaceRunSkipped | main.c:169-176 | A maximal whitespace run is skipped in one pass, with its newlines counted. |
| LexerProperties.WhitespaceOnly | main.c:57-87 | Input made only of whitespace yields no tokens. The final line is the start line plus its newlines. |
| LexerProperties.WhitespaceOnlyTokenizes | main.c:57-58 | Empty and whitespace-only input is analysed successfully with no tokens. |
| LexerProperties.SemicolonEmitsEndOfLine | main.c:77-79 | The analysis from `;` succeeds exactly when the analysis after it does, and then adds `EndOfLine` in front. |
| LexerProperties.InvalidCharacterRejected | main.c:80-83 | A character of no lexical class stops the analysis at once, reported with that character on the current line. |
| Examples.AssignmentStatement | main.c:57-87 | `x := 10;` is `Identifier(x) Operator(:=) IntConst(10) EndOfLine` on line 1. |
| Examples.ComparisonRejected | main.c:80-83 | `x1 >= 0` stops with `InvalidCharacter('>')` at index 3 on line 1. |
| Examples.DecrementThenDigit | main.c:267-277 | `--5` is `Operator(--) IntConst(5)`. |
| Examples.NegativeLiteral | main.c:278-280 | `-5;` stops with `NegativeValue` at the digit. |
| Examples.CommentOnly | main.c:226-236 | `/* a **/` is one comment closed by its final `*/`, and yields no tokens. |
| Examples.UnclosedComment | main.c:238-241 | `/* x` stops with `UnterminatedComment` at the end of input. |
| Examples.TwoStrings | main.c:303-330 | `"a""b"` is two string constants, `a` and `b`, on line 1. |
| Examples.MultilineString | main.c:313-316 | A literal spanning a newline is one string constant that keeps the newline, and the analysis ends on line 2. |
| Examples.SameFileDifferentTokens | main.c:326 | The two inputs above are analysed into different token sequences that give the same `code.lex`. |
| Termination.ScanAsWritten | main.c:80-94 | The loop as written: a result that is an error always carries a non-zero exit code. It agrees with `Lexer.Scan` whenever that succeeds, and whenever that fails with a non-zero exit code. |
| Termination.AsWrittenAgreesWithoutNul | main.c:83-94 | Without NUL characters, the loop as written and the corrected loop give the same result on every input. |
| Termination.AsWrittenDivergesOnlyAtNul | main.c:83-94 | When the two loops differ, the as-written loop succeeded where the corrected loop rejected a NUL character. |
| Termination.NulEndsAnalysisEarly | main.c:83-94 | On `;` NUL `;`, the loop as written reports success with a single `EndOfLine`. The corrected loop rejects the NUL at index 1 on line 1. |

## Left out

- Opening and closing files, command-line handling (main.c:35-55) and writing `code.lex`. These are I/O. The token sequence stands for the file's contents; `Tokens.Render` gives each token's text and `Tokens.FileOf` the whole file.
- Reading `code.lex` back: a string constant keeps its newlines (main.c:313-316) and is written as `StrConst(%s)` (main.c:326), so the file alone does not determine the tokens (`Tokens.FileAmbiguous`, `Examples.SameFileDifferentTokens`). `Tokens.FileInjective` shows that it does when no lexeme holds a newline. Single tokens always round-trip (`Tokens.RenderRoundTrip`).
- The removal of `code.lex` and the exit status on errors (main.c:90-97) are modelled only in `Termination`. The rest of the model treats every error as the end of the analysis, with no output.
- The text of the messages printed on errors. Each message is modelled by its error kind and line.
- Memory-allocation failures (main.c:101-104, 126-129, 200-204, 307-310). Allocation is not modelled, so these paths cannot occur.
- The 1000-byte buffer of `parseStringConst` (main.c:306). A literal longer than 999 characters overflows it in C; the model keeps literals of any length.
- `char` versus `EOF`: main.c stores `fgetc`'s result in a `char`. Where `char` is signed, a 0xFF byte compares equal to `EOF` and ends the input early. Where `char` is unsigned, `ch != EOF` (main.c:59, 228, 313) never fails: end of input reaches the dispatcher as byte 0xFF and is rejected as an invalid character (main.c:82-83), and inside a string or comment the loop never ends. The model treats every character as data and ends only at the end of the string. Characters stand for bytes; those above 0xFF do not occur in the program's input.
- Locale-dependent `<ctype.h>`: `isalpha`, `isdigit`, `isalnum` and `tolower` are modelled in the "C" locale (ASCII).
- `lineNumber` is a `size_t`; the model's line counter is unbounded, because wrap-around would need 2^64 newlines.
- Termination.ExitCode: the code is the character's code point. Where `char` is signed, C passes a negative value for bytes of 0x80 and above. That changes the code but not whether it is 0, which is all the model uses.
- A NUL inside a string constant is kept in the token. In C, `%s` would cut the written line short at the NUL.
- Lexer.Scan: its contract gives the line count and well-formedness, not the exact token sequence. The exact tokens follow from `LexerProperties.ScanAfterToken` and `LexerProperties.ScanAfterSkip` together with the per-scanner lemmas, as the `Examples` show.
- LexerProperties.WhitespaceOnlyTokenizes: states success and no tokens; the final line is stated by `LexerProperties.WhitespaceOnly`.

## Findings

| source | as written | input that shows it | evidently intended | confidence | as-written member | corrected member |
|---|---|---|---|---|---|---|
| main.c:83 | The dispatcher passes the rejected character as the exit code. A NUL character (code 0) makes `exitProgram` keep `code.lex` and print the success message (main.c:93-94), so the analysis "succeeds" with the tokens emitted so far. | `;` NUL `;` gives success with one `EndOfLine`; the second `;` is silently dropped (`Termination.NulEndsAnalysisEarly`). | Every invalid character is a fatal error with a non-zero exit code, as in the sub-scanners, which always pass 1 (`LexerProperties.InvalidCharacterRejected`). | not executed | Termination.ScanAsWritten | Lexer.Scan |
