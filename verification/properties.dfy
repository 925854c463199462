/**
 * Properties of the PSI lexer that relate the scanners' contracts to their
 * inputs in the converse direction (a well-shaped lexeme IS scanned as
 * such), and properties of the dispatcher as a whole.
 */
module LexerProperties {
  import opened Results
  import opened Chars
  import opened Tokens
  import opened Scanners
  import opened Lexer

  /** A maximal run of at most 30 word characters starting at a letter is
      emitted as one token, case-folded, and scanning resumes right after
      it. */
  lemma WordRunAccepted(input: string, pos: nat, e: nat, line: nat)
    requires pos < e <= |input| && IsAlpha(input[pos])
    requires AllWordChars(input, pos, e) && e - pos <= MaxIdentifierLength
    requires !(e < |input| && IsWordChar(input[e]))
    ensures ScanWord(input, pos, line) == Success(Step(Some(WordToken(LowerCase(input[pos..e]))), e, line))
  {
    var r := ScanWord(input, pos, line);
    assert r.Success?;
    assert r.value.pos == e;
  }

  /** A run of 31 word characters starting at a letter is fatal, on the
      current line. */
  lemma WordRunTooLong(input: string, pos: nat, line: nat)
    requires pos + MaxIdentifierLength < |input| && IsAlpha(input[pos])
    requires AllWordChars(input, pos, pos + MaxIdentifierLength + 1)
    ensures ScanWord(input, pos, line) == Failure(Error(IdentifierTooLong, line, pos + MaxIdentifierLength))
  {
    var r := ScanWord(input, pos, line);
    assert r.Failure?;
  }

  /** A reserved word in any mix of letter cases is a keyword, written in
      lower case. */
  lemma KeywordInAnyCase(input: string, pos: nat, e: nat, line: nat, w: string)
    requires pos < e <= |input| && IsAlpha(input[pos])
    requires AllWordChars(input, pos, e) && e - pos <= MaxIdentifierLength
    requires !(e < |input| && IsWordChar(input[e]))
    requires w in KeywordTable && LowerCase(input[pos..e]) == w
    ensures ScanWord(input, pos, line) == Success(Step(Some(Keyword(w)), e, line))
  {
    WordRunAccepted(input, pos, e, line);
  }

  /** A maximal run of at most 10 digits not followed by a letter is an
      integer constant, and scanning resumes right after it. */
  lemma DigitRunAccepted(input: string, pos: nat, e: nat, line: nat)
    requires pos < e <= |input| && AllDigits(input, pos, e) && e - pos <= MaxIntegerDigits
    requires !(e < |input| && (IsDigit(input[e]) || IsAlpha(input[e])))
    ensures ScanNumber(input, pos, line) == Success(Step(Some(IntConst(input[pos..e])), e, line))
  {
    var r := ScanNumber(input, pos, line);
    assert r.Success?;
    assert r.value.pos == e;
  }

  /** An 11th digit is fatal. */
  lemma DigitRunTooLong(input: string, pos: nat, line: nat)
    requires pos + MaxIntegerDigits < |input| && AllDigits(input, pos, pos + MaxIntegerDigits + 1)
    ensures ScanNumber(input, pos, line) == Failure(Error(IntegerTooLong, line, pos + MaxIntegerDigits))
  {
    var r := ScanNumber(input, pos, line);
    assert r.Failure?;
  }

  /** A letter right after a digit run of at most 10 digits is fatal. */
  lemma LetterAfterDigits(input: string, pos: nat, e: nat, line: nat)
    requires pos < e < |input| && AllDigits(input, pos, e) && e - pos <= MaxIntegerDigits
    requires IsAlpha(input[e])
    ensures ScanNumber(input, pos, line) == Failure(Error(InvalidIdentifier, line, e))
  {
    var r := ScanNumber(input, pos, line);
    assert r.Failure?;
  }

  /** An underscore after a digit run is not the invalid-identifier error:
      the integer is emitted and the underscore is then rejected by the
      dispatcher as an invalid character. */
  lemma UnderscoreAfterDigits(input: string, pos: nat, e: nat, line: nat)
    requires pos < e < |input| && AllDigits(input, pos, e) && e - pos <= MaxIntegerDigits
    requires input[e] == '_'
    ensures Scan(input, pos, line) == Failure(Error(InvalidCharacter('_'), line, e))
  {
    DigitRunAccepted(input, pos, e, line);
  }

  /** The longest operator of the table, outside a comment opener and a
      negative literal, is emitted when no operator-starter follows it. */
  lemma OperatorAccepted(input: string, pos: nat, op: string, line: nat)
    requires pos < |input| && IsOperator(input[pos])
    requires LongestOperatorAt(input, pos, op)
    requires !At(input, pos, "/*") && !NegativeLiteralAt(input, pos)
    requires !StarterAt(input, pos + |op|)
    ensures ScanOperator(input, pos, line) == Success(Step(Some(Operator(op)), pos + |op|, line))
  {
    var r := ScanOperator(input, pos, line);
    assert OperatorOutcome(input, pos, line, r);
    if r.Success? && r.value.token.Some? {
      var o := r.value.token.value.op;
      assert |o| == |op|;
      assert o == input[pos..pos + |o|] == op;
    }
  }

  /** `--` is matched before the negative-literal rule applies, so `--5`
      scans as the operator `--` and leaves the digit as the next
      lookahead. */
  lemma DecrementBeforeDigit(input: string, pos: nat, line: nat)
    requires pos + 2 < |input| && input[pos] == '-' && input[pos + 1] == '-' && IsDigit(input[pos + 2])
    ensures ScanOperator(input, pos, line) == Success(Step(Some(Operator("--")), pos + 2, line))
  {
    assert input[pos..pos + 2] == "--";
    assert LongestOperatorAt(input, pos, "--");
    OperatorAccepted(input, pos, "--", line);
  }

  /** A block comment closed by the terminator at index `k` is skipped up
      to and including that terminator, with its newlines counted. */
  lemma CommentSkipped(input: string, pos: nat, k: nat, line: nat)
    requires pos < |input| && At(input, pos, "/*") && FirstCloseFrom(input, pos + 2, k)
    ensures ScanOperator(input, pos, line)
         == Success(Step(None, k + 2, line + NewlinesIn(input, pos + 2, k)))
  {
    var r := ScanOperator(input, pos, line);
    assert OperatorOutcome(input, pos, line, r);
    assert input[pos] == '/' && input[pos + 1] == '*';
    assert input[pos..pos + 1] == "/";
    assert OperatorAt(input, pos, 1);
    if r.Success? && r.value.token == None {
      var c := r.value.pos - 2;
      assert FirstCloseFrom(input, pos + 2, c);
      assert !(c < k) && !(k < c);
    }
  }

  /** A block comment that is never closed is fatal, reported on the line
      where the input ends. */
  lemma UnclosedCommentRejected(input: string, pos: nat, line: nat)
    requires pos < |input| && At(input, pos, "/*") && NoCloseFrom(input, pos + 2)
    ensures ScanOperator(input, pos, line)
         == Failure(Error(UnterminatedComment, line + NewlinesIn(input, pos + 2, |input|), |input|))
  {
    var r := ScanOperator(input, pos, line);
    assert OperatorOutcome(input, pos, line, r);
    assert input[pos] == '/' && input[pos + 1] == '*';
    assert input[pos..pos + 1] == "/";
    assert OperatorAt(input, pos, 1);
  }

  /** A minus sign directly before a digit is fatal: the language has no
      negative literals. */
  lemma NegativeLiteralRejected(input: string, pos: nat, line: nat)
    requires NegativeLiteralAt(input, pos)
    ensures ScanOperator(input, pos, line) == Failure(Error(NegativeValue, line, pos + 1))
  {
    var r := ScanOperator(input, pos, line);
    assert OperatorOutcome(input, pos, line, r);
  }

  /** A string literal closed by quote index `q` is emitted verbatim, with
      its newlines counted, and scanning resumes after the closing quote. */
  lemma StringLiteralAccepted(input: string, pos: nat, q: nat, line: nat)
    requires pos < q < |input| && input[pos] == '"' && input[q] == '"'
    requires NoQuote(input, pos + 1, q)
    ensures ScanString(input, pos, line)
         == Success(Step(Some(StrConst(input[pos + 1..q])), q + 1, line + NewlinesIn(input, pos + 1, q)))
  {
    var r := ScanString(input, pos, line);
    assert r.Success?;
    assert r.value.pos == q + 1;
  }

  /** The dispatcher hands a letter to `parseWord`. */
  lemma DispatchWord(input: string, pos: nat, line: nat)
    requires pos < |input| && IsAlpha(input[pos])
    ensures DispatchOne(input, pos, line) == ScanWord(input, pos, line)
  {
  }

  /** The dispatcher hands a digit to `parseNumber`. */
  lemma DispatchNumber(input: string, pos: nat, line: nat)
    requires pos < |input| && IsDigit(input[pos])
    ensures DispatchOne(input, pos, line) == ScanNumber(input, pos, line)
  {
  }

  /** The dispatcher hands an operator-starter to `parseOperator`. */
  lemma DispatchOperator(input: string, pos: nat, line: nat)
    requires pos < |input| && IsOperator(input[pos])
    ensures DispatchOne(input, pos, line) == ScanOperator(input, pos, line)
  {
  }

  /** The dispatcher hands a quote to `parseStringConst`. */
  lemma DispatchString(input: string, pos: nat, line: nat)
    requires pos < |input| && input[pos] == '"'
    ensures DispatchOne(input, pos, line) == ScanString(input, pos, line)
  {
  }

  /** The dispatcher hands a bracket to `parseBracket`. */
  lemma DispatchBracket(input: string, pos: nat, line: nat)
    requires pos < |input| && IsBracket(input[pos])
    ensures DispatchOne(input, pos, line) == Success(ScanBracket(input, pos, line))
  {
  }

  /** One pass of the loop that emits a token: the token comes first, then
      everything scanned from where the step stopped. */
  lemma ScanAfterToken(input: string, pos: nat, line: nat, t: Token, next: nat, nextLine: nat, rest: Lexed)
    requires pos < |input| && DispatchOne(input, pos, line) == Success(Step(Some(t), next, nextLine))
    requires next <= |input| && Scan(input, next, nextLine) == Success(rest)
    ensures Scan(input, pos, line) == Success(Lexed([t] + rest.tokens, rest.line))
  {
    assert Emitted(Some(t)) == [t];
  }

  /** One pass of the loop that emits nothing: the scan goes on from where
      the step stopped. */
  lemma ScanAfterSkip(input: string, pos: nat, line: nat, next: nat, nextLine: nat)
    requires pos < |input| && DispatchOne(input, pos, line) == Success(Step(None, next, nextLine))
    requires next <= |input|
    ensures Scan(input, pos, line) == Scan(input, next, nextLine)
  {
    var r := Scan(input, next, nextLine);
    if r.Success? {
      assert Emitted(None) + r.value.tokens == r.value.tokens;
    }
  }

  /** A failure further on is the failure of the whole scan. */
  lemma ScanFailsAfterStep(input: string, pos: nat, line: nat, step: Step, e: Error)
    requires pos < |input| && DispatchOne(input, pos, line) == Success(step)
    requires Scan(input, step.pos, step.line) == Failure(e)
    ensures Scan(input, pos, line) == Failure(e)
  {
  }

  /** A maximal run of whitespace is skipped in one step. */
  lemma SpaceRunSkipped(input: string, pos: nat, e: nat, line: nat)
    requires pos <= e <= |input| && AllSpaces(input, pos, e)
    requires !(e < |input| && IsSpace(input[e]))
    ensures SkipSpace(input, pos, line) == Step(None, e, line + NewlinesIn(input, pos, e))
  {
    var r := SkipSpace(input, pos, line);
    assert r.pos == e;
  }

  /** The dispatcher hands a whitespace lookahead to `skipSpace`. */
  lemma DispatchSpace(input: string, pos: nat, line: nat)
    requires pos < |input| && IsSpace(input[pos])
    ensures DispatchOne(input, pos, line) == Success(SkipSpace(input, pos, line))
  {
  }

  /** Input made only of blanks, tabs and newlines yields no tokens and
      succeeds, with every newline counted. */
  lemma {:induction false} WhitespaceOnly(input: string, pos: nat, line: nat)
    requires pos <= |input| && AllSpaces(input, pos, |input|)
    ensures Scan(input, pos, line) == Success(Lexed([], line + NewlinesIn(input, pos, |input|)))
  {
    if pos < |input| {
      var step := SkipSpace(input, pos, line);
      assert step.pos == |input| && step.token == None;
      DispatchSpace(input, pos, line);
      assert Scan(input, |input|, step.line) == Success(Lexed([], step.line));
      assert Emitted(step.token) + [] == [];
    }
  }

  /** The empty input and whitespace-only input are analysed successfully
      without a single token. */
  lemma WhitespaceOnlyTokenizes(input: string)
    requires AllSpaces(input, 0, |input|)
    ensures Tokenize(input).Success? && Tokenize(input).value.tokens == []
  {
    WhitespaceOnly(input, 0, 1);
  }

  /** The dispatcher handles `;` inline: `EndOfLine`, one character. */
  lemma DispatchSemicolon(input: string, pos: nat, line: nat)
    requires pos < |input| && input[pos] == ';'
    ensures DispatchOne(input, pos, line) == Success(Step(Some(EndOfLine), pos + 1, line))
  {
  }

  /** The dispatcher emits `EndOfLine` for `;` and goes on with the next
      character. */
  lemma SemicolonEmitsEndOfLine(input: string, pos: nat, line: nat)
    requires pos < |input| && input[pos] == ';'
    ensures Scan(input, pos, line).Success? <==> Scan(input, pos + 1, line).Success?
    ensures Scan(input, pos, line).Success? ==>
      Scan(input, pos, line).value.tokens == [EndOfLine] + Scan(input, pos + 1, line).value.tokens
  {
    DispatchSemicolon(input, pos, line);
    assert Emitted(Some(EndOfLine)) == [EndOfLine];
  }

  /** Any character outside every lexical class stops the analysis at once,
      reporting that character on the current line. */
  lemma InvalidCharacterRejected(input: string, pos: nat, line: nat)
    requires pos < |input| && !Classified(input[pos])
    ensures Scan(input, pos, line) == Failure(Error(InvalidCharacter(input[pos]), line, pos))
  {
  }
}
