/**
 * Whole-input behaviour of the PSI lexer on small concrete programs.  Each
 * example names its input through a `requires`, and walks the dispatcher
 * loop from the last lookahead back to the first.
 */
module Examples {
  import opened Results
  import opened Chars
  import opened Tokens
  import opened Scanners
  import opened Lexer
  import opened LexerProperties

  /** `input` holds the characters of `w`, one by one.  The worked examples
      reason through this predicate rather than through an equation with a
      string literal, which keeps every step small. */
  predicate Spells(input: string, w: string)
  {
    |input| == |w| && forall i :: 0 <= i < |w| ==> input[i] == w[i]
  }

  // Dispatcher steps over a lexeme whose extent is known.

  lemma WordStepAt(input: string, pos: nat, e: nat, line: nat)
    requires pos < e <= |input| && IsAlpha(input[pos])
    requires AllWordChars(input, pos, e) && e - pos <= MaxIdentifierLength
    requires !(e < |input| && IsWordChar(input[e]))
    ensures DispatchOne(input, pos, line) == Success(Step(Some(WordToken(LowerCase(input[pos..e]))), e, line))
  {
    DispatchWord(input, pos, line);
    WordRunAccepted(input, pos, e, line);
  }

  lemma NumberStepAt(input: string, pos: nat, e: nat, line: nat)
    requires pos < e <= |input| && AllDigits(input, pos, e) && e - pos <= MaxIntegerDigits
    requires !(e < |input| && (IsDigit(input[e]) || IsAlpha(input[e])))
    ensures DispatchOne(input, pos, line) == Success(Step(Some(IntConst(input[pos..e])), e, line))
  {
    DispatchNumber(input, pos, line);
    DigitRunAccepted(input, pos, e, line);
  }

  lemma OperatorStepAt(input: string, pos: nat, op: string, line: nat)
    requires pos < |input| && IsOperator(input[pos])
    requires LongestOperatorAt(input, pos, op)
    requires !At(input, pos, "/*") && !NegativeLiteralAt(input, pos)
    requires !StarterAt(input, pos + |op|)
    ensures DispatchOne(input, pos, line) == Success(Step(Some(Operator(op)), pos + |op|, line))
  {
    DispatchOperator(input, pos, line);
    OperatorAccepted(input, pos, op, line);
  }

  lemma BlankStepAt(input: string, pos: nat, line: nat)
    requires pos + 1 < |input| && (input[pos] == ' ' || input[pos] == '\t') && !IsSpace(input[pos + 1])
    ensures DispatchOne(input, pos, line) == Success(Step(None, pos + 1, line))
  {
    DispatchSpace(input, pos, line);
    SpaceRunSkipped(input, pos, pos + 1, line);
  }

  lemma Prepend1(a: Token, b: Token)
    ensures [a] + [b] == [a, b]
  {
  }

  lemma Prepend2(a: Token, b: Token, c: Token)
    ensures [a] + [b, c] == [a, b, c]
  {
  }

  lemma Prepend3(a: Token, b: Token, c: Token, d: Token)
    ensures [a] + [b, c, d] == [a, b, c, d]
  {
  }

  /** `x := 10;` is an identifier, the assignment operator, an integer
      constant and the statement terminator. */
  lemma AssignmentStatement(input: string)
    requires input == "x := 10;"
    ensures Tokenize(input)
         == Success(Lexed([Identifier("x"), Operator(":="), IntConst("10"), EndOfLine], 1))
  {
    AssignmentFrom0(input);
  }

  lemma AssignmentFrom0(input: string)
    requires Spells(input, "x := 10;")
    ensures Scan(input, 0, 1)
         == Success(Lexed([Identifier("x"), Operator(":="), IntConst("10"), EndOfLine], 1))
  {
    AssignmentFrom1(input);
    AssignmentWord(input);
    ScanAfterToken(input, 0, 1, Identifier("x"), 1, 1,
                   Lexed([Operator(":="), IntConst("10"), EndOfLine], 1));
    Prepend3(Identifier("x"), Operator(":="), IntConst("10"), EndOfLine);
  }

  lemma AssignmentWord(input: string)
    requires Spells(input, "x := 10;")
    ensures DispatchOne(input, 0, 1) == Success(Step(Some(Identifier("x")), 1, 1))
  {
    AssignmentHead(input);
    WordStepAt(input, 0, 1, 1);
    LowerX();
  }

  lemma AssignmentHead(input: string)
    requires Spells(input, "x := 10;")
    ensures |input| == 8 && IsAlpha(input[0]) && !IsWordChar(input[1])
    ensures AllWordChars(input, 0, 1) && input[0..1] == "x"
  {
    assert input[0] == 'x' && input[1] == ' ';
  }

  lemma LowerX()
    ensures WordToken(LowerCase("x")) == Identifier("x")
  {
    assert LowerCase("x") == "x";
    assert !IsKeyword("x");
  }

  lemma AssignmentFrom1(input: string)
    requires Spells(input, "x := 10;")
    ensures Scan(input, 1, 1) == Success(Lexed([Operator(":="), IntConst("10"), EndOfLine], 1))
  {
    assert input[1] == ' ' && input[2] == ':' && input[3] == '=' && input[4] == ' ';
    AssignmentFrom4(input);
    assert input[2..4] == ":=";
    TwoCharLongest(input, 2, ":=");
    OperatorStepAt(input, 2, ":=", 1);
    ScanAfterToken(input, 2, 1, Operator(":="), 4, 1, Lexed([IntConst("10"), EndOfLine], 1));
    Prepend2(Operator(":="), IntConst("10"), EndOfLine);
    BlankStepAt(input, 1, 1);
    ScanAfterSkip(input, 1, 1, 2, 1);
  }

  lemma AssignmentFrom4(input: string)
    requires Spells(input, "x := 10;")
    ensures Scan(input, 4, 1) == Success(Lexed([IntConst("10"), EndOfLine], 1))
  {
    assert |input| == 8 && input[4] == ' ' && input[5] == '1' && input[6] == '0' && input[7] == ';';
    DispatchSemicolon(input, 7, 1);
    ScanAfterToken(input, 7, 1, EndOfLine, 8, 1, Lexed([], 1));
    assert [EndOfLine] + [] == [EndOfLine];
    NumberStepAt(input, 5, 7, 1);
    assert input[5..7] == "10";
    ScanAfterToken(input, 5, 1, IntConst("10"), 7, 1, Lexed([EndOfLine], 1));
    Prepend1(IntConst("10"), EndOfLine);
    BlankStepAt(input, 4, 1);
    ScanAfterSkip(input, 4, 1, 5, 1);
  }

  /** `>` is not a character of the language: `x1 >= 0` stops at it, after
      the identifier has been read. */
  lemma ComparisonRejected(input: string)
    requires input == "x1 >= 0"
    ensures Tokenize(input) == Failure(Error(InvalidCharacter('>'), 1, 3))
  {
    ComparisonSteps(input);
  }

  lemma ComparisonSteps(input: string)
    requires Spells(input, "x1 >= 0")
    ensures Scan(input, 0, 1) == Failure(Error(InvalidCharacter('>'), 1, 3))
  {
    assert input[0] == 'x' && input[1] == '1' && input[2] == ' ' && input[3] == '>';
    InvalidCharacterRejected(input, 3, 1);
    BlankStepAt(input, 2, 1);
    ScanAfterSkip(input, 2, 1, 3, 1);
    ComparisonWord(input);
    ScanFailsAfterStep(input, 0, 1, Step(Some(Identifier("x1")), 2, 1),
                       Error(InvalidCharacter('>'), 1, 3));
  }

  lemma ComparisonWord(input: string)
    requires Spells(input, "x1 >= 0")
    ensures DispatchOne(input, 0, 1) == Success(Step(Some(Identifier("x1")), 2, 1))
  {
    assert input[0] == 'x' && input[1] == '1' && input[2] == ' ';
    assert IsWordChar(input[0]) && IsWordChar(input[1]) && !IsWordChar(input[2]);
    assert AllWordChars(input, 0, 2);
    WordStepAt(input, 0, 2, 1);
    assert input[0..2] == "x1";
    LowerX1();
  }

  lemma LowerX1()
    ensures WordToken(LowerCase("x1")) == Identifier("x1")
  {
    assert LowerCase("x1") == "x1";
    assert !IsKeyword("x1");
  }

  /** `--5` is the decrement operator followed by the constant 5: the
      two-character operator is matched before the negative-literal rule
      gets to see the digit. */
  lemma DecrementThenDigit(input: string)
    requires input == "--5"
    ensures Tokenize(input) == Success(Lexed([Operator("--"), IntConst("5")], 1))
  {
    DecrementSteps(input);
  }

  lemma DecrementSteps(input: string)
    requires Spells(input, "--5")
    ensures Scan(input, 0, 1) == Success(Lexed([Operator("--"), IntConst("5")], 1))
  {
    assert |input| == 3 && input[0] == '-' && input[1] == '-' && input[2] == '5';
    NumberStepAt(input, 2, 3, 1);
    assert input[2..3] == "5";
    ScanAfterToken(input, 2, 1, IntConst("5"), 3, 1, Lexed([], 1));
    assert [IntConst("5")] + [] == [IntConst("5")];
    DispatchOperator(input, 0, 1);
    DecrementBeforeDigit(input, 0, 1);
    ScanAfterToken(input, 0, 1, Operator("--"), 2, 1, Lexed([IntConst("5")], 1));
    Prepend1(Operator("--"), IntConst("5"));
  }

  /** A minus sign before a digit is fatal, reported at the digit. */
  lemma NegativeLiteral(input: string)
    requires input == "-5;"
    ensures Tokenize(input) == Failure(Error(NegativeValue, 1, 1))
  {
    assert NegativeLiteralAt(input, 0);
    DispatchOperator(input, 0, 1);
    NegativeLiteralRejected(input, 0, 1);
  }

  /** A comment whose terminator is preceded by another `*` is skipped
      whole, and an input holding only a comment has no tokens. */
  lemma CommentOnly(input: string)
    requires input == "/* a **/"
    ensures Tokenize(input) == Success(Lexed([], 1))
  {
    CommentSteps(input);
  }

  lemma CommentSteps(input: string)
    requires Spells(input, "/* a **/")
    ensures Scan(input, 0, 1) == Success(Lexed([], 1))
  {
    assert |input| == 8 && input[0] == '/' && input[1] == '*' && input[2] == ' ' && input[3] == 'a';
    assert input[4] == ' ' && input[5] == '*' && input[6] == '*' && input[7] == '/';
    assert input[0..2] == "/*";
    assert FirstCloseFrom(input, 2, 6);
    NewlinesZero(input, 2, 6);
    DispatchOperator(input, 0, 1);
    CommentSkipped(input, 0, 6, 1);
    ScanAfterSkip(input, 0, 1, 8, 1);
  }

  /** A comment still open at the end of the input is fatal. */
  lemma UnclosedComment(input: string)
    requires input == "/* x"
    ensures Tokenize(input) == Failure(Error(UnterminatedComment, 1, 4))
  {
    UnclosedSteps(input);
  }

  lemma UnclosedSteps(input: string)
    requires Spells(input, "/* x")
    ensures Scan(input, 0, 1) == Failure(Error(UnterminatedComment, 1, 4))
  {
    assert |input| == 4 && input[0] == '/' && input[1] == '*' && input[2] == ' ' && input[3] == 'x';
    assert input[0..2] == "/*";
    assert NoCloseFrom(input, 2);
    NewlinesZero(input, 2, 4);
    DispatchOperator(input, 0, 1);
    UnclosedCommentRejected(input, 0, 1);
  }

  /** Two adjacent string constants are two tokens. */
  lemma TwoStrings(input: string)
    requires input == "\"a\"\"b\""
    ensures Tokenize(input) == Success(Lexed([StrConst("a"), StrConst("b")], 1))
  {
    TwoStringSteps(input);
  }

  lemma TwoStringSteps(input: string)
    requires Spells(input, "\"a\"\"b\"")
    ensures Scan(input, 0, 1) == Success(Lexed([StrConst("a"), StrConst("b")], 1))
  {
    assert |input| == 6 && input[0] == '"' && input[1] == 'a' && input[2] == '"';
    assert input[3] == '"' && input[4] == 'b' && input[5] == '"';
    StringStepAt(input, 3, 5, 1);
    assert input[4..5] == "b";
    ScanAfterToken(input, 3, 1, StrConst("b"), 6, 1, Lexed([], 1));
    assert [StrConst("b")] + [] == [StrConst("b")];
    StringStepAt(input, 0, 2, 1);
    assert input[1..2] == "a";
    ScanAfterToken(input, 0, 1, StrConst("a"), 3, 1, Lexed([StrConst("b")], 1));
    Prepend1(StrConst("a"), StrConst("b"));
  }

  /** The dispatcher over a string constant without line breaks. */
  lemma StringStepAt(input: string, pos: nat, q: nat, line: nat)
    requires pos < q < |input| && input[pos] == '"' && input[q] == '"'
    requires forall k :: pos < k < q ==> input[k] != '"' && input[k] != '\n'
    ensures DispatchOne(input, pos, line) == Success(Step(Some(StrConst(input[pos + 1..q])), q + 1, line))
  {
    DispatchString(input, pos, line);
    NewlinesZero(input, pos + 1, q);
    StringLiteralAccepted(input, pos, q, line);
  }

  /** A string constant may span lines; its line break stays in the
      lexeme and raises the line counter. */
  lemma MultilineString(input: string)
    requires input == "\"a)\nStrConst(b\""
    ensures Tokenize(input) == Success(Lexed([StrConst("a)\nStrConst(b")], 2))
  {
    MultilineSteps(input);
  }

  lemma MultilineSteps(input: string)
    requires Spells(input, "\"a)\nStrConst(b\"")
    ensures Scan(input, 0, 1) == Success(Lexed([StrConst("a)\nStrConst(b")], 2))
  {
    MultilineLexeme(input);
    DispatchString(input, 0, 1);
    StringLiteralAccepted(input, 0, 14, 1);
    ScanAfterToken(input, 0, 1, StrConst("a)\nStrConst(b"), 15, 2, Lexed([], 2));
    assert [StrConst("a)\nStrConst(b")] + [] == [StrConst("a)\nStrConst(b")];
  }

  lemma MultilineLexeme(input: string)
    requires Spells(input, "\"a)\nStrConst(b\"")
    ensures |input| == 15 && input[0] == '"' && input[14] == '"'
    ensures NoQuote(input, 1, 14) && NewlinesIn(input, 1, 14) == 1
    ensures input[1..14] == "a)\nStrConst(b"
  {
    var w := "\"a)\nStrConst(b\"";
    assert w[1..14] == "a)\nStrConst(b";
    assert input == w;
    MultilineCount(w);
  }

  lemma MultilineCount(w: string)
    requires w == "\"a)\nStrConst(b\""
    ensures NoQuote(w, 1, 14) && NewlinesIn(w, 1, 14) == 1
  {
    assert w[3] == '\n';
    NewlinesSplit(w, 1, 3, 14);
    NewlinesZero(w, 1, 3);
    NewlinesZero(w, 4, 14);
  }

  /** The output file does not determine the program's tokens: a single
      constant spanning two lines and two one-line constants are written
      identically. */
  lemma SameFileDifferentTokens(one: string, two: string)
    requires one == "\"a)\nStrConst(b\"" && two == "\"a\"\"b\""
    ensures Tokenize(one).Success? && Tokenize(two).Success?
    ensures Tokenize(one).value.tokens != Tokenize(two).value.tokens
    ensures FileOf(Tokenize(one).value.tokens) == FileOf(Tokenize(two).value.tokens)
  {
    MultilineString(one);
    TwoStrings(two);
    FileAmbiguous();
  }
}
