/**
 * The sub-scanners of the PSI lexer (main.c).  Each one starts at the
 * lookahead index `pos` with the current line counter, consumes at least one
 * character and returns the token it emitted (if any), the index of the next
 * lookahead character and the updated line counter, or the fatal error it
 * detected.  The C routines return the lookahead character itself; here the
 * returned index points at it, so "read but not consumed" is `input[pos']`.
 */
module Scanners {
  import opened Results
  import opened Chars
  import opened Tokens

  /* ----------------------------------------------------------------------
     Identifiers and keywords (parseWord, isKeyword)
     ---------------------------------------------------------------------- */

  /** The loop of `parseWord`: `word` holds the folded characters of
      `input[i - |word|..i]`; the next word character is appended unless the
      buffer is already full. */
  function WordLoop(input: string, i: nat, word: string, line: nat): (r: Result<Step, Error>)
    requires |word| <= i <= |input|
    requires |word| <= MaxIdentifierLength
    requires AllWordChars(input, i - |word|, i)
    requires word == LowerCase(input[i - |word|..i])
    decreases |input| - i
    ensures r.Success? ==>
      var start, e := i - |word|, r.value.pos;
      && i <= e <= |input|
      && e - start <= MaxIdentifierLength
      && AllWordChars(input, start, e)
      && !(e < |input| && IsWordChar(input[e]))
      && r.value.token == Some(WordToken(LowerCase(input[start..e])))
      && r.value.line == line
    ensures r.Failure? ==>
      var start := i - |word|;
      && r.error == Error(IdentifierTooLong, line, start + MaxIdentifierLength)
      && start + MaxIdentifierLength < |input|
      && AllWordChars(input, start, start + MaxIdentifierLength + 1)
  {
    if i < |input| && IsWordChar(input[i]) then
      if |word| >= MaxIdentifierLength then
        Failure(Error(IdentifierTooLong, line, i))
      else
        var start := i - |word|;
        assert word + [ToLower(input[i])] == LowerCase(input[start..i + 1]);
        WordLoop(input, i + 1, word + [ToLower(input[i])], line)
    else
      Success(Step(Some(WordToken(word)), i, line))
  }

  /** `parseWord`: the maximal run of letters, digits and `_` starting at a
      letter, case-folded, becomes a keyword or an identifier; a 31st
      character is fatal. */
  function ScanWord(input: string, pos: nat, line: nat): (r: Result<Step, Error>)
    requires pos < |input| && IsAlpha(input[pos])
    ensures r.Success? ==>
      var e := r.value.pos;
      && pos < e <= |input|
      && e - pos <= MaxIdentifierLength
      && AllWordChars(input, pos, e)
      && !(e < |input| && IsWordChar(input[e]))
      && r.value.token == Some(WordToken(LowerCase(input[pos..e])))
      && r.value.line == line
    ensures r.Failure? ==>
      && r.error == Error(IdentifierTooLong, line, pos + MaxIdentifierLength)
      && pos + MaxIdentifierLength < |input|
      && AllWordChars(input, pos, pos + MaxIdentifierLength + 1)
  {
    WordLoop(input, pos, [], line)
  }

  /* ----------------------------------------------------------------------
     Integer constants (parseNumber)
     ---------------------------------------------------------------------- */

  /** The loop of `parseNumber`: `digits` holds `input[i - |digits|..i]`;
      the next digit is appended unless the buffer is already full. */
  function DigitLoop(input: string, i: nat, digits: string, line: nat): (r: Result<Step, Error>)
    requires |digits| <= i <= |input|
    requires |digits| <= MaxIntegerDigits
    requires AllDigits(input, i - |digits|, i)
    requires digits == input[i - |digits|..i]
    decreases |input| - i
    ensures r.Success? ==>
      var start, e := i - |digits|, r.value.pos;
      && i <= e <= |input|
      && e - start <= MaxIntegerDigits
      && AllDigits(input, start, e)
      && !(e < |input| && IsDigit(input[e]))
      && r.value.token == Some(IntConst(input[start..e]))
      && r.value.line == line
    ensures r.Failure? ==>
      var start := i - |digits|;
      && r.error == Error(IntegerTooLong, line, start + MaxIntegerDigits)
      && start + MaxIntegerDigits < |input|
      && AllDigits(input, start, start + MaxIntegerDigits + 1)
  {
    if i < |input| && IsDigit(input[i]) then
      if |digits| >= MaxIntegerDigits then
        Failure(Error(IntegerTooLong, line, i))
      else
        var start := i - |digits|;
        assert ToLower(input[i]) == input[i];
        assert digits + [input[i]] == input[start..i + 1];
        DigitLoop(input, i + 1, digits + [ToLower(input[i])], line)
    else
      Success(Step(Some(IntConst(digits)), i, line))
  }

  /** `parseNumber`: a maximal run of at most 10 digits becomes an integer
      constant; an 11th digit, or a letter right after the run, is fatal. */
  function ScanNumber(input: string, pos: nat, line: nat): (r: Result<Step, Error>)
    requires pos < |input| && IsDigit(input[pos])
    ensures r.Success? ==>
      var e := r.value.pos;
      && pos < e <= |input|
      && e - pos <= MaxIntegerDigits
      && AllDigits(input, pos, e)
      && !(e < |input| && (IsDigit(input[e]) || IsAlpha(input[e])))
      && r.value.token == Some(IntConst(input[pos..e]))
      && r.value.line == line
    ensures r.Failure? ==>
      var at := r.error.at;
      && r.error.line == line
      && pos < at < |input|
      && ((&& r.error.kind == IntegerTooLong
           && at == pos + MaxIntegerDigits
           && AllDigits(input, pos, at + 1))
          ||
          (&& r.error.kind == InvalidIdentifier
           && at - pos <= MaxIntegerDigits
           && AllDigits(input, pos, at)
           && IsAlpha(input[at])))
  {
    match DigitLoop(input, pos, [], line)
    case Failure(e) => Failure(e)
    case Success(step) =>
      if step.pos < |input| && IsAlpha(input[step.pos]) then
        Failure(Error(InvalidIdentifier, line, step.pos))
      else
        Success(step)
  }

  /* ----------------------------------------------------------------------
     Whitespace (isSpace, skipSpace)
     ---------------------------------------------------------------------- */

  /** `skipSpace`: consumes the maximal run of blanks, tabs and newlines,
      counting the newlines; emits nothing and never fails. */
  function SkipSpace(input: string, pos: nat, line: nat): (r: Step)
    requires pos <= |input|
    decreases |input| - pos
    ensures pos <= r.pos <= |input|
    ensures pos < |input| && IsSpace(input[pos]) ==> pos < r.pos
    ensures AllSpaces(input, pos, r.pos)
    ensures !(r.pos < |input| && IsSpace(input[r.pos]))
    ensures r.token == None
    ensures r.line == line + NewlinesIn(input, pos, r.pos)
  {
    if pos < |input| && IsSpace(input[pos]) then
      SkipSpace(input, pos + 1, if input[pos] == '\n' then line + 1 else line)
    else
      Step(None, pos, line)
  }

  /* ----------------------------------------------------------------------
     Brackets (isBracket, parseBracket)
     ---------------------------------------------------------------------- */

  /** The bracket character a bracket token stands for. */
  function BracketChar(t: Token): Option<char> {
    match t
    case LeftPar => Some('(')
    case RightPar => Some(')')
    case LeftCurlyBracket => Some('{')
    case RightCurlyBracket => Some('}')
    case LeftSquareBracket => Some('[')
    case RightSquareBracket => Some(']')
    case _ => None
  }

  /** `parseBracket`: one bracket character becomes its named token. */
  function ScanBracket(input: string, pos: nat, line: nat): (r: Step)
    requires pos < |input| && IsBracket(input[pos])
    ensures r.pos == pos + 1 && r.line == line
    ensures r.token.Some? && BracketChar(r.token.value) == Some(input[pos])
  {
    var c := input[pos];
    var t :=
      if c == '(' then LeftPar
      else if c == ')' then RightPar
      else if c == '{' then LeftCurlyBracket
      else if c == '}' then RightCurlyBracket
      else if c == '[' then LeftSquareBracket
      else RightSquareBracket;
    Step(Some(t), pos + 1, line)
  }

  /* ----------------------------------------------------------------------
     String constants (parseStringConst)
     ---------------------------------------------------------------------- */

  /** No closing quote among `input[lo..hi]`. */
  predicate NoQuote(input: string, lo: nat, hi: nat)
    requires lo <= hi <= |input|
  {
    forall k :: lo <= k < hi ==> input[k] != '"'
  }

  /** The loop of `parseStringConst`: copies characters verbatim into
      `text`, counting newlines, until a closing quote or end of input. */
  function StringLoop(input: string, i: nat, text: string, line: nat): (r: Result<Step, Error>)
    requires i <= |input|
    decreases |input| - i
    ensures r.Success? ==>
      var q := r.value.pos - 1;
      && i <= q < |input|
      && input[q] == '"'
      && NoQuote(input, i, q)
      && r.value.token == Some(StrConst(text + input[i..q]))
      && r.value.line == line + NewlinesIn(input, i, q)
    ensures r.Failure? ==>
      && NoQuote(input, i, |input|)
      && r.error == Error(UnterminatedString, line + NewlinesIn(input, i, |input|), |input|)
  {
    if i == |input| then
      Failure(Error(UnterminatedString, line, i))
    else if input[i] == '"' then
      assert text + input[i..i] == text;
      Success(Step(Some(StrConst(text)), i + 1, line))
    else
      var r := StringLoop(input, i + 1, text + [input[i]], if input[i] == '\n' then line + 1 else line);
      assert r.Success? ==> text + [input[i]] + input[i + 1..r.value.pos - 1] == text + input[i..r.value.pos - 1];
      r
  }

  /** `parseStringConst`: everything up to the next `"` (quotes excluded,
      newlines included, no escapes) becomes a string constant; end of
      input before the closing quote is fatal. */
  function ScanString(input: string, pos: nat, line: nat): (r: Result<Step, Error>)
    requires pos < |input| && input[pos] == '"'
    ensures r.Success? ==>
      var q := r.value.pos - 1;
      && pos < q < |input|
      && input[q] == '"'
      && NoQuote(input, pos + 1, q)
      && r.value.token == Some(StrConst(input[pos + 1..q]))
      && r.value.line == line + NewlinesIn(input, pos + 1, q)
    ensures r.Failure? ==>
      && NoQuote(input, pos + 1, |input|)
      && r.error == Error(UnterminatedString, line + NewlinesIn(input, pos + 1, |input|), |input|)
  {
    var r := StringLoop(input, pos + 1, [], line);
    assert r.Success? ==> [] + input[pos + 1..r.value.pos - 1] == input[pos + 1..r.value.pos - 1];
    r
  }

  /* ----------------------------------------------------------------------
     Operators and block comments (isOperator, parseOperator)
     ---------------------------------------------------------------------- */

  /** `s` occurs in `input` at index `pos`. */
  predicate At(input: string, pos: nat, s: string) {
    pos + |s| <= |input| && input[pos..pos + |s|] == s
  }

  /** The character at index `i` exists and starts an operator. */
  predicate StarterAt(input: string, i: nat) {
    i < |input| && IsOperator(input[i])
  }

  /** The `n` characters at `pos` spell an operator of the table. */
  predicate OperatorAt(input: string, pos: nat, n: nat) {
    pos + n <= |input| && input[pos..pos + n] in OperatorTable
  }

  /** `op` is the longest operator of the table that occurs at `pos`: since
      no entry is longer than two characters, a one-character match is the
      longest exactly when no two-character entry occurs there. */
  predicate LongestOperatorAt(input: string, pos: nat, op: string) {
    && op in OperatorTable
    && At(input, pos, op)
    && (OperatorAt(input, pos, 2) ==> |op| == 2)
  }

  /** The shortcut in `LongestOperatorAt` is sound: no other operator of the
      table that occurs at `pos` is longer. */
  lemma LongestIsMaximal(input: string, pos: nat, op: string, o: string)
    requires LongestOperatorAt(input, pos, op)
    requires o in OperatorTable && At(input, pos, o)
    ensures |o| <= |op|
  {
    if |o| == 2 {
      assert input[pos..pos + 2] == o;
    }
  }

  /** A minus sign written directly before a digit. */
  predicate NegativeLiteralAt(input: string, pos: nat) {
    pos + 1 < |input| && input[pos] == '-' && IsDigit(input[pos + 1])
  }

  // A comment terminator `*/` starts at index `j`.
  predicate CloseAt(input: string, j: nat) {
    j + 1 < |input| && input[j] == '*' && input[j + 1] == '/'
  }

  /** `k` is the first comment terminator at or after index `i`. */
  predicate FirstCloseFrom(input: string, i: nat, k: nat) {
    i <= k && CloseAt(input, k) && forall j :: i <= j < k ==> !CloseAt(input, j)
  }

  /** No comment terminator starts at or after index `i`. */
  predicate NoCloseFrom(input: string, i: nat) {
    forall j :: i <= j < |input| ==> !CloseAt(input, j)
  }

  // The comment loop of `parseOperator`, entered after `/*`: every
  // character is examined once, newlines are counted, and a `*` looks one
  // character ahead for the closing `/`.
  function SkipComment(input: string, i: nat, line: nat): (r: Result<Step, Error>)
    requires i <= |input|
    decreases |input| - i
    ensures r.Success? ==>
      && r.value.token == None
      && r.value.pos >= 2
      && FirstCloseFrom(input, i, r.value.pos - 2)
      && r.value.line == line + NewlinesIn(input, i, r.value.pos - 2)
    ensures r.Failure? ==>
      && NoCloseFrom(input, i)
      && r.error == Error(UnterminatedComment, line + NewlinesIn(input, i, |input|), |input|)
  {
    if i == |input| then
      Failure(Error(UnterminatedComment, line, i))
    else
      var line' := if input[i] == '\n' then line + 1 else line;
      if input[i] == '*' && i + 1 == |input| then
        Failure(Error(UnterminatedComment, line', i + 1))
      else if input[i] == '*' && input[i + 1] == '/' then
        Success(Step(None, i + 2, line))
      else
        SkipComment(input, i + 1, line')
  }

  /** A two-character operator is the longest at its position. */
  lemma TwoCharLongest(input: string, pos: nat, op: string)
    requires op in OperatorTable && |op| == 2 && At(input, pos, op)
    ensures LongestOperatorAt(input, pos, op)
  {
  }

  /** A one-character operator is the longest when no two-character
      operator of the table starts with it and the next character. */
  lemma OneCharLongest(input: string, pos: nat)
    requires pos < |input| && [input[pos]] in OperatorTable
    requires !OperatorAt(input, pos, 2)
    ensures LongestOperatorAt(input, pos, [input[pos]])
  {
    assert input[pos..pos + 1] == [input[pos]];
  }

  /** The common tail of every operator branch: the operator `op` found at
      `pos` is emitted unless the character after it starts an operator. */
  function EmitOperator(input: string, pos: nat, op: string, line: nat): (r: Result<Step, Error>)
    requires At(input, pos, op) && |op| > 0
    ensures r.Success? <==> !StarterAt(input, pos + |op|)
    ensures r.Success? ==> r.value == Step(Some(Operator(op)), pos + |op|, line)
    ensures r.Failure? ==>
      r.error == Error(InvalidOperatorPair(input[pos], input[pos + |op|]), line, pos + |op|)
  {
    var e := pos + |op|;
    if StarterAt(input, e) then
      Failure(Error(InvalidOperatorPair(input[pos], input[e]), line, e))
    else
      Success(Step(Some(Operator(op)), e, line))
  }

  // What `parseOperator` promises for the scan of the operator-starter at
  // `pos`: the longest operator of the table, not followed by another
  // operator-starter; a block comment when `/*` opens here; or exactly one
  // of its four errors, each under the condition that causes it.
  predicate OperatorOutcome(input: string, pos: nat, line: nat, r: Result<Step, Error>)
    requires pos < |input|
  {
    match r
    case Success(step) =>
      (match step.token
      case Some(t) =>
        && t.Operator?
        && !At(input, pos, "/*")
        && !NegativeLiteralAt(input, pos)
        && LongestOperatorAt(input, pos, t.op)
        && step.pos == pos + |t.op|
        && !StarterAt(input, step.pos)
        && step.line == line
      case None =>
        && At(input, pos, "/*")
        && step.pos >= pos + 4
        && FirstCloseFrom(input, pos + 2, step.pos - 2)
        && step.line == line + NewlinesIn(input, pos + 2, step.pos - 2))
    case Failure(e) =>
      match e.kind
      case InvalidColon =>
        && !OperatorAt(input, pos, 1)
        && !OperatorAt(input, pos, 2)
        && e == Error(InvalidColon, line, pos + 1)
      case NegativeValue =>
        && NegativeLiteralAt(input, pos)
        && e == Error(NegativeValue, line, pos + 1)
      case UnterminatedComment =>
        && At(input, pos, "/*")
        && NoCloseFrom(input, pos + 2)
        && e == Error(UnterminatedComment, line + NewlinesIn(input, pos + 2, |input|), |input|)
      case InvalidOperatorPair(first, next) =>
        && !At(input, pos, "/*")
        && !NegativeLiteralAt(input, pos)
        && pos < e.at < |input|
        && LongestOperatorAt(input, pos, input[pos..e.at])
        && first == input[pos]
        && next == input[e.at]
        && IsOperator(next)
        && e.line == line
      case _ => false
  }

  /** Emitting the longest operator (outside a comment opener and a negative
      literal) meets the operator contract. */
  lemma EmitOutcome(input: string, pos: nat, op: string, line: nat)
    requires LongestOperatorAt(input, pos, op) && |op| > 0
    requires !At(input, pos, "/*") && !NegativeLiteralAt(input, pos)
    ensures OperatorOutcome(input, pos, line, EmitOperator(input, pos, op, line))
  {
    var r := EmitOperator(input, pos, op, line);
    if r.Failure? {
      assert input[pos..r.error.at] == op;
    }
  }

  /** A colon without `=` after it meets the operator contract. */
  lemma ColonOutcome(input: string, pos: nat, line: nat)
    requires pos < |input| && input[pos] == ':' && !(pos + 1 < |input| && input[pos + 1] == '=')
    ensures OperatorOutcome(input, pos, line, Failure(Error(InvalidColon, line, pos + 1)))
  {
  }

  /** A minus sign before a digit meets the operator contract. */
  lemma NegativeOutcome(input: string, pos: nat, line: nat)
    requires NegativeLiteralAt(input, pos)
    ensures OperatorOutcome(input, pos, line, Failure(Error(NegativeValue, line, pos + 1)))
  {
  }

  /** A comment opened at `pos` meets the operator contract. */
  lemma CommentOutcome(input: string, pos: nat, line: nat)
    requires At(input, pos, "/*")
    ensures OperatorOutcome(input, pos, line, SkipComment(input, pos + 2, line))
  {
  }

  /** The `:` branch of `parseOperator`: only `:=` is an operator. */
  function ScanColon(input: string, pos: nat, line: nat): (r: Result<Step, Error>)
    requires pos < |input| && input[pos] == ':'
    ensures OperatorOutcome(input, pos, line, r)
  {
    if pos + 1 < |input| && input[pos + 1] == '=' then
      TwoCharLongest(input, pos, ":=");
      EmitOutcome(input, pos, ":=", line);
      EmitOperator(input, pos, ":=", line)
    else
      ColonOutcome(input, pos, line);
      Failure(Error(InvalidColon, line, pos + 1))
  }

  // The `/` branch of `parseOperator`: `/*` opens a block comment,
  // otherwise `/` is an operator.
  function ScanSlash(input: string, pos: nat, line: nat): (r: Result<Step, Error>)
    requires pos < |input| && input[pos] == '/'
    ensures OperatorOutcome(input, pos, line, r)
  {
    if pos + 1 < |input| && input[pos + 1] == '*' then
      CommentOutcome(input, pos, line);
      SkipComment(input, pos + 2, line)
    else
      OneCharLongest(input, pos);
      EmitOutcome(input, pos, "/", line);
      EmitOperator(input, pos, "/", line)
  }

  /** The `+` branch of `parseOperator`: `++` or `+`. */
  function ScanPlus(input: string, pos: nat, line: nat): (r: Result<Step, Error>)
    requires pos < |input| && input[pos] == '+'
    ensures OperatorOutcome(input, pos, line, r)
  {
    if pos + 1 < |input| && input[pos + 1] == '+' then
      TwoCharLongest(input, pos, "++");
      EmitOutcome(input, pos, "++", line);
      EmitOperator(input, pos, "++", line)
    else
      OneCharLongest(input, pos);
      EmitOutcome(input, pos, "+", line);
      EmitOperator(input, pos, "+", line)
  }

  /** The `-` branch of `parseOperator`: `--` is checked before the
      negative-literal rule, then `-`. */
  function ScanMinus(input: string, pos: nat, line: nat): (r: Result<Step, Error>)
    requires pos < |input| && input[pos] == '-'
    ensures OperatorOutcome(input, pos, line, r)
  {
    if pos + 1 < |input| && input[pos + 1] == '-' then
      TwoCharLongest(input, pos, "--");
      EmitOutcome(input, pos, "--", line);
      EmitOperator(input, pos, "--", line)
    else if pos + 1 < |input| && IsDigit(input[pos + 1]) then
      NegativeOutcome(input, pos, line);
      Failure(Error(NegativeValue, line, pos + 1))
    else
      OneCharLongest(input, pos);
      EmitOutcome(input, pos, "-", line);
      EmitOperator(input, pos, "-", line)
  }

  /** The remaining branch of `parseOperator`: `*`. */
  function ScanStar(input: string, pos: nat, line: nat): (r: Result<Step, Error>)
    requires pos < |input| && input[pos] == '*'
    ensures OperatorOutcome(input, pos, line, r)
  {
    OneCharLongest(input, pos);
    EmitOutcome(input, pos, "*", line);
    EmitOperator(input, pos, "*", line)
  }

  // `parseOperator`: the longest operator of the table is matched
  // (`:=`, `++`, `--`, `+`, `-`, `*`, `/`) and must not be followed by
  // another operator-starter; `/*` opens a comment that emits nothing;
  // a lone `:` and a `-` before a digit are fatal.
  function ScanOperator(input: string, pos: nat, line: nat): (r: Result<Step, Error>)
    requires pos < |input| && IsOperator(input[pos])
    ensures OperatorOutcome(input, pos, line, r)
  {
    var first := input[pos];
    if first == ':' then ScanColon(input, pos, line)
    else if first == '/' then ScanSlash(input, pos, line)
    else if first == '+' then ScanPlus(input, pos, line)
    else if first == '-' then ScanMinus(input, pos, line)
    else ScanStar(input, pos, line)
  }
}
