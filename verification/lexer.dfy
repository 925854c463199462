/**
 * The dispatcher of the PSI lexer: the loop of `main` (main.c:57-87) that
 * classifies the lookahead character, hands it to exactly one sub-scanner
 * and repeats until the input is exhausted or an error stops the analysis.
 */
module Lexer {
  import opened Results
  import opened Chars
  import opened Tokens
  import opened Scanners

  /** The lookahead characters some branch of the dispatcher accepts. */
  predicate Classified(c: char) {
    IsAlpha(c) || IsDigit(c) || IsOperator(c) || c == '"' || IsBracket(c) || IsSpace(c) || c == ';'
  }

  /** The classes the dispatcher tests in turn are pairwise disjoint, so the
      order of its branches decides nothing: a classified character belongs
      to exactly one of them. */
  lemma ClassesDisjoint(c: char)
    ensures IsAlpha(c) ==> !IsDigit(c) && !IsOperator(c) && c != '"' && !IsBracket(c) && !IsSpace(c) && c != ';'
    ensures IsDigit(c) ==> !IsOperator(c) && c != '"' && !IsBracket(c) && !IsSpace(c) && c != ';'
    ensures IsOperator(c) ==> c != '"' && !IsBracket(c) && !IsSpace(c) && c != ';'
    ensures c == '"' ==> !IsBracket(c) && !IsSpace(c)
    ensures IsBracket(c) ==> !IsSpace(c) && c != ';'
    ensures IsSpace(c) ==> c != ';'
  {
  }

  /** What every dispatch step guarantees: it consumes at least one
      character and stays inside the input, the line counter rises by the
      newlines consumed, and the emitted token is well formed; an error
      carries the line reached at the index where it was detected. */
  predicate SoundStep(input: string, pos: nat, line: nat, r: Result<Step, Error>)
    requires pos < |input|
  {
    match r
    case Success(step) =>
      && pos < step.pos <= |input|
      && step.line == line + NewlinesIn(input, pos, step.pos)
      && (step.token.Some? ==> WellFormed(step.token.value))
    case Failure(e) =>
      && pos <= e.at <= |input|
      && e.line == line + NewlinesIn(input, pos, e.at)
  }

  /** Lexemes made only of word characters hold no line break. */
  lemma WordRunHasNoNewline(input: string, lo: nat, hi: nat)
    requires lo <= hi <= |input| && AllWordChars(input, lo, hi)
    ensures NewlinesIn(input, lo, hi) == 0
  {
    NewlinesZero(input, lo, hi);
  }

  lemma WordStepSound(input: string, pos: nat, line: nat)
    requires pos < |input| && IsAlpha(input[pos])
    ensures SoundStep(input, pos, line, ScanWord(input, pos, line))
  {
    var r := ScanWord(input, pos, line);
    if r.Success? {
      var e := r.value.pos;
      WordRunHasNoNewline(input, pos, e);
      var w := LowerCase(input[pos..e]);
      assert IsLower(w[0]);
      assert forall k :: 0 <= k < |w| ==> IsWordChar(w[k]) && !IsUpper(w[k]) by {
        forall k | 0 <= k < |w|
          ensures IsWordChar(w[k]) && !IsUpper(w[k])
        {
          assert w[k] == ToLower(input[pos + k]);
        }
      }
    } else {
      WordRunHasNoNewline(input, pos, r.error.at);
    }
  }

  lemma NumberStepSound(input: string, pos: nat, line: nat)
    requires pos < |input| && IsDigit(input[pos])
    ensures SoundStep(input, pos, line, ScanNumber(input, pos, line))
  {
    var r := ScanNumber(input, pos, line);
    var end := if r.Success? then r.value.pos else r.error.at;
    NewlinesZero(input, pos, end);
  }

  /** The characters of a table operator hold no line break. */
  lemma OperatorHasNoNewline(input: string, pos: nat, op: string)
    requires At(input, pos, op) && op in OperatorTable
    ensures NewlinesIn(input, pos, pos + |op|) == 0
  {
    forall k | pos <= k < pos + |op|
      ensures input[k] != '\n'
    {
      assert input[k] == op[k - pos];
    }
    NewlinesZero(input, pos, pos + |op|);
  }

  /** The two characters of a comment delimiter hold no line break. */
  lemma DelimiterHasNoNewline(input: string, i: nat, d: string)
    requires At(input, i, d) && d in ["/*", "*/"]
    ensures NewlinesIn(input, i, i + 2) == 0
  {
    assert input[i] == d[0] && input[i + 1] == d[1];
    NewlinesZero(input, i, i + 2);
  }

  lemma CommentStepSound(input: string, pos: nat, line: nat, r: Result<Step, Error>)
    requires pos < |input| && OperatorOutcome(input, pos, line, r)
    requires r.Success? ==> r.value.token.None?
    requires r.Failure? ==> r.error.kind == UnterminatedComment
    ensures SoundStep(input, pos, line, r)
  {
    DelimiterHasNoNewline(input, pos, "/*");
    if r.Success? {
      var k := r.value.pos - 2;
      assert input[k..k + 2] == "*/";
      DelimiterHasNoNewline(input, k, "*/");
      NewlinesSplit(input, pos, pos + 2, r.value.pos);
      NewlinesSplit(input, pos + 2, k, r.value.pos);
    } else {
      NewlinesSplit(input, pos, pos + 2, |input|);
    }
  }

  lemma EmitStepSound(input: string, pos: nat, line: nat, op: string, r: Result<Step, Error>)
    requires pos < |input| && op in OperatorTable && At(input, pos, op)
    requires r.Success? ==> r.value == Step(Some(Operator(op)), pos + |op|, line) && pos + |op| <= |input|
    requires r.Failure? ==> r.error.at == pos + |op| && r.error.line == line
    ensures SoundStep(input, pos, line, r)
  {
    OperatorHasNoNewline(input, pos, op);
  }

  lemma OperatorStepSound(input: string, pos: nat, line: nat)
    requires pos < |input| && IsOperator(input[pos])
    ensures SoundStep(input, pos, line, ScanOperator(input, pos, line))
  {
    var r := ScanOperator(input, pos, line);
    if r.Success? {
      if r.value.token.Some? {
        EmitStepSound(input, pos, line, r.value.token.value.op, r);
      } else {
        CommentStepSound(input, pos, line, r);
      }
    } else if r.error.kind.InvalidOperatorPair? {
      EmitStepSound(input, pos, line, input[pos..r.error.at], r);
    } else if r.error.kind == UnterminatedComment {
      CommentStepSound(input, pos, line, r);
    }
  }

  lemma StringStepSound(input: string, pos: nat, line: nat)
    requires pos < |input| && input[pos] == '"'
    ensures SoundStep(input, pos, line, ScanString(input, pos, line))
  {
    var r := ScanString(input, pos, line);
    if r.Success? {
      var q := r.value.pos - 1;
      NewlinesSplit(input, pos, pos + 1, q);
      NewlinesSplit(input, pos, q, q + 1);
      assert '"' !in r.value.token.value.text by {
        forall k | 0 <= k < |r.value.token.value.text|
          ensures r.value.token.value.text[k] != '"'
        {
          assert r.value.token.value.text[k] == input[pos + 1 + k];
        }
      }
    } else {
      NewlinesSplit(input, pos, pos + 1, |input|);
    }
  }

  /** One pass of the dispatcher's loop: the lookahead's class picks the
      sub-scanner; `;` is handled inline; anything else is an invalid
      character. */
  function DispatchOne(input: string, pos: nat, line: nat): (r: Result<Step, Error>)
    requires pos < |input|
    ensures SoundStep(input, pos, line, r)
    ensures !Classified(input[pos]) <==> r == Failure(Error(InvalidCharacter(input[pos]), line, pos))
    ensures r.Failure? ==> (r.error.kind.InvalidCharacter? <==> !Classified(input[pos]))
  {
    var c := input[pos];
    if IsAlpha(c) then
      WordStepSound(input, pos, line);
      ScanWord(input, pos, line)
    else if IsDigit(c) then
      NumberStepSound(input, pos, line);
      ScanNumber(input, pos, line)
    else if IsOperator(c) then
      OperatorStepSound(input, pos, line);
      ScanOperator(input, pos, line)
    else if c == '"' then
      StringStepSound(input, pos, line);
      ScanString(input, pos, line)
    else if IsBracket(c) then
      Success(ScanBracket(input, pos, line))
    else if IsSpace(c) then
      Success(SkipSpace(input, pos, line))
    else if c == ';' then
      Success(Step(Some(EndOfLine), pos + 1, line))
    else
      Failure(Error(InvalidCharacter(c), line, pos))
  }

  /** Every token of `ts` is well formed. */
  predicate AllWellFormed(ts: seq<Token>) {
    forall i :: 0 <= i < |ts| ==> WellFormed(ts[i])
  }

  lemma WellFormedConcat(a: seq<Token>, b: seq<Token>)
    requires AllWellFormed(a) && AllWellFormed(b)
    ensures AllWellFormed(a + b)
  {
    forall i | 0 <= i < |a + b|
      ensures WellFormed((a + b)[i])
    {
      if i < |a| {
        assert (a + b)[i] == a[i];
      } else {
        assert (a + b)[i] == b[i - |a|];
      }
    }
  }

  /** The token a step emitted, as a sequence of zero or one tokens. */
  function Emitted(t: Option<Token>): seq<Token> {
    match t
    case None => []
    case Some(x) => [x]
  }

  /** The dispatcher loop from lookahead index `pos` with line counter
      `line`: all tokens up to the end of input, or the first error. */
  function Scan(input: string, pos: nat, line: nat): (r: Result<Lexed, Error>)
    requires pos <= |input|
    decreases |input| - pos
    ensures r.Success? ==>
      && r.value.line == line + NewlinesIn(input, pos, |input|)
      && AllWellFormed(r.value.tokens)
    ensures r.Failure? ==>
      && pos <= r.error.at <= |input|
      && r.error.line == line + NewlinesIn(input, pos, r.error.at)
  {
    if pos == |input| then
      Success(Lexed([], line))
    else
      match DispatchOne(input, pos, line)
      case Failure(e) => Failure(e)
      case Success(step) =>
        match Scan(input, step.pos, step.line)
        case Failure(e) =>
          NewlinesSplit(input, pos, step.pos, e.at);
          Failure(e)
        case Success(rest) =>
          NewlinesSplit(input, pos, step.pos, |input|);
          WellFormedConcat(Emitted(step.token), rest.tokens);
          Success(Lexed(Emitted(step.token) + rest.tokens, rest.line))
  }

  /** The whole analysis: start at the first character on line 1. */
  function Tokenize(input: string): (r: Result<Lexed, Error>)
    ensures r.Success? ==> r.value.line == 1 + NewlinesIn(input, 0, |input|)
    ensures r.Failure? ==>
      && r.error.at <= |input|
      && r.error.line == 1 + NewlinesIn(input, 0, r.error.at)
  {
    Scan(input, 0, 1)
  }
}
