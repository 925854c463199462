/**
 * How the PSI lexer ends.  Every fatal error calls `exitProgram` with an
 * exit code, and `exitProgram` treats code 0 as success: it keeps the
 * token file and reports a successful analysis (main.c:90-97).  The
 * sub-scanners always pass 1, but the dispatcher passes the rejected
 * character itself (main.c:83), so a NUL character at a dispatch point
 * ends the analysis as a success with the tokens emitted so far.
 *
 * `ScanAsWritten` models that loop as written; `Lexer.Scan` is the
 * corrected loop, in which every invalid character is an error.
 */
module Termination {
  import opened Results
  import opened Tokens
  import opened Lexer

  /** The code the analysis hands to `exitProgram` for a fatal error. */
  function ExitCode(e: Error): int {
    match e.kind
    case InvalidCharacter(c) => c as int
    case _ => 1
  }

  /** The dispatcher loop as written: an error whose exit code is 0 ends
      the loop like the end of input, keeping the tokens emitted before
      it. */
  function ScanAsWritten(input: string, pos: nat, line: nat): (r: Result<Lexed, Error>)
    requires pos <= |input|
    decreases |input| - pos
    ensures r.Failure? ==> ExitCode(r.error) != 0
    ensures Scan(input, pos, line).Success? ==> r == Scan(input, pos, line)
    ensures r.Failure? ==> r == Scan(input, pos, line)
    ensures Scan(input, pos, line).Failure? && ExitCode(Scan(input, pos, line).error) != 0
        ==> r == Scan(input, pos, line)
  {
    if pos == |input| then
      Success(Lexed([], line))
    else
      match DispatchOne(input, pos, line)
      case Failure(e) =>
        if ExitCode(e) == 0 then Success(Lexed([], line)) else Failure(e)
      case Success(step) =>
        match ScanAsWritten(input, step.pos, step.line)
        case Failure(e) => Failure(e)
        case Success(rest) => Success(Lexed(Emitted(step.token) + rest.tokens, rest.line))
  }

  /** Without a NUL character the loop as written and the corrected loop
      agree on every input. */
  lemma {:induction false} AsWrittenAgreesWithoutNul(input: string, pos: nat, line: nat)
    requires pos <= |input|
    requires forall k :: pos <= k < |input| ==> input[k] != '\0'
    ensures ScanAsWritten(input, pos, line) == Scan(input, pos, line)
    decreases |input| - pos
  {
    if pos < |input| {
      match DispatchOne(input, pos, line)
      case Failure(e) =>
        assert input[pos] != '\0';
      case Success(step) =>
        AsWrittenAgreesWithoutNul(input, step.pos, step.line);
    }
  }

  /** The only way the two loops part is the corrected loop rejecting a
      NUL character. */
  lemma AsWrittenDivergesOnlyAtNul(input: string, pos: nat, line: nat)
    requires pos <= |input|
    requires ScanAsWritten(input, pos, line) != Scan(input, pos, line)
    ensures ScanAsWritten(input, pos, line).Success?
    ensures Scan(input, pos, line).Failure?
    ensures Scan(input, pos, line).error.kind == InvalidCharacter('\0')
  {
    var e := Scan(input, pos, line).error;
    assert ExitCode(e) == 0;
    assert e.kind.InvalidCharacter? && e.kind.c as int == 0;
  }

  /** A NUL character after `;` ends the analysis as written as a success
      that drops the second `;`, while the corrected loop rejects the NUL
      on line 1. */
  lemma NulEndsAnalysisEarly(input: string)
    requires input == ";\0;"
    ensures ScanAsWritten(input, 0, 1) == Success(Lexed([EndOfLine], 1))
    ensures Tokenize(input) == Failure(Error(InvalidCharacter('\0'), 1, 1))
  {
    NulSteps(input);
  }

  lemma NulSteps(input: string)
    requires |input| == 3 && input[0] == ';' && input[1] == '\0' && input[2] == ';'
    ensures ScanAsWritten(input, 0, 1) == Success(Lexed([EndOfLine], 1))
    ensures Scan(input, 0, 1) == Failure(Error(InvalidCharacter('\0'), 1, 1))
  {
    assert !Classified(input[1]);
    assert DispatchOne(input, 1, 1) == Failure(Error(InvalidCharacter('\0'), 1, 1));
    assert ScanAsWritten(input, 1, 1) == Success(Lexed([], 1));
    assert DispatchOne(input, 0, 1) == Success(Step(Some(EndOfLine), 1, 1));
    assert Emitted(Some(EndOfLine)) + [] == [EndOfLine];
  }
}
