/**
 * Tokens, lexical errors and scanner steps of the PSI lexer, the keyword and
 * operator tables, and the one-line textual form in which main.c writes each
 * token to its output file.
 */
module Tokens {
  import opened Results
  import opened Chars

  /** Longest identifier the word scanner accepts. */
  const MaxIdentifierLength: nat := 30

  /** Most digits the integer scanner accepts. */
  const MaxIntegerDigits: nat := 10

  /** The 18 reserved words of `isKeyword`, in table order. */
  const KeywordTable: seq<string> :=
    ["break", "case", "char", "const", "continue", "do", "else", "enum", "float",
     "for", "goto", "if", "int", "long", "record", "return", "static", "while"]

  predicate IsKeyword(w: string) {
    w in KeywordTable
  }

  /** Every reserved word is written in lower-case letters and fits the
      nine-byte rows of the C table, so only case-folded text can match
      one, and a matching word is never longer than an identifier. */
  lemma KeywordShape(w: string)
    requires IsKeyword(w)
    ensures 2 <= |w| <= 8
    ensures forall k :: 0 <= k < |w| ==> IsLower(w[k])
  {
  }

  /** Every operator text the operator scanner can emit. */
  const OperatorTable: seq<string> := [":=", "++", "--", "+", "-", "*", "/"]

  datatype Token =
    | Keyword(word: string)
    | Identifier(name: string)
    | IntConst(digits: string)
    | Operator(op: string)
    | StrConst(text: string)
    | LeftPar
    | RightPar
    | LeftCurlyBracket
    | RightCurlyBracket
    | LeftSquareBracket
    | RightSquareBracket
    | EndOfLine

  /** The fatal conditions the lexer reports; each stops the analysis. */
  datatype ErrKind =
    | InvalidCharacter(c: char)            // no class claims the lookahead
    | IdentifierTooLong                    // a 31st identifier character
    | IntegerTooLong                       // an 11th digit
    | InvalidIdentifier                    // a letter right after a digit run
    | InvalidColon                         // ':' not followed by '='
    | InvalidOperatorPair(first: char, next: char)  // an operator-starter after an operator
    | NegativeValue                        // '-' directly followed by a digit
    | UnterminatedComment                  // end of input inside /* ... */
    | UnterminatedString                   // end of input inside "..."

  /** An error with the line reported for it; `at` is the input index the
      cursor had reached when the failure was detected. */
  datatype Error = Error(kind: ErrKind, line: nat, at: nat)

  /** What one sub-scanner leaves behind: the token it emitted (if any), the
      index of the new lookahead character and the updated line counter. */
  datatype Step = Step(token: Option<Token>, pos: nat, line: nat)

  /** A completed analysis: the emitted tokens and the final line counter. */
  datatype Lexed = Lexed(tokens: seq<Token>, line: nat)

  /** The token `parseWord` writes for an already case-folded run. */
  function WordToken(w: string): (t: Token)
    ensures t.Keyword? <==> IsKeyword(w)
    ensures t.Keyword? ==> t.word == w
    ensures t.Identifier? ==> t.name == w
    ensures t.Keyword? || t.Identifier?
  {
    if IsKeyword(w) then Keyword(w) else Identifier(w)
  }

  /** The shape every token the lexer emits has. */
  predicate WellFormed(t: Token) {
    match t
    case Keyword(w) => IsKeyword(w)
    case Identifier(w) =>
      && 1 <= |w| <= MaxIdentifierLength
      && IsLower(w[0])
      && !IsKeyword(w)
      && (forall k :: 0 <= k < |w| ==> IsWordChar(w[k]) && !IsUpper(w[k]))
    case IntConst(d) =>
      && 1 <= |d| <= MaxIntegerDigits
      && (forall k :: 0 <= k < |d| ==> IsDigit(d[k]))
    case Operator(o) => o in OperatorTable
    case StrConst(s) => '"' !in s
    case _ => true
  }

  /** The name `main.c` writes for each kind of token. */
  function KindName(t: Token): string {
    match t
    case Keyword(_) => "Keyword"
    case Identifier(_) => "Identifier"
    case IntConst(_) => "IntConst"
    case Operator(_) => "Operator"
    case StrConst(_) => "StrConst"
    case LeftPar => "LeftPar"
    case RightPar => "RightPar"
    case LeftCurlyBracket => "LeftCurlyBracket"
    case RightCurlyBracket => "RightCurlyBracket"
    case LeftSquareBracket => "LeftSquareBracket"
    case RightSquareBracket => "RightSquareBracket"
    case EndOfLine => "EndOfLine"
  }

  /** The lexeme written between parentheses, for the kinds that carry one. */
  function Lexeme(t: Token): Option<string> {
    match t
    case Keyword(w) => Some(w)
    case Identifier(w) => Some(w)
    case IntConst(d) => Some(d)
    case Operator(o) => Some(o)
    case StrConst(s) => Some(s)
    case _ => None
  }

  /** The text main.c writes for a token, without its trailing newline:
      `Kind(lexeme)` or the bare kind name. */
  function Render(t: Token): string {
    match Lexeme(t)
    case None => KindName(t)
    case Some(l) => KindName(t) + "(" + l + ")"
  }

  /** Kind names are non-empty words of letters. */
  lemma KindNameLetters(t: Token)
    ensures |KindName(t)| > 0
    ensures forall k :: 0 <= k < |KindName(t)| ==> IsAlpha(KindName(t)[k])
  {
  }

  /** A token's text holds a line break exactly when its lexeme does, and
      ends in `)` exactly when it carries a lexeme. */
  lemma RenderLines(t: Token)
    ensures '\n' in Render(t) <==> Lexeme(t).Some? && '\n' in Lexeme(t).value
    ensures |Render(t)| > 0
    ensures Render(t)[|Render(t)| - 1] == ')' <==> Lexeme(t).Some?
  {
    var k := KindName(t);
    KindNameLetters(t);
    assert '\n' !in k && ')' !in k by {
      forall i | 0 <= i < |k| ensures k[i] != '\n' && k[i] != ')' {
        assert IsAlpha(k[i]);
      }
    }
    match Lexeme(t)
    case None =>
    case Some(l) =>
      var r := k + "(" + l + ")";
      assert r == k + ("(" + l + ")");
      if '\n' in r {
        var i :| 0 <= i < |r| && r[i] == '\n';
        assert i >= |k| + 1 && i < |r| - 1;
        assert l[i - |k| - 1] == '\n';
      }
      if '\n' in l {
        var j :| 0 <= j < |l| && l[j] == '\n';
        assert r[|k| + 1 + j] == '\n';
      }
  }

  /** The lexeme of `t`, if any, holds no line break. */
  predicate SingleLine(t: Token) {
    Lexeme(t).None? || '\n' !in Lexeme(t).value
  }

  /** The contents of the output file for a token sequence: each token's
      text followed by a line break. */
  function FileOf(ts: seq<Token>): string {
    if |ts| == 0 then [] else Render(ts[0]) + "\n" + FileOf(ts[1..])
  }

  /** The first index of `c` in `s`, if any. */
  function IndexOf(s: string, c: char): (r: Option<nat>)
    ensures r.Some? ==> r.value < |s| && s[r.value] == c && c !in s[..r.value]
    ensures r.None? ==> c !in s
  {
    if |s| == 0 then None
    else if s[0] == c then Some(0)
    else
      match IndexOf(s[1..], c)
      case None => None
      case Some(i) => assert s[..i + 1] == [s[0]] + s[1..][..i]; Some(i + 1)
  }

  /** The token of a bare kind name, for the kinds without a lexeme. */
  function BareToken(name: string): Option<Token> {
    if name == "LeftPar" then Some(LeftPar)
    else if name == "RightPar" then Some(RightPar)
    else if name == "LeftCurlyBracket" then Some(LeftCurlyBracket)
    else if name == "RightCurlyBracket" then Some(RightCurlyBracket)
    else if name == "LeftSquareBracket" then Some(LeftSquareBracket)
    else if name == "RightSquareBracket" then Some(RightSquareBracket)
    else if name == "EndOfLine" then Some(EndOfLine)
    else None
  }

  /** The token of a kind name and its lexeme, for the kinds that carry one. */
  function LexemeToken(name: string, l: string): Option<Token> {
    if name == "Keyword" then Some(Keyword(l))
    else if name == "Identifier" then Some(Identifier(l))
    else if name == "IntConst" then Some(IntConst(l))
    else if name == "Operator" then Some(Operator(l))
    else if name == "StrConst" then Some(StrConst(l))
    else None
  }

  /** Reads one output line back into the token it stands for: a line
      ending in `)` is `Kind(lexeme)`, split at its first `(`; any other
      line is a bare kind name. */
  function Unrender(line: string): Option<Token> {
    if |line| == 0 || line[|line| - 1] != ')' then BareToken(line)
    else
      match IndexOf(line, '(')
      case None => None
      case Some(i) =>
        if i + 2 <= |line| then LexemeToken(line[..i], line[i + 1..|line| - 1])
        else None
  }

  /** `IndexOf` finds the first occurrence: the one with no earlier copy. */
  lemma IndexOfFirst(s: string, c: char, k: nat)
    requires k < |s| && s[k] == c && c !in s[..k]
    ensures IndexOf(s, c) == Some(k)
  {
    assert s[k] in s;
  }

  /** A line made of a kind name and a lexeme is read back as that pair. */
  lemma UnrenderLexeme(name: string, l: string)
    requires '(' !in name
    ensures Unrender(name + "(" + l + ")") == LexemeToken(name, l)
  {
    var line := name + "(" + l + ")";
    assert line[..|name|] == name;
    IndexOfFirst(line, '(', |name|);
    assert line[|name| + 1..|line| - 1] == l;
  }

  /** Tokens with a lexeme are read back from `Kind(lexeme)`. */
  lemma LexemeRoundTrip(t: Token)
    requires Lexeme(t).Some?
    ensures Unrender(Render(t)) == Some(t)
  {
    var l := Lexeme(t).value;
    assert Render(t) == KindName(t) + "(" + l + ")";
    match t
    case Keyword(_) => UnrenderLexeme("Keyword", l);
    case Identifier(_) => UnrenderLexeme("Identifier", l);
    case IntConst(_) => UnrenderLexeme("IntConst", l);
    case Operator(_) => UnrenderLexeme("Operator", l);
    case StrConst(_) => UnrenderLexeme("StrConst", l);
  }

  /** Tokens without a lexeme are read back from their bare name. */
  lemma BareRoundTrip(t: Token)
    requires Lexeme(t).None?
    ensures Unrender(Render(t)) == Some(t)
  {
    assert Render(t) == KindName(t);
  }

  /** The output line of a token identifies the token: reading it back gives
      the token that was written. */
  lemma RenderRoundTrip(t: Token)
    ensures Unrender(Render(t)) == Some(t)
  {
    if Lexeme(t).Some? {
      LexemeRoundTrip(t);
    } else {
      BareRoundTrip(t);
    }
  }

  /** Distinct tokens are written as distinct lines. */
  lemma RenderInjective(t1: Token, t2: Token)
    requires Render(t1) == Render(t2)
    ensures t1 == t2
  {
    RenderRoundTrip(t1);
    RenderRoundTrip(t2);
  }

  /** The first line break of `r + "\n" + rest` ends `r` when `r` holds
      none. */
  lemma FirstLine(r: string, rest: string)
    requires '\n' !in r
    ensures IndexOf(r + "\n" + rest, '\n') == Some(|r|)
    ensures (r + "\n" + rest)[..|r|] == r
    ensures (r + "\n" + rest)[|r| + 1..] == rest
  {
    var f := r + "\n" + rest;
    assert f[..|r|] == r;
    IndexOfFirst(f, '\n', |r|);
  }

  /** Each token of `ts` is written on a line of its own. */
  predicate AllSingleLine(ts: seq<Token>) {
    forall i :: 0 <= i < |ts| ==> SingleLine(ts[i])
  }

  /** The first line of a non-empty file is the text of its first token,
      and the rest is the file of the remaining tokens. */
  lemma FileHead(ts: seq<Token>)
    requires |ts| > 0 && AllSingleLine(ts)
    ensures AllSingleLine(ts[1..])
    ensures IndexOf(FileOf(ts), '\n') == Some(|Render(ts[0])|)
    ensures FileOf(ts)[..|Render(ts[0])|] == Render(ts[0])
    ensures FileOf(ts)[|Render(ts[0])| + 1..] == FileOf(ts[1..])
  {
    assert SingleLine(ts[0]);
    RenderLines(ts[0]);
    FirstLine(Render(ts[0]), FileOf(ts[1..]));
    forall i | 0 <= i < |ts[1..]|
      ensures SingleLine(ts[1..][i])
    {
      assert ts[1..][i] == ts[i + 1];
    }
  }

  /** When no lexeme holds a line break, the output file determines the
      token sequence: each line is one token. */
  lemma {:induction false} FileInjective(a: seq<Token>, b: seq<Token>)
    requires AllSingleLine(a) && AllSingleLine(b)
    requires FileOf(a) == FileOf(b)
    ensures a == b
    decreases |a|
  {
    if |a| == 0 || |b| == 0 {
      assert |FileOf(a)| == 0 <==> |a| == 0;
      assert |FileOf(b)| == 0 <==> |b| == 0;
    } else {
      FileHead(a);
      FileHead(b);
      RenderInjective(a[0], b[0]);
      FileInjective(a[1..], b[1..]);
      assert a == [a[0]] + a[1..] && b == [b[0]] + b[1..];
    }
  }

  /** The output file of a one-token and a two-token sequence. */
  lemma FileOfShort(t: Token, u: Token)
    ensures FileOf([t]) == Render(t) + "\n"
    ensures FileOf([t, u]) == Render(t) + "\n" + (Render(u) + "\n")
  {
    assert [t, u][1..] == [u];
    assert [t][1..] == [] && [u][1..] == [];
  }

  /** The text of a string constant. */
  lemma RenderString(s: string)
    ensures Render(StrConst(s)) == "StrConst(" + s + ")"
  {
  }

  /** A string constant holding a line break can spell the text of several
      tokens: one constant and two constants give the same file. */
  lemma FileAmbiguous()
    ensures FileOf([StrConst("a)\nStrConst(b")]) == FileOf([StrConst("a"), StrConst("b")])
    ensures [StrConst("a)\nStrConst(b")] != [StrConst("a"), StrConst("b")]
  {
    var one, a, b := StrConst("a)\nStrConst(b"), StrConst("a"), StrConst("b");
    FileOfShort(one, one);
    FileOfShort(a, b);
    RenderString("a)\nStrConst(b");
    RenderString("a");
    RenderString("b");
  }
}
