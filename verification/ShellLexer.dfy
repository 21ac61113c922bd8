/** The shell's tokens (sh.c: gettoken, peek), over a line without NULs. */
module ShellLexer {
  const NUL := '\0'
  const WORD := 'a'
  const APPEND := '+'            // >>

  /** kind is the symbol itself, WORD or APPEND; the text is [b, e) of the line. */
  datatype Token = Token(kind: char, b: nat, e: nat)

  predicate White(c: char) {
    c in " \t\r\n\U{0B}"
  }

  predicate Symbol(c: char) {
    c in "<|>&;()"
  }

  predicate Plain(c: char) {
    !White(c) && !Symbol(c)
  }

  /** The first position from i on that is not white. */
  function Skip(s: string, i: nat): (j: nat)
    requires i <= |s|
    ensures i <= j <= |s| && (forall k :: i <= k < j ==> White(s[k])) && (j < |s| ==> !White(s[j]))
    decreases |s| - i
  {
    if i < |s| && White(s[i]) then Skip(s, i + 1) else i
  }

  /** Where the plain characters from i on end. */
  function WordEnd(s: string, i: nat): (j: nat)
    requires i <= |s|
    ensures i <= j <= |s| && (forall k :: i <= k < j ==> Plain(s[k])) && (j < |s| ==> !Plain(s[j]))
    decreases |s| - i
  {
    if i < |s| && Plain(s[i]) then WordEnd(s, i + 1) else i
  }

  function TokenAt(s: string, i: nat): (t: Token)
    requires i < |s| && !White(s[i])
    ensures t.b == i < t.e <= |s|
  {
    if s[i] == '>' then
      if i + 1 < |s| && s[i + 1] == '>' then Token(APPEND, i, i + 2) else Token('>', i, i + 1)
    else if Symbol(s[i]) then Token(s[i], i, i + 1)
    else Token(WORD, i, WordEnd(s, i))
  }

  /** All tokens from i on. */
  function Lex(s: string, i: nat): seq<Token>
    requires i <= |s|
    decreases |s| - i
  {
    var j := Skip(s, i);
    if j == |s| then [] else [TokenAt(s, j)] + Lex(s, TokenAt(s, j).e)
  }

  /** A word is a longest run of plain characters, and not an empty one. */
  predicate WordOk(s: string, t: Token) {
    && t.b < t.e <= |s| && (forall k :: t.b <= k < t.e ==> Plain(s[k]))
    && (t.e < |s| ==> !Plain(s[t.e])) && (t.b > 0 ==> !Plain(s[t.b - 1]))
  }

  /** The text of a token tells its kind: a word starts with a plain character, >> is one token, and any
      other symbol is a token of its own. */
  predicate KindOk(s: string, t: Token) {
    && t.b < t.e <= |s|
    && (t.kind == WORD <==> Plain(s[t.b])) && (t.kind == APPEND <==> s[t.b..t.e] == ">>")
    && (t.kind != WORD && t.kind != APPEND ==> s[t.b..t.e] == [t.kind] && Symbol(t.kind))
    && (t.kind == '>' && t.e < |s| ==> s[t.e] != '>')
  }

  lemma TokenKind(s: string, i: nat)
    requires i < |s| && !White(s[i])
    ensures KindOk(s, TokenAt(s, i))
  {
    var t := TokenAt(s, i);
    if t.kind == APPEND { assert s[t.b..t.e] == [s[t.b]] + [s[t.b + 1]]; }
    else if t.kind != WORD { assert s[t.b..t.e] == [s[t.b]]; }
    else { assert s[t.b..t.e][0] == s[t.b]; }
  }

  /** Every token lies in the line, its text tells its kind, and a word is a longest one. */
  lemma {:induction false} LexAt(s: string, i: nat, k: nat)
    requires i <= |s| && (0 < i < |s| && Plain(s[i]) ==> !Plain(s[i - 1])) && k < |Lex(s, i)|
    ensures var t := Lex(s, i)[k]; i <= t.b < t.e <= |s| && (t.kind == WORD ==> WordOk(s, t)) && KindOk(s, t)
    decreases |s| - i
  {
    var t := TokenAt(s, Skip(s, i));
    TokenKind(s, Skip(s, i));
    if k > 0 { LexAt(s, t.e, k - 1); }
  }

  /** Tokens come in order without overlapping. */
  lemma {:induction false} LexOrdered(s: string, i: nat, j: nat, k: nat)
    requires i <= |s| && j < k < |Lex(s, i)|
    ensures Lex(s, i)[j].e <= Lex(s, i)[k].b
    decreases |s| - i
  {
    var t := TokenAt(s, Skip(s, i));
    if j > 0 { LexOrdered(s, t.e, j - 1, k - 1); } else { LexFrom(s, t.e, k - 1); }
  }

  lemma {:induction false} LexFrom(s: string, i: nat, k: nat)
    requires i <= |s| && k < |Lex(s, i)|
    ensures i <= Lex(s, i)[k].b
    decreases |s| - i
  {
    if k > 0 { LexFrom(s, TokenAt(s, Skip(s, i)).e, k - 1); }
  }

  /** Whatever is not white is in a token. */
  lemma {:induction false} LexCovers(s: string, i: nat, p: nat) returns (k: nat)
    requires i <= p < |s| && !White(s[p])
    ensures k < |Lex(s, i)| && Lex(s, i)[k].b <= p < Lex(s, i)[k].e
    decreases |s| - i
  {
    var t := TokenAt(s, Skip(s, i));
    if p < t.e {
      k := 0;
    } else {
      k := LexCovers(s, t.e, p);
      k := k + 1;
    }
  }

  lemma {:induction false} LexSkips(s: string, i: nat)
    requires i <= |s|
    ensures Lex(s, Skip(s, i)) == Lex(s, i)
  {
    assert Skip(s, Skip(s, i)) == Skip(s, i);
  }

  /** Does the next token start with one of these symbols? */
  predicate Next(ts: seq<Token>, toks: string) {
    ts != [] && (ts[0].kind in toks || (ts[0].kind == APPEND && '>' in toks))
  }

  // ---------------------------------------------------------------- the scanning methods

  /** A NUL-terminated line: es is where it ends. */
  ghost predicate Ends(buf: array<char>, es: nat)
    reads buf
  {
    es < buf.Length && buf[es] == NUL && forall i :: 0 <= i < es ==> buf[i] != NUL
  }

  /** The loop over white space, in both. */
  method SkipWhite(buf: array<char>, es: nat, ps: nat) returns (s: nat)
    requires Ends(buf, es) && ps <= es
    ensures s == Skip(buf[..es], ps)
  {
    ghost var line: string := buf[..es];
    s := ps;
    while s < es && White(buf[s])
      invariant ps <= s <= es && Skip(line, s) == Skip(line, ps)
    {
      s := s + 1;
    }
  }

  /** The switch of gettoken. */
  method Scan(buf: array<char>, es: nat, q: nat) returns (kind: char, s: nat)
    requires Ends(buf, es) && q <= es && !White(buf[q])
    ensures if q < es then Token(kind, q, s) == TokenAt(buf[..es], q) && kind != NUL else kind == NUL && s == es
  {
    ghost var line: string := buf[..es];
    kind, s := buf[q], q;
    if buf[s] == '>' {
      s := s + 1;
      if buf[s] == '>' {
        kind := APPEND;
        s := s + 1;
      }
    } else if Symbol(buf[s]) {
      s := s + 1;
    } else if buf[s] != NUL {
      kind := WORD;
      while s < es && Plain(buf[s])
        invariant q <= s <= es && WordEnd(line, s) == WordEnd(line, q)
      {
        s := s + 1;
      }
    }
  }

  /** gettoken: takes the first token off, or gives NUL at the end. */
  method GetToken(buf: array<char>, es: nat, ps: nat) returns (kind: char, q: nat, eq: nat, s: nat)
    requires Ends(buf, es) && ps <= es
    ensures ps <= s <= es
    ensures Lex(buf[..es], ps) == [] ==> kind == NUL && Lex(buf[..es], s) == []
    ensures Lex(buf[..es], ps) != [] ==> kind != NUL && ps < s && Lex(buf[..es], ps) == [Token(kind, q, eq)] + Lex(buf[..es], s)
  {
    q := SkipWhite(buf, es, ps);
    kind, eq := Scan(buf, es, q);
    s := SkipWhite(buf, es, eq);
    LexSkips(buf[..es], eq);
  }

  /** Does the next token start with one of toks?  Moves over white space only. */
  method Peek(buf: array<char>, es: nat, ps: nat, toks: string) returns (r: bool, s: nat)
    requires Ends(buf, es) && ps <= es && forall c :: c in toks ==> Symbol(c)
    ensures ps <= s <= es && Lex(buf[..es], s) == Lex(buf[..es], ps)
    ensures r <==> Next(Lex(buf[..es], ps), toks)
    ensures s == es <==> Lex(buf[..es], ps) == []
  {
    s := SkipWhite(buf, es, ps);
    LexSkips(buf[..es], ps);
    r := buf[s] != NUL && buf[s] in toks;
  }
}
