/** The shell's parser on the line itself (sh.c: parsecmd and below), and the NULs it puts behind words. */
module ShellParser {
  import opened ShellLexer
  import opened ShellGrammar
  import opened ShellRedirs

  /** What a method found, where the tokens left over are now rest. */
  predicate Agrees(p: Parsed, cmd: Option<Cmd>, rest: seq<Token>) {
    if cmd.None? then p.Panic? else p == Ok(cmd.value, rest)
  }

  lemma RedirsStep(c: Cmd, ts: seq<Token>, t: Token, more: seq<Token>)
    requires ts == [t] + more && Next(ts, "<>")
    ensures ReadRedirs(c, ts) ==
      if more != [] && more[0].kind == WORD then ReadRedirs(Redirected(c, t.kind, more[0]), more[1..]) else Panic
  {
    assert ts[1..] == more;
    if more != [] { assert ts[2..] == more[1..]; }
  }

  lemma ItemsStep(c: Cmd, argc: nat, ts: seq<Token>, t: Token, more: seq<Token>)
    requires ts == [t] + more && !Next(ts, "<>") && !Next(ts, "|)&;")
    ensures ReadItems(c, argc, ts) ==
      if t.kind != WORD || argc + 1 >= MAXARGS then Panic else ReadItems(AddWord(c, t), argc + 1, more)
  {
    assert ts[1..] == more && ReadRedirs(c, ts) == Ok(c, ts);
  }

  /** What redirections come first is read first. */
  lemma ItemsAfter(c: Cmd, argc: nat, ts: seq<Token>)
    ensures ReadItems(c, argc, ts) ==
      var p := ReadRedirs(c, ts); if p.Panic? then Panic else ReadItems(p.cmd, argc, p.rest)
  {
    var p := ReadRedirs(c, ts);
    if p.Ok? { assert ReadRedirs(p.cmd, p.rest) == p; }
  }

  method ParseRedirs(c: Cmd, buf: array<char>, es: nat, ps: nat) returns (cmd: Option<Cmd>, s: nat)
    requires Ends(buf, es) && ps <= es
    ensures ps <= s <= es && Agrees(ReadRedirs(c, Lex(buf[..es], ps)), cmd, Lex(buf[..es], s))
  {
    ghost var line: string := buf[..es];
    ghost var p := ReadRedirs(c, Lex(line, ps));
    var cur, more := c, false;
    more, s := Peek(buf, es, ps, "<>");
    while more
      invariant ps <= s <= es && ReadRedirs(cur, Lex(line, s)) == p && (more <==> Next(Lex(line, s), "<>"))
      decreases es - s
    {
      var tok, b, e, s1 := GetToken(buf, es, s);
      RedirsStep(cur, Lex(line, s), Token(tok, b, e), Lex(line, s1));
      var kind, q, eq;
      kind, q, eq, s := GetToken(buf, es, s1);
      if kind != WORD {
        return None, s;
      }
      cur := Redirected(cur, tok, Token(kind, q, eq));
      more, s := Peek(buf, es, s, "<>");
    }
    cmd := Some(cur);
  }

  method ParseBlock(buf: array<char>, es: nat, ps: nat) returns (cmd: Option<Cmd>, s: nat)
    requires Ends(buf, es) && ps <= es && Next(Lex(buf[..es], ps), "(")
    ensures ps <= s <= es && Agrees(ReadBlock(Lex(buf[..es], ps)), cmd, Lex(buf[..es], s))
    decreases es - ps, 0
  {
    var _, _, _, s1 := GetToken(buf, es, ps);
    cmd, s := ParseLine(buf, es, s1);
    if cmd.None? {
      return;
    }
    var closed;
    closed, s := Peek(buf, es, s, ")");
    if !closed {
      return None, s;
    }
    var _, _, _, s2 := GetToken(buf, es, s);
    cmd, s := ParseRedirs(cmd.value, buf, es, s2);
  }

  method ParseExec(buf: array<char>, es: nat, ps: nat) returns (cmd: Option<Cmd>, s: nat)
    requires Ends(buf, es) && ps <= es
    ensures ps <= s <= es && Agrees(ReadExec(Lex(buf[..es], ps)), cmd, Lex(buf[..es], s))
    decreases es - ps, 1
  {
    ghost var line: string := buf[..es];
    var open;
    open, s := Peek(buf, es, ps, "(");
    if open {
      cmd, s := ParseBlock(buf, es, s);
      return;
    }
    ghost var p := ReadItems(Exec([]), 0, Lex(line, ps));
    ItemsAfter(Exec([]), 0, Lex(line, ps));
    var argc := 0;
    cmd, s := ParseRedirs(Exec([]), buf, es, s);
    if cmd.None? {
      return;
    }
    var stop;
    stop, s := Peek(buf, es, s, "|)&;");
    while !stop
      invariant ps <= s <= es && cmd.Some? && !Next(Lex(line, s), "<>") && ReadItems(cmd.value, argc, Lex(line, s)) == p
      invariant stop <==> Next(Lex(line, s), "|)&;")
      decreases es - s
    {
      var tok, q, eq, s1 := GetToken(buf, es, s);
      if tok == NUL {
        s := s1;
        break;
      }
      ItemsStep(cmd.value, argc, Lex(line, s), Token(tok, q, eq), Lex(line, s1));
      ItemsAfter(AddWord(cmd.value, Token(tok, q, eq)), argc + 1, Lex(line, s1));
      if tok != WORD || argc + 1 >= MAXARGS {
        return None, s1;
      }
      argc := argc + 1;
      cmd, s := ParseRedirs(AddWord(cmd.value, Token(tok, q, eq)), buf, es, s1);
      if cmd.None? {
        return;
      }
      stop, s := Peek(buf, es, s, "|)&;");
    }
  }

  method ParsePipe(buf: array<char>, es: nat, ps: nat) returns (cmd: Option<Cmd>, s: nat)
    requires Ends(buf, es) && ps <= es
    ensures ps <= s <= es && Agrees(ReadPipe(Lex(buf[..es], ps)), cmd, Lex(buf[..es], s))
    decreases es - ps, 2
  {
    cmd, s := ParseExec(buf, es, ps);
    if cmd.None? {
      return;
    }
    var more;
    more, s := Peek(buf, es, s, "|");
    if more {
      var _, _, _, s1 := GetToken(buf, es, s);
      var right;
      right, s := ParsePipe(buf, es, s1);
      cmd := if right.None? then None else Some(Pipe(cmd.value, right.value));
    }
  }

  method ParseLine(buf: array<char>, es: nat, ps: nat) returns (cmd: Option<Cmd>, s: nat)
    requires Ends(buf, es) && ps <= es
    ensures ps <= s <= es && Agrees(ReadLine(Lex(buf[..es], ps)), cmd, Lex(buf[..es], s))
    decreases es - ps, 3
  {
    ghost var line: string := buf[..es];
    cmd, s := ParsePipe(buf, es, ps);
    if cmd.None? {
      return;
    }
    ghost var a := ReadAmps(cmd.value, Lex(line, s));
    var more;
    more, s := Peek(buf, es, s, "&");
    while more
      invariant ps <= s <= es && cmd.Some? && ReadAmps(cmd.value, Lex(line, s)) == a && (more <==> Next(Lex(line, s), "&"))
      decreases es - s
    {
      var _, _, _, s1 := GetToken(buf, es, s);
      cmd := Some(Back(cmd.value));
      more, s := Peek(buf, es, s1, "&");
    }
    more, s := Peek(buf, es, s, ";");
    if more {
      var _, _, _, s1 := GetToken(buf, es, s);
      var right;
      right, s := ParseLine(buf, es, s1);
      cmd := if right.None? then None else Some(List(cmd.value, right.value));
    }
  }

  predicate Has(c: Cmd, w: Token) {
    w in Bag(c)
  }

  /** The loop of nulterminate over the arguments. */
  method TerminateArgs(argv: seq<Token>, buf: array<char>)
    requires forall j :: 0 <= j < |argv| ==> argv[j].e < buf.Length
    modifies buf
    ensures forall i :: 0 <= i < buf.Length ==> buf[i] == if EndsBefore(argv, |argv|, i) then NUL else old(buf[i])
  {
    for k := 0 to |argv|
      invariant forall i :: 0 <= i < buf.Length ==> buf[i] == if EndsBefore(argv, k, i) then NUL else old(buf[i])
    {
      buf[argv[k].e] := NUL;
    }
  }

  /** i is the end of one of the first k arguments. */
  predicate EndsBefore(argv: seq<Token>, k: nat, i: nat)
    requires k <= |argv|
  {
    exists j :: 0 <= j < k && argv[j].e == i
  }

  lemma ArgsEnds(c: Cmd)
    requires c.Exec?
    ensures forall i: nat :: EndsBefore(c.argv, |c.argv|, i) <==> exists w :: Has(c, w) && w.e == i
  {
    forall i: nat ensures EndsBefore(c.argv, |c.argv|, i) <==> exists w :: Has(c, w) && w.e == i {
      if j :| 0 <= j < |c.argv| && c.argv[j].e == i { assert Has(c, c.argv[j]); }
    }
  }

  /** nulterminate: a NUL right behind every word of the command, and nothing else. */
  method NulTerminate(c: Cmd, buf: array<char>)
    requires forall w :: Has(c, w) ==> w.e < buf.Length
    modifies buf
    ensures forall i :: 0 <= i < buf.Length ==>
      buf[i] == if exists w :: Has(c, w) && w.e == i then NUL else old(buf[i])
  {
    match c
    case Exec(argv) =>
      assert forall j :: 0 <= j < |argv| ==> Has(c, argv[j]);
      TerminateArgs(argv, buf);
      ArgsEnds(c);
    case Redir(inner, file, _, _) =>
      assert Has(c, file);
      NulTerminate(inner, buf);
      buf[file.e] := NUL;
    case Pipe(l, r) =>
      NulTerminate(l, buf);
      NulTerminate(r, buf);
    case List(l, r) =>
      NulTerminate(l, buf);
      NulTerminate(r, buf);
    case Back(inner) =>
      NulTerminate(inner, buf);
  }

  /** The C string at i. */
  function CString(b: seq<char>, i: nat): string
    decreases |b| - i
  {
    if i < |b| && b[i] != NUL then [b[i]] + CString(b, i + 1) else ""
  }

  lemma {:induction false} CStringIs(b: seq<char>, i: nat, j: nat)
    requires i <= j < |b| && b[j] == NUL && forall k :: i <= k < j ==> b[k] != NUL
    ensures CString(b, i) == b[i..j]
    decreases j - i
  {
    if i < j { CStringIs(b, i + 1, j); }
  }

  /** Each of the words is what it was in the line, a NUL behind it. */
  ghost predicate Terminated(line: string, b: seq<char>, c: Cmd) {
    forall w :: Has(c, w) ==> w.b < w.e <= |line| && CString(b, w.b) == line[w.b..w.e]
  }

  /** No NUL that is written falls into a word. */
  lemma WordsSurvive(line: string, b0: seq<char>, b: seq<char>, c: Cmd)
    requires |line| < |b0| == |b| && b0[..|line|] == line && forall w :: Has(c, w) ==> WordOk(line, w)
    requires forall i :: 0 <= i < |line| ==> line[i] != NUL
    requires forall i :: 0 <= i < |b| ==> b[i] == if exists w :: Has(c, w) && w.e == i then NUL else b0[i]
    ensures Terminated(line, b, c)
  {
    forall w | Has(c, w) ensures w.b < w.e <= |line| && CString(b, w.b) == line[w.b..w.e] {
      forall i | w.b <= i < w.e ensures b[i] == line[i] {
        assert Plain(line[i]);
        forall v | Has(c, v) ensures v.e != i { assert WordOk(line, v); }
      }
      CStringIs(b, w.b, w.e);
    }
  }

  lemma WordIn(line: string, c: Cmd, w: Token)
    requires ReadCmd(Lex(line, 0)) == Some(c) && Has(c, w)
    ensures WordOk(line, w) && w in Lex(line, 0)
  {
    WordsOnce(Lex(line, 0));
    WordBagIn(Lex(line, 0), w);
    var k :| 0 <= k < |Lex(line, 0)| && Lex(line, 0)[k] == w;
    LexAt(line, 0, k);
  }

  /** parsecmd: a panic where the line is not in the grammar, and otherwise the command it stands for,
      each of its words a string of its own and each of its redirections that of an operator. */
  method ParseCmd(buf: array<char>) returns (cmd: Option<Cmd>)
    requires exists i :: 0 <= i < buf.Length && buf[i] == NUL
    modifies buf
    ensures var line := old(CString(buf[..], 0));
      && cmd == ReadCmd(Lex(line, 0))
      && (cmd.None? ==> buf[..] == old(buf[..]))
      && (cmd.Some? ==> Terminated(line, buf[..], cmd.value) && Bag(cmd.value) == WordBag(Lex(line, 0)))
      && (cmd.Some? ==> Pairs(OpsOf(Lex(line, 0)), AllRedirs(cmd.value)))
  {
    ghost var b0: seq<char> := buf[..];
    ghost var z :| 0 <= z < buf.Length && buf[z] == NUL;
    var es := 0;
    while buf[es] != NUL
      invariant es <= z && forall i :: 0 <= i < es ==> buf[i] != NUL
      decreases z - es
    {
      es := es + 1;
    }
    ghost var line: string := buf[..es];
    CStringIs(b0, 0, es);
    var s;
    cmd, s := ParseLine(buf, es, 0);
    if cmd.None? {
      return;
    }
    var _, s1 := Peek(buf, es, s, "");
    if s1 != es {
      return None;
    }
    WordsOnce(Lex(line, 0));
    RedirsOfLine(Lex(line, 0));
    forall w | Has(cmd.value, w) ensures WordOk(line, w) { WordIn(line, cmd.value, w); }
    NulTerminate(cmd.value, buf);
    WordsSurvive(line, b0, buf[..], cmd.value);
  }
}
