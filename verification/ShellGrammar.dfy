/** The shell's grammar (sh.c), twice: the recursive descent over tokens as the program does it, and the
    derivations of the grammar themselves.  The two agree. */
module ShellGrammar {
  import opened ShellLexer

  const MAXARGS := 10
  const O_RDONLY := 0x000
  const O_WRONLY := 0x001
  const O_CREATE := 0x200
  const O_TRUNC := 0x400

  datatype Cmd =
    | Exec(argv: seq<Token>)
    | Redir(cmd: Cmd, file: Token, mode: nat, fd: nat)
    | Pipe(left: Cmd, right: Cmd)
    | List(left: Cmd, right: Cmd)
    | Back(cmd: Cmd)

  function Redirected(cmd: Cmd, op: char, file: Token): Cmd {
    if op == '<' then Redir(cmd, file, O_RDONLY, 0)
    else if op == '>' then Redir(cmd, file, O_WRONLY + O_CREATE + O_TRUNC, 1)
    else Redir(cmd, file, O_WRONLY + O_CREATE, 1)
  }

  /** One more word for the command inside the redirections, which parseexec still holds. */
  function AddWord(cmd: Cmd, word: Token): Cmd {
    match cmd
    case Exec(argv) => Exec(argv + [word])
    case Redir(inner, file, mode, fd) => Redir(AddWord(inner, word), file, mode, fd)
    case _ => cmd
  }

  // ---------------------------------------------------------------- recursive descent

  /** A command and the tokens left over, or a panic. */
  datatype Parsed = Ok(cmd: Cmd, rest: seq<Token>) | Panic

  function ReadRedirs(cmd: Cmd, ts: seq<Token>): (p: Parsed)
    ensures p.Ok? ==> |p.rest| <= |ts| && !Next(p.rest, "<>")
    decreases |ts|
  {
    if !Next(ts, "<>") then Ok(cmd, ts)
    else if |ts| > 1 && ts[1].kind == WORD then ReadRedirs(Redirected(cmd, ts[0].kind, ts[1]), ts[2..])
    else Panic
  }

  /** Redirections, then words each with the redirections behind it; argc words came before. */
  function ReadItems(cmd: Cmd, argc: nat, ts: seq<Token>): (p: Parsed)
    ensures p.Ok? ==> |p.rest| <= |ts|
    decreases |ts|
  {
    match ReadRedirs(cmd, ts)
    case Panic => Panic
    case Ok(c, r) =>
      if r == [] || Next(r, "|)&;") then Ok(c, r)
      else if r[0].kind != WORD || argc + 1 >= MAXARGS then Panic
      else ReadItems(AddWord(c, r[0]), argc + 1, r[1..])
  }

  function ReadBlock(ts: seq<Token>): (p: Parsed)
    requires Next(ts, "(")
    ensures p.Ok? ==> |p.rest| <= |ts|
    decreases |ts|, 0
  {
    match ReadLine(ts[1..])
    case Panic => Panic
    case Ok(c, r) => if Next(r, ")") then ReadRedirs(c, r[1..]) else Panic
  }

  function ReadExec(ts: seq<Token>): (p: Parsed)
    ensures p.Ok? ==> |p.rest| <= |ts|
    decreases |ts|, 1
  {
    if Next(ts, "(") then ReadBlock(ts) else ReadItems(Exec([]), 0, ts)
  }

  function ReadPipe(ts: seq<Token>): (p: Parsed)
    ensures p.Ok? ==> |p.rest| <= |ts|
    decreases |ts|, 2
  {
    match ReadExec(ts)
    case Panic => Panic
    case Ok(c, r) =>
      if !Next(r, "|") then Ok(c, r)
      else match ReadPipe(r[1..])
        case Panic => Panic
        case Ok(d, r2) => Ok(Pipe(c, d), r2)
  }

  function ReadAmps(cmd: Cmd, ts: seq<Token>): (p: Parsed)
    ensures p.Ok? && |p.rest| <= |ts|
    decreases |ts|
  {
    if Next(ts, "&") then ReadAmps(Back(cmd), ts[1..]) else Ok(cmd, ts)
  }

  function ReadLine(ts: seq<Token>): (p: Parsed)
    ensures p.Ok? ==> |p.rest| <= |ts|
    decreases |ts|, 3
  {
    match ReadPipe(ts)
    case Panic => Panic
    case Ok(c0, r0) =>
      var a := ReadAmps(c0, r0);
      if !Next(a.rest, ";") then a
      else match ReadLine(a.rest[1..])
        case Panic => Panic
        case Ok(d, r2) => Ok(List(a.cmd, d), r2)
  }

  datatype Option<T> = Some(value: T) | None

  /** The whole line must be used up. */
  function ReadCmd(ts: seq<Token>): Option<Cmd> {
    match ReadLine(ts)
    case Ok(c, r) => if r == [] then Some(c) else None
    case Panic => None
  }

  // ---------------------------------------------------------------- derivations

  datatype Item = Arg(word: Token) | Red(op: Token, file: Token)

  datatype ExecT = Simple(items: seq<Item>) | Block(open: Token, line: LineT, close: Token, items: seq<Item>)
  datatype PipeT = Last(exec: ExecT) | Piped(exec: ExecT, bar: Token, rest: PipeT)
  datatype LineT = Line(pipe: PipeT, amps: seq<Token>) | Then(pipe: PipeT, amps: seq<Token>, semi: Token, rest: LineT)

  /** The words that are not file names. */
  function Words(items: seq<Item>): (ws: seq<Token>)
    ensures |ws| <= |items|
  {
    if items == [] then []
    else OneWord(items[0]) + Words(items[1..])
  }

  function OneWord(it: Item): (ws: seq<Token>)
    ensures |ws| <= 1
  {
    if it.Arg? then [it.word] else []
  }

  /** A derivation uses each production properly. */
  predicate ItemOk(it: Item) {
    match it
    case Arg(w) => w.kind == WORD
    case Red(op, f) => (op.kind == '<' || op.kind == '>' || op.kind == APPEND) && f.kind == WORD
  }

  predicate ItemsOk(items: seq<Item>) {
    forall i :: 0 <= i < |items| ==> ItemOk(items[i])
  }

  predicate RedsOk(items: seq<Item>) {
    forall i :: 0 <= i < |items| ==> ItemOk(items[i]) && items[i].Red?
  }

  predicate ExecOk(t: ExecT) {
    match t
    case Simple(items) => ItemsOk(items) && |Words(items)| < MAXARGS
    case Block(open, line, close, items) =>
      && open.kind == '(' && close.kind == ')' && LineOk(line) && RedsOk(items)
  }

  predicate PipeOk(t: PipeT) {
    match t
    case Last(e) => ExecOk(e)
    case Piped(e, bar, rest) => ExecOk(e) && bar.kind == '|' && PipeOk(rest)
  }

  predicate LineOk(t: LineT) {
    PipeOk(t.pipe) && (forall i :: 0 <= i < |t.amps| ==> t.amps[i].kind == '&')
    && (t.Then? ==> t.semi.kind == ';' && LineOk(t.rest))
  }

  /** The tokens a derivation spells. */
  function SpellItems(items: seq<Item>): seq<Token> {
    if items == [] then [] else SpellItem(items[0]) + SpellItems(items[1..])
  }

  function SpellItem(it: Item): seq<Token> {
    match it
    case Arg(w) => [w]
    case Red(op, f) => [op, f]
  }

  function SpellExec(t: ExecT): seq<Token> {
    match t
    case Simple(items) => SpellItems(items)
    case Block(open, line, close, items) => [open] + (SpellLine(line) + ([close] + SpellItems(items)))
  }

  function SpellPipe(t: PipeT): seq<Token> {
    match t
    case Last(e) => SpellExec(e)
    case Piped(e, bar, rest) => SpellExec(e) + ([bar] + SpellPipe(rest))
  }

  function SpellLine(t: LineT): seq<Token> {
    match t
    case Line(p, amps) => SpellPipe(p) + amps
    case Then(p, amps, semi, rest) => SpellPipe(p) + (amps + ([semi] + SpellLine(rest)))
  }

  /** The command a derivation stands for. */
  function BuildItems(cmd: Cmd, items: seq<Item>): Cmd
    decreases |items|
  {
    if items == [] then cmd else BuildItems(BuildItem(cmd, items[0]), items[1..])
  }

  function BuildItem(cmd: Cmd, it: Item): Cmd {
    match it
    case Arg(w) => AddWord(cmd, w)
    case Red(op, f) => Redirected(cmd, op.kind, f)
  }

  function BuildExec(t: ExecT): Cmd {
    match t
    case Simple(items) => BuildItems(Exec([]), items)
    case Block(_, line, _, items) => BuildItems(BuildLine(line), items)
  }

  function BuildPipe(t: PipeT): Cmd {
    match t
    case Last(e) => BuildExec(e)
    case Piped(e, _, rest) => Pipe(BuildExec(e), BuildPipe(rest))
  }

  function Backs(cmd: Cmd, k: nat): Cmd
    decreases k
  {
    if k == 0 then cmd else Backs(Back(cmd), k - 1)
  }

  function BuildLine(t: LineT): Cmd {
    var c := Backs(BuildPipe(t.pipe), |t.amps|);
    match t
    case Line(_, _) => c
    case Then(_, _, _, rest) => List(c, BuildLine(rest))
  }

  // ---------------------------------------------------------------- every derivation is found

  /** What may follow: nothing, or one of these symbols. */
  predicate Follow(rest: seq<Token>, toks: string) {
    rest == [] || Next(rest, toks)
  }

  lemma Peel(t: Token, a: seq<Token>, b: seq<Token>)
    ensures ([t] + a) + b == [t] + (a + b) && ([t] + (a + b))[1..] == a + b
  {
  }

  lemma Assoc(a: seq<Token>, b: seq<Token>, c: seq<Token>)
    ensures (a + b) + c == a + (b + c)
  {
  }

  lemma {:induction false} FindRedirs(cmd: Cmd, items: seq<Item>, rest: seq<Token>)
    requires RedsOk(items) && !Next(rest, "<>")
    ensures ReadRedirs(cmd, SpellItems(items) + rest) == Ok(BuildItems(cmd, items), rest)
    decreases |items|
  {
    if items == [] {
      assert SpellItems(items) + rest == rest;
    } else {
      var ts := SpellItems(items[1..]) + rest;
      assert SpellItems(items) + rest == [items[0].op, items[0].file] + ts;
      assert ([items[0].op, items[0].file] + ts)[2..] == ts;
      FindRedirs(Redirected(cmd, items[0].op.kind, items[0].file), items[1..], rest);
    }
  }

  lemma ReadItem(cmd: Cmd, argc: nat, it: Item, ts: seq<Token>)
    requires ItemOk(it) && (it.Arg? ==> argc + 1 < MAXARGS)
    ensures ReadItems(cmd, argc, SpellItem(it) + ts) == ReadItems(BuildItem(cmd, it), if it.Arg? then argc + 1 else argc, ts)
  {
    var all := SpellItem(it) + ts;
    match it
    case Arg(w) =>
      assert all[1..] == ts && ReadRedirs(cmd, all) == Ok(cmd, all);
    case Red(op, f) =>
      assert all[2..] == ts && ReadRedirs(cmd, all) == ReadRedirs(Redirected(cmd, op.kind, f), ts);
  }

  lemma ReadDone(cmd: Cmd, argc: nat, rest: seq<Token>)
    requires Follow(rest, "|)&;")
    ensures ReadItems(cmd, argc, rest) == Ok(cmd, rest)
  {
    assert ReadRedirs(cmd, rest) == Ok(cmd, rest);
  }

  lemma {:induction false} FindItems(cmd: Cmd, argc: nat, items: seq<Item>, rest: seq<Token>)
    requires ItemsOk(items) && Follow(rest, "|)&;")
    requires argc + |Words(items)| < MAXARGS
    ensures ReadItems(cmd, argc, SpellItems(items) + rest) == Ok(BuildItems(cmd, items), rest)
    decreases |items|
  {
    if items == [] {
      assert SpellItems(items) + rest == rest;
      ReadDone(cmd, argc, rest);
    } else {
      var ts := SpellItems(items[1..]) + rest;
      Assoc(SpellItem(items[0]), SpellItems(items[1..]), rest);
      ReadItem(cmd, argc, items[0], ts);
      FindItems(BuildItem(cmd, items[0]), if items[0].Arg? then argc + 1 else argc, items[1..], rest);
    }
  }

  lemma {:induction false} FindAmps(cmd: Cmd, amps: seq<Token>, rest: seq<Token>)
    requires (forall i :: 0 <= i < |amps| ==> amps[i].kind == '&') && !Next(rest, "&")
    ensures ReadAmps(cmd, amps + rest) == Ok(Backs(cmd, |amps|), rest)
    decreases |amps|
  {
    if amps == [] {
      assert amps + rest == rest;
    } else {
      assert (amps + rest)[1..] == amps[1..] + rest;
      FindAmps(Back(cmd), amps[1..], rest);
    }
  }

  lemma FindExec(t: ExecT, rest: seq<Token>)
    requires ExecOk(t) && Follow(rest, "|)&;")
    ensures ReadExec(SpellExec(t) + rest) == Ok(BuildExec(t), rest)
    decreases t
  {
    match t
    case Simple(items) =>
      FindItems(Exec([]), 0, items, rest);
      if items != [] { assert SpellItems(items)[0] == SpellItem(items[0])[0]; }
    case Block(open, line, close, items) =>
      var tail := SpellItems(items) + rest;
      FindRedirs(BuildLine(line), items, rest);
      FindLine(line, [close] + tail);
      Peel(close, SpellItems(items), rest);
      Assoc(SpellLine(line), [close] + SpellItems(items), rest);
      Peel(open, SpellLine(line) + ([close] + SpellItems(items)), rest);
  }

  lemma FindPipe(t: PipeT, rest: seq<Token>)
    requires PipeOk(t) && Follow(rest, ")&;")
    ensures ReadPipe(SpellPipe(t) + rest) == Ok(BuildPipe(t), rest)
    decreases t
  {
    match t
    case Last(e) => FindExec(e, rest);
    case Piped(e, bar, more) =>
      FindPipe(more, rest);
      FindExec(e, [bar] + (SpellPipe(more) + rest));
      Assoc(SpellExec(e), [bar] + SpellPipe(more), rest);
      Peel(bar, SpellPipe(more), rest);
  }

  /** Whatever the grammar derives, the descent reads back, with nothing taken from what follows. */
  lemma FindLine(t: LineT, rest: seq<Token>)
    requires LineOk(t) && Follow(rest, ")")
    ensures ReadLine(SpellLine(t) + rest) == Ok(BuildLine(t), rest)
    decreases t
  {
    match t
    case Line(p, amps) =>
      FindAmps(BuildPipe(p), amps, rest);
      Assoc(SpellPipe(p), amps, rest);
      FindPipe(p, amps + rest);
    case Then(p, amps, semi, more) =>
      var tail := [semi] + (SpellLine(more) + rest);
      FindLine(more, rest);
      FindAmps(BuildPipe(p), amps, tail);
      FindPipe(p, amps + tail);
      Assoc(SpellPipe(p), amps + ([semi] + SpellLine(more)), rest);
      Assoc(amps, [semi] + SpellLine(more), rest);
      Peel(semi, SpellLine(more), rest);
  }

  // ---------------------------------------------------------------- what is read has a derivation

  lemma {:induction false} RedirsSound(cmd: Cmd, ts: seq<Token>) returns (items: seq<Item>)
    ensures RedsOk(items)
    ensures var p := ReadRedirs(cmd, ts);
      p.Ok? ==> ts == SpellItems(items) + p.rest && p.cmd == BuildItems(cmd, items) && !Next(p.rest, "<>")
    decreases |ts|
  {
    items := [];
    if Next(ts, "<>") && |ts| > 1 && ts[1].kind == WORD {
      var more := RedirsSound(Redirected(cmd, ts[0].kind, ts[1]), ts[2..]);
      items := [Red(ts[0], ts[1])] + more;
      assert items[1..] == more && ts == [ts[0], ts[1]] + ts[2..];
    }
  }

  lemma {:induction false} JoinItems(cmd: Cmd, a: seq<Item>, b: seq<Item>)
    ensures SpellItems(a + b) == SpellItems(a) + SpellItems(b)
    ensures BuildItems(cmd, a + b) == BuildItems(BuildItems(cmd, a), b)
    ensures |Words(a + b)| == |Words(a)| + |Words(b)|
    decreases |a|
  {
    if a == [] {
      assert a + b == b;
    } else {
      assert (a + b)[1..] == a[1..] + b;
      JoinItems(BuildItem(cmd, a[0]), a[1..], b);
    }
  }

  lemma {:induction false} NoWords(items: seq<Item>)
    requires RedsOk(items)
    ensures Words(items) == [] && ItemsOk(items)
  {
    if items != [] { NoWords(items[1..]); }
  }

  lemma OkJoin(a: seq<Item>, w: Token, b: seq<Item>)
    requires ItemsOk(a) && ItemsOk(b) && w.kind == WORD
    ensures ItemsOk(a + ([Arg(w)] + b)) && |Words([Arg(w)] + b)| == 1 + |Words(b)|
  {
    assert ([Arg(w)] + b)[1..] == b;
  }

  lemma JoinWord(a: seq<Token>, r: seq<Token>, more: seq<Token>, rest: seq<Token>)
    requires r != [] && r[1..] == more + rest
    ensures a + r == (a + ([r[0]] + more)) + rest
  {
    assert r == [r[0]] + r[1..];
    Peel(r[0], more, rest);
    Assoc(a, [r[0]] + more, rest);
  }

  lemma {:induction false} ItemsSound(cmd: Cmd, argc: nat, ts: seq<Token>) returns (items: seq<Item>)
    requires ReadItems(cmd, argc, ts).Ok? && argc < MAXARGS
    ensures ItemsOk(items)
    ensures var p := ReadItems(cmd, argc, ts);
      && ts == SpellItems(items) + p.rest && p.cmd == BuildItems(cmd, items)
      && argc + |Words(items)| < MAXARGS
    decreases |ts|
  {
    items := RedirsSound(cmd, ts);
    NoWords(items);
    var p := ReadRedirs(cmd, ts);
    var r := p.rest;
    if !(r == [] || Next(r, "|)&;")) {
      var more := ItemsSound(AddWord(p.cmd, r[0]), argc + 1, r[1..]);
      var tail := [Arg(r[0])] + more;
      assert tail[1..] == more;
      JoinItems(cmd, items, tail);
      OkJoin(items, r[0], more);
      JoinWord(SpellItems(items), r, SpellItems(more), ReadItems(cmd, argc, ts).rest);
      items := items + tail;
    }
  }

  lemma {:induction false} AmpsSound(cmd: Cmd, ts: seq<Token>) returns (amps: seq<Token>)
    ensures forall i :: 0 <= i < |amps| ==> amps[i].kind == '&'
    ensures var p := ReadAmps(cmd, ts); ts == amps + p.rest && p.cmd == Backs(cmd, |amps|)
    decreases |ts|
  {
    amps := [];
    if Next(ts, "&") {
      var more := AmpsSound(Back(cmd), ts[1..]);
      amps := [ts[0]] + more;
    }
  }

  lemma JoinBlock(ts: seq<Token>, line: seq<Token>, r: seq<Token>, items: seq<Token>, rest: seq<Token>)
    requires ts != [] && ts[1..] == line + r && r != [] && r[1..] == items + rest
    ensures ts == ([ts[0]] + (line + ([r[0]] + items))) + rest
  {
    assert ts == [ts[0]] + ts[1..] && r == [r[0]] + r[1..];
    Peel(r[0], items, rest);
    Assoc(line, [r[0]] + items, rest);
    Peel(ts[0], line + ([r[0]] + items), rest);
  }

  lemma ExecSound(ts: seq<Token>) returns (t: ExecT)
    requires ReadExec(ts).Ok?
    ensures var p := ReadExec(ts); ExecOk(t) && ts == SpellExec(t) + p.rest && p.cmd == BuildExec(t)
    decreases |ts|, 1
  {
    if Next(ts, "(") {
      var line := LineSound(ts[1..]);
      var p := ReadLine(ts[1..]);
      var items := RedirsSound(p.cmd, p.rest[1..]);
      t := Block(ts[0], line, p.rest[0], items);
      var rest := ReadExec(ts).rest;
      JoinBlock(ts, SpellLine(line), p.rest, SpellItems(items), rest);
    } else {
      var items := ItemsSound(Exec([]), 0, ts);
      t := Simple(items);
    }
  }

  lemma PipeSound(ts: seq<Token>) returns (t: PipeT)
    requires ReadPipe(ts).Ok?
    ensures var p := ReadPipe(ts); PipeOk(t) && ts == SpellPipe(t) + p.rest && p.cmd == BuildPipe(t)
    decreases |ts|, 2
  {
    var e := ExecSound(ts);
    var p := ReadExec(ts);
    if Next(p.rest, "|") {
      var more := PipeSound(p.rest[1..]);
      var rest := ReadPipe(ts).rest;
      t := Piped(e, p.rest[0], more);
      assert p.rest == [p.rest[0]] + p.rest[1..];
      Peel(t.bar, SpellPipe(more), rest);
      Assoc(SpellExec(e), [t.bar] + SpellPipe(more), rest);
    } else {
      t := Last(e);
    }
  }

  lemma LineSound(ts: seq<Token>) returns (t: LineT)
    requires ReadLine(ts).Ok?
    ensures var p := ReadLine(ts); LineOk(t) && ts == SpellLine(t) + p.rest && p.cmd == BuildLine(t)
    decreases |ts|, 3
  {
    var pipe := PipeSound(ts);
    var p := ReadPipe(ts);
    var amps := AmpsSound(p.cmd, p.rest);
    var a := ReadAmps(p.cmd, p.rest);
    var rest := ReadLine(ts).rest;
    if Next(a.rest, ";") {
      var more := LineSound(a.rest[1..]);
      t := Then(pipe, amps, a.rest[0], more);
      assert a.rest == [a.rest[0]] + a.rest[1..];
      Peel(t.semi, SpellLine(more), rest);
      Assoc(amps, [t.semi] + SpellLine(more), rest);
      Assoc(SpellPipe(pipe), amps + ([t.semi] + SpellLine(more)), rest);
    } else {
      t := Line(pipe, amps);
      Assoc(SpellPipe(pipe), amps, rest);
    }
  }

  /** The shell accepts exactly the lines of its grammar, with the command their derivation stands for. */
  lemma Grammar(ts: seq<Token>, c: Cmd)
    ensures ReadCmd(ts) == Some(c) <==> exists t :: LineOk(t) && SpellLine(t) == ts && BuildLine(t) == c
  {
    if ReadCmd(ts) == Some(c) {
      var t := LineSound(ts);
      assert SpellLine(t) + [] == SpellLine(t);
      assert LineOk(t) && SpellLine(t) == ts && BuildLine(t) == c;
    }
    forall t | LineOk(t) && SpellLine(t) == ts && BuildLine(t) == c ensures ReadCmd(ts) == Some(c) {
      FindLine(t, []);
      assert SpellLine(t) + [] == SpellLine(t);
    }
  }

  /** No line means two things. */
  lemma Unambiguous(t: LineT, u: LineT)
    requires LineOk(t) && LineOk(u) && SpellLine(t) == SpellLine(u)
    ensures BuildLine(t) == BuildLine(u)
  {
    Grammar(SpellLine(t), BuildLine(t));
    Grammar(SpellLine(u), BuildLine(u));
  }

  // ---------------------------------------------------------------- what becomes of the words

  /** All words of a command, with their copies. */
  function Bag(c: Cmd): multiset<Token> {
    match c
    case Exec(argv) => multiset(argv)
    case Redir(inner, file, _, _) => Bag(inner) + multiset{file}
    case Pipe(l, r) => Bag(l) + Bag(r)
    case List(l, r) => Bag(l) + Bag(r)
    case Back(inner) => Bag(inner)
  }

  function WordBag(ts: seq<Token>): multiset<Token> {
    if ts == [] then multiset{}
    else (if ts[0].kind == WORD then multiset{ts[0]} else multiset{}) + WordBag(ts[1..])
  }

  lemma {:induction false} WordBagJoin(a: seq<Token>, b: seq<Token>)
    ensures WordBag(a + b) == WordBag(a) + WordBag(b)
  {
    if a == [] {
      assert a + b == b;
    } else {
      assert (a + b)[1..] == a[1..] + b;
      WordBagJoin(a[1..], b);
    }
  }

  lemma {:induction false} WordBagIn(ts: seq<Token>, w: Token)
    requires w in WordBag(ts)
    ensures w.kind == WORD && w in ts
  {
    if w in WordBag(ts[1..]) { WordBagIn(ts[1..], w); }
  }

  lemma {:induction false} NoWordBag(ts: seq<Token>)
    requires forall i :: 0 <= i < |ts| ==> ts[i].kind != WORD
    ensures WordBag(ts) == multiset{}
  {
    if ts != [] { NoWordBag(ts[1..]); }
  }

  /** A simple command, with redirections around it. */
  predicate Holder(c: Cmd) {
    c.Exec? || (c.Redir? && Holder(c.cmd))
  }

  function Argv(c: Cmd): seq<Token>
    requires Holder(c)
  {
    match c
    case Exec(argv) => argv
    case Redir(inner, _, _, _) => Argv(inner)
  }

  lemma {:induction false} AddedWord(c: Cmd, w: Token)
    requires Holder(c)
    ensures Holder(AddWord(c, w)) && Argv(AddWord(c, w)) == Argv(c) + [w] && Bag(AddWord(c, w)) == Bag(c) + multiset{w}
  {
    if c.Redir? { AddedWord(c.cmd, w); }
  }

  lemma BuiltItem(c: Cmd, it: Item)
    requires ItemOk(it) && (Holder(c) || it.Red?)
    ensures Bag(BuildItem(c, it)) == Bag(c) + multiset{if it.Arg? then it.word else it.file}
    ensures Holder(c) ==> Holder(BuildItem(c, it)) && Argv(BuildItem(c, it)) == Argv(c) + OneWord(it)
  {
    if it.Arg? { AddedWord(c, it.word); }
  }

  lemma BagSpell(items: seq<Item>)
    requires items != [] && ItemsOk(items)
    ensures WordBag(SpellItems(items)) ==
      multiset{if items[0].Arg? then items[0].word else items[0].file} + WordBag(SpellItems(items[1..]))
  {
    BagItem(items[0]);
    WordBagJoin(SpellItem(items[0]), SpellItems(items[1..]));
  }

  lemma {:induction false} BagItems(c: Cmd, items: seq<Item>)
    requires ItemsOk(items) && (Holder(c) || RedsOk(items))
    ensures Bag(BuildItems(c, items)) == Bag(c) + WordBag(SpellItems(items))
    decreases |items|
  {
    if items != [] {
      assert ItemOk(items[0]) && (Holder(c) || items[0].Red?);
      BuiltItem(c, items[0]);
      RestOk(items);
      BagItems(BuildItem(c, items[0]), items[1..]);
      BagSpell(items);
    }
  }

  lemma RestOk(items: seq<Item>)
    requires items != [] && ItemsOk(items)
    ensures ItemsOk(items[1..]) && (RedsOk(items) ==> RedsOk(items[1..]))
  {
  }

  lemma {:induction false} ArgvItems(c: Cmd, items: seq<Item>)
    requires ItemsOk(items) && Holder(c)
    ensures Holder(BuildItems(c, items)) && Argv(BuildItems(c, items)) == Argv(c) + Words(items)
    decreases |items|
  {
    if items != [] {
      var it, more := items[0], items[1..];
      BuiltItem(c, it);
      assert ItemsOk(more);
      ArgvItems(BuildItem(c, it), more);
      Assoc(Argv(c), OneWord(it), Words(more));
    }
  }

  lemma BagItem(it: Item)
    requires ItemOk(it)
    ensures WordBag(SpellItem(it)) == multiset{if it.Arg? then it.word else it.file}
  {
    if it.Red? {
      assert WordBag([it.file]) == multiset{it.file} + WordBag([]);
      assert [it.op, it.file][1..] == [it.file];
    }
  }

  /** The words of a simple command are its arguments in order. */
  lemma ArgumentsInOrder(items: seq<Item>)
    requires ItemsOk(items)
    ensures Holder(BuildExec(Simple(items))) && Argv(BuildExec(Simple(items))) == Words(items)
  {
    ArgvItems(Exec([]), items);
  }

  lemma {:induction false} BagBacks(c: Cmd, k: nat)
    ensures Bag(Backs(c, k)) == Bag(c)
    decreases k
  {
    if k > 0 { BagBacks(Back(c), k - 1); }
  }

  lemma BagExec(t: ExecT)
    requires ExecOk(t)
    ensures Bag(BuildExec(t)) == WordBag(SpellExec(t))
    decreases t
  {
    match t
    case Simple(items) => BagItems(Exec([]), items);
    case Block(open, line, close, items) =>
      BagItems(BuildLine(line), items);
      BagLine(line);
      WordBagJoin([open], SpellLine(line) + ([close] + SpellItems(items)));
      WordBagJoin(SpellLine(line), [close] + SpellItems(items));
      WordBagJoin([close], SpellItems(items));
  }

  lemma BagPipe(t: PipeT)
    requires PipeOk(t)
    ensures Bag(BuildPipe(t)) == WordBag(SpellPipe(t))
    decreases t
  {
    match t
    case Last(e) => BagExec(e);
    case Piped(e, bar, rest) =>
      BagExec(e);
      BagPipe(rest);
      WordBagJoin(SpellExec(e), [bar] + SpellPipe(rest));
      WordBagJoin([bar], SpellPipe(rest));
  }

  lemma BagLine(t: LineT)
    requires LineOk(t)
    ensures Bag(BuildLine(t)) == WordBag(SpellLine(t))
    decreases t
  {
    BagPipe(t.pipe);
    NoWordBag(t.amps);
    BagBacks(BuildPipe(t.pipe), |t.amps|);
    match t
    case Line(p, amps) => WordBagJoin(SpellPipe(p), amps);
    case Then(p, amps, semi, rest) =>
      BagLine(rest);
      WordBagJoin(SpellPipe(p), amps + ([semi] + SpellLine(rest)));
      WordBagJoin(amps, [semi] + SpellLine(rest));
      WordBagJoin([semi], SpellLine(rest));
  }

  /** A command that was read holds every word of the line once, and no other. */
  lemma WordsOnce(ts: seq<Token>)
    requires ReadCmd(ts).Some?
    ensures Bag(ReadCmd(ts).value) == WordBag(ts)
  {
    var t := LineSound(ts);
    BagLine(t);
    assert SpellLine(t) + [] == SpellLine(t);
  }
}
