/** What the redirections of a line become (sh.c: parseredirs, redircmd): which files, in which mode, on
    which descriptor, and in which order. */
module ShellRedirs {
  import opened ShellLexer
  import opened ShellGrammar

  datatype Opening = Opening(file: Token, mode: nat, fd: nat)

  /** The redirections of a command, innermost first. */
  function AllRedirs(c: Cmd): seq<Opening> {
    match c
    case Exec(_) => []
    case Redir(inner, file, mode, fd) => AllRedirs(inner) + [Opening(file, mode, fd)]
    case Pipe(l, r) => AllRedirs(l) + AllRedirs(r)
    case List(l, r) => AllRedirs(l) + AllRedirs(r)
    case Back(inner) => AllRedirs(inner)
  }

  predicate IsOp(t: Token) {
    t.kind == '<' || t.kind == '>' || t.kind == APPEND
  }

  datatype Op = Op(kind: char, file: Token)

  /** Every redirection operator in the line with the token behind it, in order. */
  function OpsOf(ts: seq<Token>): seq<Op> {
    if |ts| < 2 then [] else OpAt(ts[0], ts[1]) + OpsOf(ts[1..])
  }

  function OpAt(t: Token, next: Token): seq<Op> {
    if IsOp(t) then [Op(t.kind, next)] else []
  }

  /** < reads on descriptor 0, > creates and empties, and >> creates, both writing on 1: the numbers are
      open's flags, and tell which it was. */
  predicate Means(op: char, mode: nat, fd: nat) {
    && (op == '<' || op == '>' || op == APPEND)
    && (op == '<' <==> fd == 0 && mode == 0x000)
    && (op == '>' <==> fd == 1 && mode == 0x601)
    && (op == APPEND <==> fd == 1 && mode == 0x201)
  }

  /** The openings are those of the operators, one for one. */
  ghost predicate Pairs(ops: seq<Op>, rs: seq<Opening>) {
    |rs| == |ops| && forall k :: 0 <= k < |ops| ==> rs[k].file == ops[k].file && Means(ops[k].kind, rs[k].mode, rs[k].fd)
  }

  lemma PairsJoin(a: seq<Op>, ra: seq<Opening>, b: seq<Op>, rb: seq<Opening>)
    requires Pairs(a, ra) && Pairs(b, rb)
    ensures Pairs(a + b, ra + rb)
  {
  }

  /** What ends in an operator would pair it with a token of what follows. */
  predicate Complete(ts: seq<Token>) {
    ts == [] || !IsOp(ts[|ts| - 1])
  }

  lemma {:induction false} OpsJoin(a: seq<Token>, b: seq<Token>)
    requires Complete(a)
    ensures OpsOf(a + b) == OpsOf(a) + OpsOf(b) && (Complete(b) ==> Complete(a + b))
  {
    if a == [] {
      assert a + b == b;
    } else if |a| == 1 {
      assert (a + b)[1..] == b;
    } else {
      assert (a + b)[1..] == a[1..] + b;
      OpsJoin(a[1..], b);
    }
  }

  lemma {:induction false} NoOps(ts: seq<Token>)
    requires forall i :: 0 <= i < |ts| ==> !IsOp(ts[i])
    ensures OpsOf(ts) == [] && Complete(ts)
  {
    if |ts| >= 2 { NoOps(ts[1..]); }
  }

  lemma {:induction false} AddedWordRedirs(c: Cmd, w: Token)
    ensures AllRedirs(AddWord(c, w)) == AllRedirs(c)
  {
    if c.Redir? { AddedWordRedirs(c.cmd, w); }
  }

  /** The openings a list of items adds. */
  function Added(items: seq<Item>): seq<Opening> {
    if items == [] then [] else AddedBy(items[0]) + Added(items[1..])
  }

  function AddedBy(it: Item): seq<Opening> {
    match it
    case Arg(_) => []
    case Red(op, f) => var r := Redirected(Exec([]), op.kind, f); if r.Redir? then [Opening(r.file, r.mode, r.fd)] else []
  }

  lemma BuiltOne(c: Cmd, it: Item)
    ensures AllRedirs(BuildItem(c, it)) == AllRedirs(c) + AddedBy(it)
  {
    if it.Arg? {
      AddedWordRedirs(c, it.word);
      assert AllRedirs(c) + [] == AllRedirs(c);
    }
  }

  lemma Assoc3(a: seq<Opening>, b: seq<Opening>, c: seq<Opening>)
    ensures (a + b) + c == a + (b + c)
  {
  }

  lemma {:induction false} BuiltRedirs(c: Cmd, items: seq<Item>)
    ensures AllRedirs(BuildItems(c, items)) == AllRedirs(c) + Added(items)
    decreases |items|
  {
    if items == [] {
      assert AllRedirs(c) + [] == AllRedirs(c);
    } else {
      BuiltOne(c, items[0]);
      BuiltRedirs(BuildItem(c, items[0]), items[1..]);
      Assoc3(AllRedirs(c), AddedBy(items[0]), Added(items[1..]));
    }
  }

  /** The openings are those of these tokens, whatever follows them. */
  ghost predicate Paired(ts: seq<Token>, rs: seq<Opening>) {
    Complete(ts) && Pairs(OpsOf(ts), rs)
  }

  lemma PairedJoin(a: seq<Token>, ra: seq<Opening>, b: seq<Token>, rb: seq<Opening>)
    requires Paired(a, ra) && Paired(b, rb)
    ensures Paired(a + b, ra + rb)
  {
    OpsJoin(a, b);
    PairsJoin(OpsOf(a), ra, OpsOf(b), rb);
  }

  /** A symbol before b. */
  lemma PairedAfter(mid: seq<Token>, b: seq<Token>, rb: seq<Opening>)
    requires Paired(b, rb) && forall i :: 0 <= i < |mid| ==> !IsOp(mid[i])
    ensures Paired(mid + b, rb)
  {
    NoOps(mid);
    PairedJoin(mid, [], b, rb);
    assert [] + rb == rb;
  }

  lemma PairedThree(a: seq<Token>, ra: seq<Opening>, mid: seq<Token>, b: seq<Token>, rb: seq<Opening>)
    requires Paired(a, ra) && Paired(b, rb) && forall i :: 0 <= i < |mid| ==> !IsOp(mid[i])
    ensures Paired(a + (mid + b), ra + rb)
  {
    PairedAfter(mid, b, rb);
    PairedJoin(a, ra, mid + b, rb);
  }

  lemma ItemPairs(it: Item)
    requires ItemOk(it)
    ensures Paired(SpellItem(it), AddedBy(it))
  {
    if it.Red? { assert [it.op, it.file][1..] == [it.file] && OpsOf([it.file]) == []; }
  }

  lemma {:induction false} ItemsPair(items: seq<Item>)
    requires ItemsOk(items)
    ensures Paired(SpellItems(items), Added(items))
  {
    if items != [] {
      RestOk(items);
      assert ItemOk(items[0]);
      ItemPairs(items[0]);
      ItemsPair(items[1..]);
      PairedJoin(SpellItem(items[0]), AddedBy(items[0]), SpellItems(items[1..]), Added(items[1..]));
    }
  }

  lemma {:induction false} BacksRedirs(c: Cmd, k: nat)
    ensures AllRedirs(Backs(c, k)) == AllRedirs(c)
    decreases k
  {
    if k > 0 { BacksRedirs(Back(c), k - 1); }
  }

  lemma BlockPairs(open: Token, line: seq<Token>, rl: seq<Opening>, close: Token, items: seq<Token>, ri: seq<Opening>)
    requires Paired(line, rl) && Paired(items, ri) && !IsOp(open) && !IsOp(close)
    ensures Paired([open] + (line + ([close] + items)), rl + ri)
  {
    PairedThree(line, rl, [close], items, ri);
    PairedAfter([open], line + ([close] + items), rl + ri);
  }

  lemma SimplePairs(items: seq<Item>)
    requires ItemsOk(items)
    ensures Paired(SpellItems(items), AllRedirs(BuildItems(Exec([]), items)))
  {
    ItemsPair(items);
    BuiltRedirs(Exec([]), items);
    assert AllRedirs(Exec([])) + Added(items) == Added(items);
  }

  lemma ExecPairs(t: ExecT)
    requires ExecOk(t)
    ensures Paired(SpellExec(t), AllRedirs(BuildExec(t)))
    decreases t
  {
    match t
    case Simple(items) => SimplePairs(items);
    case Block(open, line, close, items) =>
      LinePairs(line);
      NoWords(items);
      ItemsPair(items);
      BuiltRedirs(BuildLine(line), items);
      BlockPairs(open, SpellLine(line), AllRedirs(BuildLine(line)), close, SpellItems(items), Added(items));
  }

  lemma PipePairs(t: PipeT)
    requires PipeOk(t)
    ensures Paired(SpellPipe(t), AllRedirs(BuildPipe(t)))
    decreases t
  {
    match t
    case Last(e) => ExecPairs(e);
    case Piped(e, bar, rest) =>
      ExecPairs(e);
      PipePairs(rest);
      PairedThree(SpellExec(e), AllRedirs(BuildExec(e)), [bar], SpellPipe(rest), AllRedirs(BuildPipe(rest)));
  }

  lemma WithAmps(a: seq<Token>, ra: seq<Opening>, amps: seq<Token>)
    requires Paired(a, ra) && forall i :: 0 <= i < |amps| ==> !IsOp(amps[i])
    ensures Paired(a + amps, ra)
  {
    NoOps(amps);
    PairedJoin(a, ra, amps, []);
    assert ra + [] == ra;
  }

  lemma LinePairs(t: LineT)
    requires LineOk(t)
    ensures Paired(SpellLine(t), AllRedirs(BuildLine(t)))
    decreases t
  {
    PipePairs(t.pipe);
    var c := BuildPipe(t.pipe);
    BacksRedirs(c, |t.amps|);
    match t
    case Line(p, amps) => WithAmps(SpellPipe(p), AllRedirs(c), amps);
    case Then(p, amps, semi, rest) =>
      LinePairs(rest);
      WithAmps(SpellPipe(p), AllRedirs(c), amps);
      PairedThree(SpellPipe(p) + amps, AllRedirs(c), [semi], SpellLine(rest), AllRedirs(BuildLine(rest)));
      Assoc(SpellPipe(p), amps, [semi] + SpellLine(rest));
  }

  /** The redirections of a command that was read are exactly those of its line: each operator of the line,
      from left to right, has opened the token behind it as the operator says. */
  lemma RedirsOfLine(ts: seq<Token>)
    requires ReadCmd(ts).Some?
    ensures Pairs(OpsOf(ts), AllRedirs(ReadCmd(ts).value))
  {
    var t := LineSound(ts);
    LinePairs(t);
    assert SpellLine(t) + [] == SpellLine(t);
  }
}
