/** grep.c's regular expression matcher against a declarative meaning: a pattern is a list of
    items, and a text is accepted when it can be cut into one fitting piece per item. */
module Grep {
  datatype Item =
    | One(c: char)     // c, or . for any character
    | Many(c: char)    // c*
    | Stop             // $ at the very end

  /** What a pattern (after any leading ^) stands for.  Only a final $ is special, and only what
      follows a character makes * a star. */
  function Parse(re: string): seq<Item> {
    if re == "" then []
    else if |re| > 1 && re[1] == '*' then [Many(re[0])] + Parse(re[2..])
    else if re == "$" then [Stop]
    else [One(re[0])] + Parse(re[1..])
  }

  predicate Ok(c: char, x: char) {
    c == '.' || c == x
  }

  function Concat(pieces: seq<string>): string {
    if pieces == [] then "" else pieces[0] + Concat(pieces[1..])
  }

  /** A piece fits its item; only at the end of the text does nothing fit $. */
  predicate PieceOk(item: Item, piece: string, atEnd: bool) {
    match item
    case One(c) => |piece| == 1 && Ok(c, piece[0])
    case Many(c) => forall i :: 0 <= i < |piece| ==> Ok(c, piece[i])
    case Stop => piece == "" && atEnd
  }

  /** The pieces, put together, are the front of the text and fit the items one by one. */
  ghost predicate Fits(items: seq<Item>, pieces: seq<string>, text: string) {
    && |pieces| == |items| && Concat(pieces) <= text
    && forall i :: 0 <= i < |items| ==> PieceOk(items[i], pieces[i], Concat(pieces) == text)
  }

  ghost predicate Accepts(items: seq<Item>, text: string) {
    exists pieces :: Fits(items, pieces, text)
  }

  /** The meaning of a whole pattern: anchored at the front, or accepted from some position. */
  ghost predicate Matches(re: string, text: string) {
    if re != "" && re[0] == '^' then Accepts(Parse(re[1..]), text)
    else exists k {:trigger text[k..]} :: 0 <= k <= |text| && Accepts(Parse(re), text[k..])
  }

  // ---------------------------------------------------------------- the meaning, item by item

  lemma AcceptsNothing(text: string)
    ensures Accepts([], text)
  {
    assert Fits([], [], text);
  }

  lemma FitsCons(item: Item, items: seq<Item>, piece: string, pieces: seq<string>, text: string)
    requires |pieces| == |items| && piece <= text
    ensures Fits([item] + items, [piece] + pieces, text) <==>
      PieceOk(item, piece, piece + Concat(pieces) == text) && Fits(items, pieces, text[|piece|..])
  {
    var all, ps, rest := [item] + items, [piece] + pieces, text[|piece|..];
    assert ps[1..] == pieces && all[1..] == items;
    assert text == piece + rest;
    assert Concat(ps) == piece + Concat(pieces);
    assert Concat(ps) == text <==> Concat(pieces) == rest by {
      if Concat(ps) == text { assert Concat(pieces) == Concat(ps)[|piece|..]; }
    }
    assert Concat(ps) <= text <==> Concat(pieces) <= rest by {
      if Concat(ps) <= text { assert Concat(pieces) == Concat(ps)[|piece|..] == text[|piece|..|Concat(ps)|]; }
      if Concat(pieces) <= rest { assert Concat(ps) == text[..|Concat(ps)|]; }
    }
    var end := Concat(ps) == text;
    if forall i :: 0 <= i < |all| ==> PieceOk(all[i], ps[i], end) {
      forall i | 0 <= i < |items| ensures PieceOk(items[i], pieces[i], end) {
        assert PieceOk(all[i + 1], ps[i + 1], end);
      }
      assert PieceOk(all[0], ps[0], end);
    }
  }

  /** A text accepted by item and items gives up a first piece. */
  lemma AcceptsCons(item: Item, items: seq<Item>, text: string) returns (piece: string, pieces: seq<string>)
    requires Accepts([item] + items, text)
    ensures piece <= text && |pieces| == |items|
    ensures PieceOk(item, piece, piece + Concat(pieces) == text) && Fits(items, pieces, text[|piece|..])
  {
    var ps :| Fits([item] + items, ps, text);
    piece, pieces := ps[0], ps[1..];
    assert ps == [piece] + pieces && Concat(ps) == piece + Concat(pieces);
    FitsCons(item, items, piece, pieces, text);
  }

  lemma AcceptsOne(c: char, items: seq<Item>, text: string)
    ensures Accepts([One(c)] + items, text) <==> text != "" && Ok(c, text[0]) && Accepts(items, text[1..])
  {
    if Accepts([One(c)] + items, text) {
      var piece, pieces := AcceptsCons(One(c), items, text);
    }
    if text != "" && Ok(c, text[0]) && Accepts(items, text[1..]) {
      var pieces :| Fits(items, pieces, text[1..]);
      FitsCons(One(c), items, text[..1], pieces, text);
    }
  }

  lemma AcceptsMany(c: char, items: seq<Item>, text: string)
    ensures Accepts([Many(c)] + items, text) <==>
      exists k {:trigger text[k..]} :: 0 <= k <= |text| && AllOk(c, text, k) && Accepts(items, text[k..])
  {
    if Accepts([Many(c)] + items, text) {
      var piece, pieces := AcceptsCons(Many(c), items, text);
      assert AllOk(c, text, |piece|) && Accepts(items, text[|piece|..]);
    }
    if k :| 0 <= k <= |text| && AllOk(c, text, k) && Accepts(items, text[k..]) {
      var pieces :| Fits(items, pieces, text[k..]);
      FitsCons(Many(c), items, text[..k], pieces, text);
    }
  }

  lemma AcceptsStop(text: string)
    ensures Accepts([Stop], text) <==> text == ""
  {
    assert [Stop] == [Stop] + [];
    if Accepts([Stop], text) {
      var piece, pieces := AcceptsCons(Stop, [], text);
    }
    if text == "" {
      FitsCons(Stop, [], "", [], text);
    }
  }

  predicate AllOk(c: char, text: string, k: nat)
    requires k <= |text|
  {
    forall i :: 0 <= i < k ==> Ok(c, text[i])
  }

  // ---------------------------------------------------------------- the matcher

  /** matchhere: true exactly when the front of text is accepted. */
  method Matchhere(re: string, text: string) returns (found: bool)
    ensures found <==> Accepts(Parse(re), text)
    decreases |re|, 1, |text|
  {
    if re == "" {
      AcceptsNothing(text);
      return true;
    }
    if |re| > 1 && re[1] == '*' {
      found := Matchstar(re[0], re[2..], text);
      return;
    }
    if re == "$" {
      AcceptsStop(text);
      return text == "";
    }
    AcceptsOne(re[0], Parse(re[1..]), text);
    if text != "" && (re[0] == '.' || re[0] == text[0]) {
      found := Matchhere(re[1..], text[1..]);
      return;
    }
    return false;
  }

  /** matchstar: c* and then re, at the front of text. */
  method Matchstar(c: char, re: string, text: string) returns (found: bool)
    ensures found <==> Accepts([Many(c)] + Parse(re), text)
    decreases |re| + 1, 0, |text|
  {
    AcceptsMany(c, Parse(re), text);
    var k := 0;
    while true
      invariant 0 <= k <= |text| && AllOk(c, text, k)
      invariant forall j {:trigger text[j..]} :: 0 <= j < k ==> !Accepts(Parse(re), text[j..])
      decreases |text| - k
    {
      found := Matchhere(re, text[k..]);
      if found {
        return true;
      }
      if !(k < |text| && (text[k] == c || c == '.')) {
        return false;
      }
      k := k + 1;
    }
  }

  /** match: sound and complete for the meaning of the pattern. */
  method Match(re: string, text: string) returns (found: bool)
    ensures found <==> Matches(re, text)
  {
    if re != "" && re[0] == '^' {
      found := Matchhere(re[1..], text);
      return;
    }
    var k := 0;
    while true
      invariant 0 <= k <= |text|
      invariant forall j {:trigger text[j..]} :: 0 <= j < k ==> !Accepts(Parse(re), text[j..])
      decreases |text| - k
    {
      found := Matchhere(re, text[k..]);
      if found {
        return true;
      }
      if k == |text| {
        return false;
      }
      k := k + 1;
    }
  }

  // ---------------------------------------------------------------- what patterns mean

  /** A word none of whose characters is special. */
  predicate Literal(w: string) {
    forall i :: 0 <= i < |w| ==> w[i] !in ".*$^"
  }

  lemma {:induction false} LiteralFront(w: string, text: string)
    requires Literal(w)
    ensures Accepts(Parse(w), text) <==> w <= text
  {
    if w == "" {
      AcceptsNothing(text);
    } else {
      assert w == [w[0]] + w[1..] && (|w| > 1 ==> w[1] == w[1..][0]);
      AcceptsOne(w[0], Parse(w[1..]), text);
      if text != "" {
        LiteralFront(w[1..], text[1..]);
        assert text == [text[0]] + text[1..];
      }
    }
  }

  /** A literal word is searched for as it is, everywhere, or at the front behind a ^. */
  lemma LiteralSearch(w: string, text: string)
    requires Literal(w)
    ensures Matches(w, text) <==> exists k {:trigger text[k..]} :: 0 <= k <= |text| && w <= text[k..]
    ensures Matches("^" + w, text) <==> w <= text
  {
    assert ("^" + w)[1..] == w;
    LiteralFront(w, text);
    forall k {:trigger text[k..]} | 0 <= k <= |text| ensures Accepts(Parse(w), text[k..]) <==> w <= text[k..] {
      LiteralFront(w, text[k..]);
    }
  }

  lemma {:induction false} LiteralWhole(w: string, text: string)
    requires Literal(w)
    ensures Accepts(Parse(w + "$"), text) <==> text == w
  {
    var re := w + "$";
    if w == "" {
      assert re == "$" && Parse(re) == [Stop];
      AcceptsStop(text);
    } else {
      assert re[1..] == w[1..] + "$" && re[1] != '*' && re[0] == w[0] && re != "$";
      AcceptsOne(w[0], Parse(re[1..]), text);
      if text != "" {
        LiteralWhole(w[1..], text[1..]);
        assert text == [text[0]] + text[1..] && w == [w[0]] + w[1..];
      }
    }
  }

  /** ^w$ is w and nothing else. */
  lemma WholeLine(w: string, text: string)
    requires Literal(w)
    ensures Matches("^" + w + "$", text) <==> text == w
  {
    assert ("^" + w + "$")[1..] == w + "$";
    LiteralWhole(w, text);
  }

  function Dots(n: nat): string {
    if n == 0 then "" else "." + Dots(n - 1)
  }

  lemma {:induction false} DotsWhole(n: nat, text: string)
    ensures Accepts(Parse(Dots(n) + "$"), text) <==> |text| == n
  {
    var re := Dots(n) + "$";
    if n == 0 {
      assert re == "$" && Parse(re) == [Stop];
      AcceptsStop(text);
    } else {
      assert re[1..] == Dots(n - 1) + "$" && re[0] == '.' && re != "$" && re[1] != '*';
      AcceptsOne('.', Parse(re[1..]), text);
      if text != "" { DotsWhole(n - 1, text[1..]); }
    }
  }

  /** A . is any one character: ^...$ with n of them is every text of length n. */
  lemma AnyCharacters(n: nat, text: string)
    ensures Matches("^" + Dots(n) + "$", text) <==> |text| == n
  {
    assert ("^" + Dots(n) + "$")[1..] == Dots(n) + "$";
    DotsWhole(n, text);
  }

  /** c* is any number of c's, .* anything: ^c*$ is every text of c's only. */
  lemma StarWhole(c: char, text: string)
    ensures Matches("^" + [c] + "*$", text) <==> c == '.' || forall i :: 0 <= i < |text| ==> text[i] == c
  {
    var re := "^" + [c] + "*$";
    var rest := [c] + "*$";
    assert re[1..] == rest && rest[0] == c && rest[1] == '*' && rest[2..] == "$";
    assert Parse(rest) == [Many(c)] + Parse("$") && Parse("$") == [Stop];
    AcceptsMany(c, [Stop], text);
    forall k {:trigger text[k..]} | 0 <= k <= |text| ensures Accepts([Stop], text[k..]) <==> k == |text| {
      AcceptsStop(text[k..]);
    }
    assert text[|text|..] == "";
  }
}
