/** Markdown links as an author writes them: a label, and a target with escapes and balanced parentheses. */
module LinkMarkup {
  import opened Prelude
  import opened Links

  datatype Target = End | Letter(c: char, rest: Target) | Escaped(c: char, rest: Target) | Group(inner: Target, rest: Target)

  datatype Piece = Piece(text: string, name: string, target: Target)

  function TargetText(t: Target): string {
    match t
    case End => ""
    case Letter(c, rest) => [c] + TargetText(rest)
    case Escaped(c, rest) => ['\\', c] + TargetText(rest)
    case Group(inner, rest) => "(" + (TargetText(inner) + (")" + TargetText(rest)))
  }

  // A backslash stands before what it escapes, and never before another one.
  predicate TargetOk(t: Target) {
    match t
    case End => true
    case Letter(c, rest) => c !in "()\\" && TargetOk(rest)
    case Escaped(c, rest) => c != '\\' && TargetOk(rest)
    case Group(inner, rest) => TargetOk(inner) && TargetOk(rest)
  }

  ghost predicate HasTurn(text: string) {
    exists i :: 0 <= i < |text| - 1 && text[i] == ']' && text[i + 1] == '('
  }

  // No bracket opens in the text before the link, and the label does not turn into a target itself.
  ghost predicate PieceOk(p: Piece) {
    && (forall i :: 0 <= i < |p.text| ==> p.text[i] != '[')
    && !HasTurn(p.name)
    && TargetOk(p.target)
  }

  function PieceText(p: Piece): string {
    p.text + "[" + p.name + "](" + TargetText(p.target) + ")"
  }

  function Written(pieces: seq<Piece>, tail: string): string {
    if pieces == [] then tail else PieceText(pieces[0]) + Written(pieces[1..], tail)
  }

  function Labelled(pieces: seq<Piece>, tail: string): string {
    if pieces == [] then tail else pieces[0].text + pieces[0].name + Labelled(pieces[1..], tail)
  }

  // ----- A written target is balanced -----

  // Between the parts of a target: the character before is no backslash, and so many groups are open.
  predicate Between(value: string, i: nat, depth: int)
    requires i <= |value|
  {
    Balance(value, 0, i) == depth && (i == 0 || value[i - 1] != '\\')
  }

  lemma OneRead(value: string, i: nat, depth: int)
    requires i < |value| && Balance(value, 0, i) == depth
    ensures !Bare(value, i, '(') && !Bare(value, i, ')') ==> Balance(value, 0, i + 1) == depth && !Closes(value, 0, i)
    ensures Bare(value, i, '(') ==> Balance(value, 0, i + 1) == depth + 1 && !Closes(value, 0, i)
    ensures Bare(value, i, ')') ==> Balance(value, 0, i + 1) == depth - 1 && (Closes(value, 0, i) <==> depth == 0)
  {
  }

  // The text stands in the value from a position on.
  predicate Stands(value: string, i: nat, text: string) {
    i + |text| <= |value| && forall k :: 0 <= k < |text| ==> value[i + k] == text[k]
  }

  lemma StandsApart(value: string, i: nat, a: string, b: string)
    ensures Stands(value, i, a + b) ==> Stands(value, i, a) && Stands(value, i + |a|, b)
  {
    if Stands(value, i, a + b) {
      assert forall k :: 0 <= k < |a| ==> (a + b)[k] == a[k];
      forall k | 0 <= k < |b| ensures value[i + |a| + k] == b[k] { assert (a + b)[|a| + k] == b[k]; }
    }
  }

  // Nothing between the two positions closes the link.
  ghost predicate NoneCloses(value: string, i: nat, end: nat)
    requires end <= |value|
  {
    forall j :: i <= j < end ==> !Closes(value, 0, j)
  }

  lemma LetterRead(value: string, i: nat, c: char, depth: nat)
    requires Stands(value, i, [c]) && c !in "()\\" && Between(value, i, depth)
    ensures Between(value, i + 1, depth) && NoneCloses(value, i, i + 1)
  {
    assert value[i + 0] == [c][0];
    OneRead(value, i, depth);
  }

  lemma EscapedRead(value: string, i: nat, c: char, depth: nat)
    requires Stands(value, i, ['\\', c]) && c != '\\' && Between(value, i, depth)
    ensures Between(value, i + 2, depth) && NoneCloses(value, i, i + 2)
  {
    assert value[i + 0] == ['\\', c][0] && value[i + 1] == ['\\', c][1];
    OneRead(value, i, depth);
    OneRead(value, i + 1, depth);
  }

  lemma OpenRead(value: string, i: nat, depth: nat)
    requires Stands(value, i, "(") && Between(value, i, depth)
    ensures Between(value, i + 1, depth + 1) && NoneCloses(value, i, i + 1)
  {
    assert value[i + 0] == "("[0];
    OneRead(value, i, depth);
  }

  lemma CloseRead(value: string, i: nat, depth: nat)
    requires Stands(value, i, ")") && Between(value, i, depth) && depth >= 1
    ensures Between(value, i + 1, depth - 1) && NoneCloses(value, i, i + 1)
  {
    assert value[i + 0] == ")"[0];
    OneRead(value, i, depth);
  }

  // A part of a target is read from one balanced position to the next, and never closes the link.
  lemma {:induction false} PartRead(value: string, i: nat, t: Target, depth: nat)
    requires TargetOk(t) && Stands(value, i, TargetText(t)) && Between(value, i, depth)
    ensures Between(value, i + |TargetText(t)|, depth) && NoneCloses(value, i, i + |TargetText(t)|)
    decreases t, 1
  {
    match t
    case End =>
    case Letter(c, rest) =>
      StandsApart(value, i, [c], TargetText(rest));
      LetterRead(value, i, c, depth);
      PartRead(value, i + 1, rest, depth);
    case Escaped(c, rest) =>
      StandsApart(value, i, ['\\', c], TargetText(rest));
      EscapedRead(value, i, c, depth);
      PartRead(value, i + 2, rest, depth);
    case Group(inner, rest) => GroupRead(value, i, inner, rest, depth);
  }

  lemma {:induction false} GroupRead(value: string, i: nat, inner: Target, rest: Target, depth: nat)
    requires TargetOk(inner) && TargetOk(rest) && Stands(value, i, TargetText(Group(inner, rest))) && Between(value, i, depth)
    ensures Between(value, i + |TargetText(Group(inner, rest))|, depth) && NoneCloses(value, i, i + |TargetText(Group(inner, rest))|)
    decreases Group(inner, rest), 0
  {
    var close := i + 1 + |TargetText(inner)|;
    StandsApart(value, i, "(", TargetText(inner) + (")" + TargetText(rest)));
    StandsApart(value, i + 1, TargetText(inner), ")" + TargetText(rest));
    StandsApart(value, close, ")", TargetText(rest));
    OpenRead(value, i, depth);
    PartRead(value, i + 1, inner, depth + 1);
    CloseRead(value, close, depth + 1);
    PartRead(value, close + 1, rest, depth);
  }

  lemma TargetBalanced(t: Target)
    requires TargetOk(t)
    ensures Balanced(TargetText(t))
  {
    PartRead(TargetText(t), 0, t, 0);
  }

  // ----- Round trip -----

  function SpanOf(p: Piece): Span {
    Span(p.text, p.name, TargetText(p.target))
  }

  function SpansOf(pieces: seq<Piece>): seq<Span> {
    seq(|pieces|, i requires 0 <= i < |pieces| => SpanOf(pieces[i]))
  }

  lemma PieceClean(p: Piece)
    requires PieceOk(p)
    ensures Clean(SpanOf(p))
  {
    TargetBalanced(p.target);
    forall i | 0 <= i < |p.name| ensures !Turns(p.name, i) {
      assert Turns(p.name, i) ==> HasTurn(p.name);
    }
  }

  lemma {:induction false} SpansAlike(pieces: seq<Piece>, tail: string)
    ensures Render(SpansOf(pieces), tail) == Written(pieces, tail) && Shown(SpansOf(pieces), tail) == Labelled(pieces, tail)
  {
    if pieces != [] {
      SpansAlike(pieces[1..], tail);
      assert SpansOf(pieces)[1..] == SpansOf(pieces[1..]) && SpansOf(pieces)[0] == SpanOf(pieces[0]);
    }
  }

  // However its targets are escaped and nested, a written text is read back with each link reduced to its label.
  lemma LinksReadBack(pieces: seq<Piece>, tail: string)
    requires (forall i :: 0 <= i < |tail| ==> tail[i] != '[') && forall i :: 0 <= i < |pieces| ==> PieceOk(pieces[i])
    ensures Labels(Written(pieces, tail)) == Labelled(pieces, tail)
  {
    forall i | 0 <= i < |pieces| ensures Clean(SpansOf(pieces)[i]) { PieceClean(pieces[i]); }
    LinksRoundTrip(SpansOf(pieces), tail);
    SpansAlike(pieces, tail);
  }

  // ----- Texts without links -----

  lemma {:induction false} NoTurn(text: string, i: nat)
    requires i <= |text| && !HasTurn(text)
    ensures FindTurn(text, i) == None
    decreases |text| - i
  {
    if i < |text| {
      NoTurn(text, i + 1);
    }
  }

  lemma {:induction false} NoEnd(text: string, start: nat, i: nat)
    requires start <= i <= |text| && forall j :: 0 <= j < |text| ==> text[j] != ')'
    ensures TargetEnd(text, start, i) == None
    decreases |text| - i
  {
    if i < |text| { NoEnd(text, start, i + 1); }
  }

  // Without an opening bracket, without a turn from label to target, or without a closing parenthesis
  // nothing is replaced.
  lemma NothingToReplace(text: string)
    requires (forall j :: 0 <= j < |text| ==> text[j] != '[') || !HasTurn(text)
      || (forall j :: 0 <= j < |text| ==> text[j] != ')')
    ensures Labels(text) == text
  {
    var open := Find(text, '[', 0);
    if forall j :: 0 <= j < |text| ==> text[j] != '[' {
      NoBracketNoLink(text, 0);
    } else if open.Some? && !HasTurn(text) {
      NoTurn(text, open.value + 1);
    } else if open.Some? && FindTurn(text, open.value + 1).Some? {
      var turn := FindTurn(text, open.value + 1).value;
      NoEnd(text, turn + 2, turn + 2);
    }
  }
}
