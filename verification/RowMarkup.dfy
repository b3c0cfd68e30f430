/** Table cells as an author writes them: text, escapes, tags and links. Pipes belong to a cell when they
    are escaped, inside a tag, or inside a link's target. */
module RowMarkup {
  import opened Prelude
  import opened RowScanner

  // A link target: letters and balanced parentheses.
  datatype Target = End | Letter(c: char, rest: Target) | Group(inner: Target, rest: Target)

  datatype TagPart = Bare(c: char) | Quoted(mark: char, text: string)

  datatype Bit = Plain(c: char) | Escaped(c: char) | Tag(parts: seq<TagPart>) | Link(target: Target)

  function TargetText(t: Target): string {
    match t
    case End => ""
    case Letter(c, rest) => [c] + TargetText(rest)
    case Group(inner, rest) => "(" + (TargetText(inner) + (")" + TargetText(rest)))
  }

  function PartText(p: TagPart): string {
    match p
    case Bare(c) => [c]
    case Quoted(mark, text) => [mark] + (text + [mark])
  }

  function PartsText(parts: seq<TagPart>): string {
    if parts == [] then "" else PartText(parts[0]) + PartsText(parts[1..])
  }

  // A link is written from its closing label bracket on.
  function BitText(b: Bit): string {
    match b
    case Plain(c) => [c]
    case Escaped(c) => ['\\', c]
    case Tag(parts) => "<" + (PartsText(parts) + ">")
    case Link(target) => "](" + (TargetText(target) + ")")
  }

  function Text(bits: seq<Bit>): string {
    if bits == [] then "" else Text(bits[..|bits| - 1]) + BitText(bits[|bits| - 1])
  }

  predicate TargetOk(t: Target) {
    match t
    case End => true
    case Letter(c, rest) => c !in "()<]\\" && TargetOk(rest)
    case Group(inner, rest) => TargetOk(inner) && TargetOk(rest)
  }

  predicate PartOk(p: TagPart) {
    match p
    case Bare(c) => c !in "\"'>\\"
    case Quoted(mark, text) => mark in "\"'" && mark !in text && '\\' !in text
  }

  predicate BitOk(b: Bit) {
    match b
    case Plain(c) => c !in "\\<|"
    case Escaped(c) => c != '<'
    case Tag(parts) => forall p :: p in parts ==> PartOk(p)
    case Link(target) => TargetOk(target)
  }

  predicate EndsInBracket(b: Bit) {
    b == Plain(']') || b == Escaped(']')
  }

  // A bare parenthesis right behind a bracket would start a link.
  predicate CellOk(bits: seq<Bit>) {
    && (forall i :: 0 <= i < |bits| ==> BitOk(bits[i]))
    && (forall i :: 0 < i < |bits| && bits[i] == Plain('(') ==> !EndsInBracket(bits[i - 1]))
  }

  // ----- Reading it back -----

  lemma {:induction false} AfterSum(s: Scan, a: string, b: string)
    ensures After(s, a + b) == After(After(s, a), b)
    ensures NoPipe(s, a + b) <==> NoPipe(s, a) && NoPipe(After(s, a), b)
    decreases |a|
  {
    if a == [] {
      assert a + b == b;
    } else {
      assert (a + b)[0] == a[0] && (a + b)[1..] == a[1..] + b;
      AfterSum(Next(s, a[0]), a[1..], b);
    }
  }

  lemma AfterOne(s: Scan, c: char)
    ensures After(s, [c]) == Next(s, c) && (NoPipe(s, [c]) <==> !Structural(s, c))
  {
    assert [c][1..] == [];
  }

  // Between two bits of a cell nothing is open.
  predicate Idle(s: Scan) {
    s == NEUTRAL.(bracket := s.bracket)
  }

  predicate InTarget(s: Scan, depth: nat) {
    !s.escaped && !s.inTag && s.quote.None? && s.depth == depth && !s.bracket
  }

  predicate InTag(s: Scan) {
    s.inTag && !s.escaped && s.quote.None? && s.depth == 0
  }

  predicate InQuote(s: Scan, mark: char) {
    s.inTag && !s.escaped && s.quote == Some(mark) && s.depth == 0
  }

  // A target is read to its end at the depth it began.
  lemma {:induction false} TargetRead(s: Scan, t: Target, depth: nat)
    requires TargetOk(t) && depth >= 1 && InTarget(s, depth)
    ensures NoPipe(s, TargetText(t)) && InTarget(After(s, TargetText(t)), depth)
    decreases t
  {
    match t
    case End =>
    case Letter(c, rest) =>
      AfterOne(s, c);
      TargetRead(Next(s, c), rest, depth);
      AfterSum(s, [c], TargetText(rest));
    case Group(inner, rest) =>
      var s1 := Next(s, '(');
      AfterOne(s, '(');
      TargetRead(s1, inner, depth + 1);
      var s2 := After(s1, TargetText(inner));
      AfterOne(s2, ')');
      TargetRead(Next(s2, ')'), rest, depth);
      AfterSum(s2, ")", TargetText(rest));
      AfterSum(s1, TargetText(inner), ")" + TargetText(rest));
      AfterSum(s, "(", TargetText(inner) + (")" + TargetText(rest)));
  }

  lemma {:induction false} QuoteRead(s: Scan, mark: char, text: string)
    requires InQuote(s, mark) && mark !in text && '\\' !in text
    ensures NoPipe(s, text) && InQuote(After(s, text), mark)
    decreases |text|
  {
    if text != [] {
      assert text[0] in text;
      QuoteRead(Next(s, text[0]), mark, text[1..]);
    }
  }

  lemma PartRead(s: Scan, p: TagPart)
    requires PartOk(p) && InTag(s)
    ensures NoPipe(s, PartText(p)) && InTag(After(s, PartText(p)))
  {
    match p
    case Bare(c) => AfterOne(s, c);
    case Quoted(mark, text) =>
      AfterOne(s, mark);
      QuoteRead(Next(s, mark), mark, text);
      AfterOne(After(Next(s, mark), text), mark);
      AfterSum(Next(s, mark), text, [mark]);
      AfterSum(s, [mark], text + [mark]);
  }

  lemma {:induction false} PartsRead(s: Scan, parts: seq<TagPart>)
    requires (forall p :: p in parts ==> PartOk(p)) && InTag(s)
    ensures NoPipe(s, PartsText(parts)) && InTag(After(s, PartsText(parts)))
    decreases |parts|
  {
    if parts != [] {
      PartRead(s, parts[0]);
      PartsRead(After(s, PartText(parts[0])), parts[1..]);
      AfterSum(s, PartText(parts[0]), PartsText(parts[1..]));
    }
  }

  lemma TagRead(s: Scan, parts: seq<TagPart>)
    requires (forall p :: p in parts ==> PartOk(p)) && Idle(s)
    ensures NoPipe(s, BitText(Tag(parts))) && After(s, BitText(Tag(parts))) == NEUTRAL
  {
    AfterOne(s, '<');
    PartsRead(Next(s, '<'), parts);
    AfterOne(After(Next(s, '<'), PartsText(parts)), '>');
    AfterSum(Next(s, '<'), PartsText(parts), ">");
    AfterSum(s, "<", PartsText(parts) + ">");
  }

  lemma LinkRead(s: Scan, target: Target)
    requires TargetOk(target) && Idle(s)
    ensures NoPipe(s, BitText(Link(target))) && After(s, BitText(Link(target))) == NEUTRAL
  {
    var s1 := Next(s, ']');
    var s2 := Next(s1, '(');
    AfterOne(s, ']');
    AfterOne(s1, '(');
    AfterSum(s, "]", "(");
    TargetRead(s2, target, 1);
    AfterOne(After(s2, TargetText(target)), ')');
    AfterSum(s2, TargetText(target), ")");
    AfterSum(s, "](", TargetText(target) + ")");
    assert "](" == "]" + "(";
  }

  // A bit is read whole: it holds no structural pipe and leaves nothing open.
  lemma BitRead(s: Scan, b: Bit)
    requires BitOk(b) && Idle(s) && !(b == Plain('(') && s.bracket)
    ensures NoPipe(s, BitText(b)) && Idle(After(s, BitText(b)))
    ensures After(s, BitText(b)).bracket <==> EndsInBracket(b)
  {
    match b
    case Plain(c) => AfterOne(s, c);
    case Escaped(c) =>
      AfterOne(s, '\\');
      AfterOne(Next(s, '\\'), c);
      AfterSum(s, "\\", [c]);
      assert BitText(b) == "\\" + [c];
    case Tag(parts) => TagRead(s, parts);
    case Link(target) => LinkRead(s, target);
  }

  lemma {:induction false} CellRead(bits: seq<Bit>)
    requires CellOk(bits)
    ensures NoPipe(NEUTRAL, Text(bits)) && Idle(After(NEUTRAL, Text(bits)))
    ensures After(NEUTRAL, Text(bits)).bracket <==> bits != [] && EndsInBracket(bits[|bits| - 1])
  {
    if bits != [] {
      var init, b := bits[..|bits| - 1], bits[|bits| - 1];
      CellRead(init);
      BitRead(After(NEUTRAL, Text(init)), b);
      AfterSum(NEUTRAL, Text(init), BitText(b));
    }
  }

  function Texts(cells: seq<seq<Bit>>): seq<string> {
    seq(|cells|, i requires 0 <= i < |cells| => Text(cells[i]))
  }

  predicate Blank(s: string) {
    forall i :: 0 <= i < |s| ==> IsSpace(s[i])
  }

  // Trimming takes blanks off both ends and nothing else.
  lemma TrimIs(s: string) returns (a: string, b: string)
    ensures s == a + Trim(s) + b && Blank(a) && Blank(b)
  {
    a := LeftOff(s);
    b := RightOff(TrimLeft(s));
    assert s == a + (Trim(s) + b);
  }

  lemma {:induction false} LeftOff(s: string) returns (a: string)
    ensures s == a + TrimLeft(s) && Blank(a)
  {
    a := "";
    if s != [] && IsSpace(s[0]) {
      var rest := LeftOff(s[1..]);
      a := [s[0]] + rest;
      assert s == [s[0]] + s[1..];
    }
  }

  lemma {:induction false} RightOff(s: string) returns (b: string)
    ensures s == TrimRight(s) + b && Blank(b)
  {
    b := "";
    if s != [] && IsSpace(s[|s| - 1]) {
      var rest := RightOff(s[..|s| - 1]);
      b := rest + [s[|s| - 1]];
      assert s == s[..|s| - 1] + [s[|s| - 1]];
    }
  }

  // A line that does not begin with a pipe is no row.
  lemma NoRow(line: string)
    ensures Trim(line) == "" || Trim(line)[0] != '|' ==> Cells(line) == []
  {
  }

  // The closing pipe may be left out after a cell that is not empty.
  lemma OpenRowRoundTrip(cells: seq<seq<Bit>>, last: seq<Bit>)
    requires (forall i :: 0 <= i < |cells| ==> CellOk(cells[i]) && Trimmed(Text(cells[i])))
    requires CellOk(last) && Trimmed(Text(last)) && Text(last) != ""
    ensures Cells(Row(Texts(cells)) + Text(last)) == Texts(cells) + [Text(last)]
  {
    forall i | 0 <= i < |cells| ensures RowScanner.Plain(Texts(cells)[i]) { CellRead(cells[i]); }
    CellRead(last);
    OpenRowCells(Texts(cells), Text(last));
  }

  lemma OpenRowCells(cells: seq<string>, last: string)
    requires (forall i :: 0 <= i < |cells| ==> RowScanner.Plain(cells[i])) && RowScanner.Plain(last) && last != ""
    ensures Cells(Row(cells) + last) == cells + [last]
  {
    OpenRowShape(cells, last);
    OpenPieces(cells, last);
    TrimAllPlain(cells + [last]);
    FilledCells(Row(cells) + last, cells + [last]);
  }

  lemma OpenRowShape(cells: seq<string>, last: string)
    requires Trimmed(last) && last != ""
    ensures var row := Row(cells) + last; Trim(row) == row && row != [] && row[0] == '|' && row[1..] == Closed(cells) + last
  {
    PipeFirst(Closed(cells), last);
    TrimTrims(Row(cells) + last);
  }

  lemma PipeFirst(a: string, b: string)
    requires b != ""
    ensures var row := "|" + a + b; row[0] == '|' && row[1..] == a + b && row[|row| - 1] == b[|b| - 1]
  {
  }

  // A trimmed row whose last piece is not empty.
  lemma FilledCells(row: string, pieces: seq<string>)
    requires Trim(row) == row && row != [] && row[0] == '|' && pieces != [] && Pieces(NEUTRAL, row[1..], "") == pieces
    requires TrimAll(pieces) == pieces && pieces[|pieces| - 1] != ""
    ensures Cells(row) == pieces
  {
  }

  lemma {:induction false} OpenPieces(cells: seq<string>, last: string)
    requires (forall i :: 0 <= i < |cells| ==> RowScanner.Plain(cells[i])) && RowScanner.Plain(last)
    ensures Pieces(NEUTRAL, Closed(cells) + last, "") == cells + [last]
  {
    if cells == [] {
      ReadsOn(NEUTRAL, last, "", "");
      assert last + "" == last && "" + last == last && Closed(cells) + last == last;
    } else {
      assert Closed(cells) + last == cells[0] + ("|" + (Closed(cells[1..]) + last));
      CellComesOff(cells[0], Closed(cells[1..]) + last);
      OpenPieces(cells[1..], last);
      assert cells == [cells[0]] + cells[1..];
    }
  }

  // A row written from such cells is read back cell by cell, pipes inside escapes, tags and link targets
  // included; only a last cell that is empty is dropped.
  lemma MarkupRoundTrip(cells: seq<seq<Bit>>)
    requires cells != [] && forall i :: 0 <= i < |cells| ==> CellOk(cells[i]) && Trimmed(Text(cells[i]))
    ensures Cells(Row(Texts(cells))) ==
      if Text(cells[|cells| - 1]) == "" then Texts(cells)[..|cells| - 1] else Texts(cells)
  {
    forall i | 0 <= i < |cells| ensures RowScanner.Plain(Texts(cells)[i]) { CellRead(cells[i]); }
    RowRoundTrip(Texts(cells));
  }
}
