/** The Markdown row scanner: splitting a table row on its structural pipes. */
module RowScanner {
  import opened Prelude

  // ----- Trimming -----

  // The characters Python's str.strip removes.
  predicate IsSpace(c: char) {
    '\t' <= c <= '\r' || '\U{001c}' <= c <= ' ' || c == '\U{0085}' || c == '\U{00a0}' || c == '\U{1680}'
    || '\U{2000}' <= c <= '\U{200a}' || c == '\U{2028}' || c == '\U{2029}' || c == '\U{202f}' || c == '\U{205f}' || c == '\U{3000}'
  }

  function TrimLeft(s: string): string {
    if s != [] && IsSpace(s[0]) then TrimLeft(s[1..]) else s
  }

  function TrimRight(s: string): string {
    if s != [] && IsSpace(s[|s| - 1]) then TrimRight(s[..|s| - 1]) else s
  }

  function Trim(s: string): string {
    TrimRight(TrimLeft(s))
  }

  predicate Trimmed(s: string) {
    s == [] || (!IsSpace(s[0]) && !IsSpace(s[|s| - 1]))
  }

  lemma {:induction false} TrimRightKeepsHead(s: string)
    requires s != [] && !IsSpace(s[0])
    ensures TrimRight(s) != [] && TrimRight(s)[0] == s[0] && !IsSpace(TrimRight(s)[|TrimRight(s)| - 1])
  {
    if IsSpace(s[|s| - 1]) {
      TrimRightKeepsHead(s[..|s| - 1]);
    }
  }

  lemma {:induction false} TrimLeftTrims(s: string)
    ensures TrimLeft(s) == [] || !IsSpace(TrimLeft(s)[0])
  {
    if s != [] && IsSpace(s[0]) {
      TrimLeftTrims(s[1..]);
    }
  }

  lemma TrimTrims(s: string)
    ensures Trimmed(Trim(s)) && (Trimmed(s) ==> Trim(s) == s)
  {
    TrimLeftTrims(s);
    if TrimLeft(s) != [] {
      TrimRightKeepsHead(TrimLeft(s));
    }
  }

  // ----- The scanner -----

  // `bracket` says that the character before was a closing square bracket.
  datatype Scan = Scan(escaped: bool, quote: Option<char>, inTag: bool, depth: nat, bracket: bool)

  const NEUTRAL: Scan := Scan(false, None, false, 0, false)

  function Marked(s: Scan, c: char): Scan {
    if s.inTag then
      if s.quote.Some? then if Some(c) == s.quote && !s.escaped then s.(quote := None) else s
      else if c == '"' || c == '\'' then s.(quote := Some(c))
      else if c == '>' then s.(inTag := false)
      else s
    else if c == '<' then s.(inTag := true)
    else if c == '(' && s.bracket && !s.escaped then s.(depth := 1)
    else if s.depth > 0 && c == '(' && !s.escaped then s.(depth := s.depth + 1)
    else if s.depth > 0 && c == ')' && !s.escaped then s.(depth := s.depth - 1)
    else s
  }

  function Next(s: Scan, c: char): Scan {
    Marked(s, c).(escaped := c == '\\' && !s.escaped, bracket := c == ']')
  }

  predicate Open(s: Scan) {
    !s.escaped && !s.inTag && s.depth == 0
  }

  // A pipe that separates cells.
  predicate Structural(s: Scan, c: char) {
    c == '|' && Open(s)
  }

  // The pieces between structural pipes; `held` has been read already and belongs to the first.
  function Pieces(s: Scan, text: string, held: string): (pieces: seq<string>)
    ensures |pieces| >= 1
    decreases |text|
  {
    if text == [] then [held]
    else if Structural(s, text[0]) then [held] + Pieces(Next(s, text[0]), text[1..], "")
    else Pieces(Next(s, text[0]), text[1..], held + [text[0]])
  }

  function TrimAll(pieces: seq<string>): (cells: seq<string>)
    ensures |cells| == |pieces|
  {
    seq(|pieces|, i requires 0 <= i < |pieces| => Trim(pieces[i]))
  }

  // The cells of a row: no leading pipe, no cells; the remainder after the closing pipe is no cell.
  function Cells(row: string): seq<string> {
    var text := Trim(row);
    if text == [] || text[0] != '|' then []
    else
      var pieces := Pieces(NEUTRAL, text[1..], "");
      var last := |pieces| - 1;
      var cells := TrimAll(if pieces[last] == [] then pieces[..last] else pieces);
      if cells != [] && cells[|cells| - 1] == [] && text[|text| - 1] == '|' then cells[..|cells| - 1] else cells
  }

  // One character, read into the current piece or closing it.
  lemma ReadOne(s: Scan, text: string, held: string, raw: seq<string>)
    requires text != []
    ensures raw + Pieces(s, text, held)
         == if Structural(s, text[0]) then (raw + [held]) + Pieces(Next(s, text[0]), text[1..], "")
            else raw + Pieces(Next(s, text[0]), text[1..], held + [text[0]])
  {
  }

  lemma TrimAllAppend(raw: seq<string>, piece: string)
    ensures TrimAll(raw + [piece]) == TrimAll(raw) + [Trim(piece)]
  {
  }

  // The single pass: the cells closed by a structural pipe, and what remains after the last.
  method ScanCells(text: string) returns (cells: seq<string>, current: string)
    requires text != []
    ensures var pieces := Pieces(NEUTRAL, text[1..], "");
      var last := |pieces| - 1;
      cells == TrimAll(pieces[..last]) && current == pieces[last]
  {
    cells, current := [], "";
    var state := NEUTRAL;
    ghost var raw: seq<string> := [];
    ghost var all := Pieces(NEUTRAL, text[1..], "");
    for i := 1 to |text|
      invariant all == raw + Pieces(state, text[i..], current) && cells == TrimAll(raw)
    {
      var c := text[i];
      assert text[i..][0] == c && text[i..][1..] == text[i + 1..];
      ReadOne(state, text[i..], current, raw);
      if Structural(state, c) {
        cells := cells + [Trim(current)];
        TrimAllAppend(raw, current);
        raw := raw + [current];
        current := "";
      } else {
        current := current + [c];
      }
      state := Next(state, c);
    }
    assert all == raw + [current];
  }

  method SplitRow(row: string) returns (cells: seq<string>)
    ensures cells == Cells(row)
  {
    var text := Trim(row);
    if text == [] || text[0] != '|' { return []; }
    ghost var pieces := Pieces(NEUTRAL, text[1..], "");
    ghost var last := |pieces| - 1;
    assert pieces == pieces[..last] + [pieces[last]];
    TrimAllAppend(pieces[..last], pieces[last]);
    var current: string;
    cells, current := ScanCells(text);
    if current != [] {
      cells := cells + [Trim(current)];
    }
    if cells != [] && cells[|cells| - 1] == [] && text[|text| - 1] == '|' {
      cells := cells[..|cells| - 1];
    }
  }

  // ----- Nothing is lost -----

  function Join(pieces: seq<string>): string {
    if pieces == [] then [] else if |pieces| == 1 then pieces[0] else pieces[0] + "|" + Join(pieces[1..])
  }

  // The pieces and the pipes between them are the text, whatever it holds.
  lemma {:induction false} PiecesJoin(s: Scan, text: string, held: string)
    ensures Join(Pieces(s, text, held)) == held + text
    decreases |text|
  {
    if text != [] {
      var s' := Next(s, text[0]);
      assert text == [text[0]] + text[1..];
      if Structural(s, text[0]) {
        PiecesJoin(s', text[1..], "");
        assert ([held] + Pieces(s', text[1..], ""))[1..] == Pieces(s', text[1..], "");
        assert held + "|" + ("" + text[1..]) == held + text;
      } else {
        PiecesJoin(s', text[1..], held + [text[0]]);
        assert (held + [text[0]]) + text[1..] == held + text;
      }
    }
  }

  // ----- Round trip -----

  function After(s: Scan, text: string): Scan
    decreases |text|
  {
    if text == [] then s else After(Next(s, text[0]), text[1..])
  }

  predicate NoPipe(s: Scan, text: string)
    decreases |text|
  {
    text == [] || (!Structural(s, text[0]) && NoPipe(Next(s, text[0]), text[1..]))
  }

  // Trimmed, without a structural pipe, and leaving no tag, link or escape open.
  predicate Plain(cell: string) {
    Trimmed(cell) && NoPipe(NEUTRAL, cell) && Open(After(NEUTRAL, cell))
  }

  predicate QuoteInTag(s: Scan) {
    s.quote.Some? ==> s.inTag
  }

  lemma {:induction false} AfterQuote(s: Scan, text: string)
    requires QuoteInTag(s)
    ensures QuoteInTag(After(s, text))
    decreases |text|
  {
    if text != [] {
      AfterQuote(Next(s, text[0]), text[1..]);
    }
  }

  // A text without a structural pipe is read into the current piece.
  lemma {:induction false} ReadsOn(s: Scan, cell: string, rest: string, held: string)
    requires NoPipe(s, cell)
    ensures Pieces(s, cell + rest, held) == Pieces(After(s, cell), rest, held + cell)
    decreases |cell|
  {
    if cell == [] {
      assert cell + rest == rest && held + cell == held;
    } else {
      assert (cell + rest)[1..] == cell[1..] + rest && (cell + rest)[0] == cell[0];
      ReadsOn(Next(s, cell[0]), cell[1..], rest, held + [cell[0]]);
      assert held + [cell[0]] + cell[1..] == held + cell;
    }
  }

  // A plain cell and the pipe after it come off the front, and the scanner starts afresh.
  lemma CellComesOff(cell: string, rest: string)
    requires Plain(cell)
    ensures Pieces(NEUTRAL, cell + ("|" + rest), "") == [cell] + Pieces(NEUTRAL, rest, "")
  {
    ReadsOn(NEUTRAL, cell, "|" + rest, "");
    AfterQuote(NEUTRAL, cell);
    assert ("|" + rest)[1..] == rest;
    assert "" + cell == cell;
  }

  function Row(cells: seq<string>): string {
    "|" + Closed(cells)
  }

  // Every cell followed by a pipe.
  function Closed(cells: seq<string>): string {
    if cells == [] then "" else cells[0] + ("|" + Closed(cells[1..]))
  }

  lemma {:induction false} ClosedPieces(cells: seq<string>)
    requires forall i :: 0 <= i < |cells| ==> Plain(cells[i])
    ensures Pieces(NEUTRAL, Closed(cells), "") == cells + [""]
  {
    if cells != [] {
      CellComesOff(cells[0], Closed(cells[1..]));
      ClosedPieces(cells[1..]);
      assert cells == [cells[0]] + cells[1..];
    }
  }

  lemma {:induction false} ClosedEnds(cells: seq<string>)
    requires cells != []
    ensures Closed(cells) != [] && Closed(cells)[|Closed(cells)| - 1] == '|'
  {
    if |cells| > 1 {
      ClosedEnds(cells[1..]);
    }
  }

  lemma TrimAllPlain(cells: seq<string>)
    requires forall i :: 0 <= i < |cells| ==> Plain(cells[i])
    ensures TrimAll(cells) == cells
  {
    forall i | 0 <= i < |cells| ensures Trim(cells[i]) == cells[i] {
      TrimTrims(cells[i]);
    }
  }

  // A row written from plain cells is read back: all of them, but for a last cell that is empty.
  lemma RowRoundTrip(cells: seq<string>)
    requires cells != [] && forall i :: 0 <= i < |cells| ==> Plain(cells[i])
    ensures Cells(Row(cells)) == if cells[|cells| - 1] == [] then cells[..|cells| - 1] else cells
  {
    var text := Row(cells);
    ClosedEnds(cells);
    TrimTrims(text);
    assert text[1..] == Closed(cells);
    ClosedPieces(cells);
    assert (cells + [""])[..|cells|] == cells;
    TrimAllPlain(cells);
  }

  // Whatever the row, its cells come back trimmed.
  lemma CellsTrimmed(row: string)
    ensures forall i :: 0 <= i < |Cells(row)| ==> Trimmed(Cells(row)[i])
  {
    var text := Trim(row);
    if text != [] && text[0] == '|' {
      var pieces := Pieces(NEUTRAL, text[1..], "");
      forall i | 0 <= i < |Cells(row)| ensures Trimmed(Cells(row)[i]) {
        TrimTrims(pieces[i]);
      }
    }
  }
}
