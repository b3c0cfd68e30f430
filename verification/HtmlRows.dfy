/** Joining the HTML table rows that a patch spreads over several lines. */
module HtmlRows {

  datatype Kind = Added | Removed
  datatype Line = Line(kind: Kind, content: string)

  // What the row tags of one line say: how far they open or close rows, and whether the text holds a
  // row or cell opening, and a row closing.
  datatype Tags = Tags(depth: string -> int, opens: string -> bool, closes: string -> bool)

  predicate StartsRow(t: Tags, content: string) {
    t.opens(content) && (t.depth(content) > 0 || !t.closes(content))
  }

  function JoinLines(parts: seq<string>): string {
    if parts == [] then "" else if |parts| == 1 then parts[0] else parts[0] + "\n" + JoinLines(parts[1..])
  }

  function SplitLines(text: string): (parts: seq<string>)
    ensures |parts| >= 1
  {
    if text == [] then [""]
    else
      var rest := SplitLines(text[1..]);
      if text[0] == '\n' then [""] + rest else [[text[0]] + rest[0]] + rest[1..]
  }

  predicate OneLine(text: string) {
    '\n' !in text
  }

  function Loose(kind: Kind, parts: seq<string>): seq<Line> {
    seq(|parts|, i requires 0 <= i < |parts| => Line(kind, parts[i]))
  }

  function Depth(t: Tags, parts: seq<string>): int {
    if parts == [] then 0 else Depth(t, parts[..|parts| - 1]) + t.depth(parts[|parts| - 1])
  }

  // A row is complete with a line that closes one, once no more are open.
  predicate Complete(t: Tags, parts: seq<string>) {
    |parts| >= 2 && StartsRow(t, parts[0]) && t.closes(parts[|parts| - 1]) && Depth(t, parts) <= 0
  }

  // A row that has started and is not complete at any of its lines.
  predicate Pending(t: Tags, parts: seq<string>) {
    parts == [] || (StartsRow(t, parts[0]) && forall n :: 2 <= n <= |parts| ==> !Complete(t, parts[..n]))
  }

  // The lines of the output one by one: a joined row falls apart again.
  function Expand(lines: seq<Line>): seq<Line> {
    if lines == [] then [] else Loose(lines[0].kind, SplitLines(lines[0].content)) + Expand(lines[1..])
  }

  // ----- Laws of splitting -----

  lemma {:induction false} SplitOne(text: string)
    requires OneLine(text)
    ensures SplitLines(text) == [text]
  {
    if text != [] {
      SplitOne(text[1..]);
      assert text == [text[0]] + text[1..];
    }
  }

  lemma {:induction false} SplitFirst(head: string, rest: string)
    requires OneLine(head)
    ensures SplitLines(head + "\n" + rest) == [head] + SplitLines(rest)
  {
    var text := head + "\n" + rest;
    if head == [] {
      assert text[1..] == rest;
    } else {
      assert text[1..] == head[1..] + "\n" + rest && text[0] == head[0];
      SplitFirst(head[1..], rest);
      assert head == [head[0]] + head[1..];
    }
  }

  lemma {:induction false} SplitJoined(parts: seq<string>)
    requires parts != [] && forall i :: 0 <= i < |parts| ==> OneLine(parts[i])
    ensures SplitLines(JoinLines(parts)) == parts
  {
    if |parts| == 1 {
      SplitOne(parts[0]);
    } else {
      SplitJoined(parts[1..]);
      SplitFirst(parts[0], JoinLines(parts[1..]));
    }
  }

  lemma {:induction false} ExpandAppends(a: seq<Line>, b: seq<Line>)
    ensures Expand(a + b) == Expand(a) + Expand(b)
  {
    if a == [] {
      assert a + b == b;
    } else {
      assert (a + b)[1..] == a[1..] + b;
      ExpandAppends(a[1..], b);
      Regroup(Loose(a[0].kind, SplitLines(a[0].content)), Expand(a[1..]), Expand(b));
    }
  }

  lemma Regroup<T>(a: seq<T>, b: seq<T>, c: seq<T>)
    ensures a + (b + c) == a + b + c
  {
  }

  lemma {:induction false} ExpandLoose(lines: seq<Line>)
    requires forall i :: 0 <= i < |lines| ==> OneLine(lines[i].content)
    ensures Expand(lines) == lines
  {
    if lines != [] {
      SplitOne(lines[0].content);
      assert Loose(lines[0].kind, [lines[0].content]) == [lines[0]];
      ExpandLoose(lines[1..]);
    }
  }

  lemma ExpandRow(kind: Kind, parts: seq<string>)
    requires parts != [] && forall i :: 0 <= i < |parts| ==> OneLine(parts[i])
    ensures Expand([Line(kind, JoinLines(parts))]) == Loose(kind, parts)
  {
    SplitJoined(parts);
    assert [Line(kind, JoinLines(parts))][1..] == [];
  }

  // ----- The joining -----

  // Every output line is an input line as it was, or one complete row of one kind of change.
  ghost predicate Accounted(t: Tags, output: seq<Line>, input: seq<Line>) {
    && Expand(output) == input
    && forall i :: 0 <= i < |output| ==> OneLine(output[i].content) || Complete(t, SplitLines(output[i].content))
  }

  // The leading lines of one kind of change.
  function Stretch(lines: seq<Line>): (n: nat)
    ensures n <= |lines| && (lines != [] ==> n >= 1)
    ensures forall i :: 0 <= i < n ==> lines[i].kind == lines[0].kind
  {
    if lines == [] then 0
    else if |lines| > 1 && lines[1].kind == lines[0].kind then 1 + Stretch(lines[1..])
    else 1
  }

  function Texts(lines: seq<Line>): (parts: seq<string>)
    ensures |parts| == |lines|
  {
    seq(|lines|, i requires 0 <= i < |lines| => lines[i].content)
  }

  // The shortest complete row among the leading parts, tried from n parts on.
  function RowLength(t: Tags, parts: seq<string>, n: nat): (found: nat)
    ensures found == 0 || (n <= found <= |parts| && Complete(t, parts[..found]))
    decreases |parts| - n
  {
    if n > |parts| then 0 else if Complete(t, parts[..n]) then n else RowLength(t, parts, n + 1)
  }

  // Where a row starts, it is joined if the stretch of equal changes completes it, and otherwise the
  // whole stretch stays as it is; any other line stays as it is.
  function Rows(t: Tags, lines: seq<Line>): seq<Line>
    decreases |lines|
  {
    if lines == [] then []
    else if !StartsRow(t, lines[0].content) then [lines[0]] + Rows(t, lines[1..])
    else
      var m := Stretch(lines);
      var n := RowLength(t, Texts(lines[..m]), 2);
      if n == 0 then lines[..m] + Rows(t, lines[m..])
      else [Line(lines[0].kind, JoinLines(Texts(lines[..n])))] + Rows(t, lines[n..])
  }

  // The leading lines that are put out together, as one row or as they are.
  lemma FirstPiece(t: Tags, lines: seq<Line>) returns (n: nat, joined: bool)
    requires lines != []
    ensures 0 < n <= |lines|
    ensures !joined ==> Rows(t, lines) == lines[..n] + Rows(t, lines[n..])
    ensures joined ==> Rows(t, lines) == [Line(lines[0].kind, JoinLines(Texts(lines[..n])))] + Rows(t, lines[n..])
    ensures joined ==> Complete(t, Texts(lines[..n])) && forall i :: 0 <= i < n ==> lines[i].kind == lines[0].kind
  {
    n, joined := 1, false;
    if StartsRow(t, lines[0].content) {
      var m := Stretch(lines);
      var texts := Texts(lines[..m]);
      n := RowLength(t, texts, 2);
      joined := n != 0;
      if joined { assert Texts(lines[..n]) == texts[..n]; } else { n := m; }
    } else {
      assert lines[..1] == [lines[0]];
    }
  }

  // Lines may be joined, but none is lost, moved or given another kind.
  lemma {:induction false} RowsAccounted(t: Tags, lines: seq<Line>)
    requires forall i :: 0 <= i < |lines| ==> OneLine(lines[i].content)
    ensures Accounted(t, Rows(t, lines), lines)
    decreases |lines|
  {
    if lines != [] {
      var n, joined := FirstPiece(t, lines);
      RowsAccounted(t, lines[n..]);
      if joined { JoinedAccounted(t, lines, n); } else { KeptAccounted(t, lines, n); }
    }
  }

  // Leading lines put out as they are.
  lemma KeptAccounted(t: Tags, lines: seq<Line>, n: nat)
    requires n <= |lines| && Rows(t, lines) == lines[..n] + Rows(t, lines[n..])
    requires Accounted(t, Rows(t, lines[n..]), lines[n..]) && forall i :: 0 <= i < |lines| ==> OneLine(lines[i].content)
    ensures Accounted(t, Rows(t, lines), lines)
  {
    assert lines == lines[..n] + lines[n..];
    Kept(t, lines[..n], Rows(t, lines[n..]), lines[n..]);
  }

  // Leading lines put out as one row.
  lemma JoinedAccounted(t: Tags, lines: seq<Line>, n: nat)
    requires 0 < n <= |lines| && Rows(t, lines) == [Line(lines[0].kind, JoinLines(Texts(lines[..n])))] + Rows(t, lines[n..])
    requires Complete(t, Texts(lines[..n])) && (forall i :: 0 <= i < n ==> lines[i].kind == lines[0].kind)
    requires Accounted(t, Rows(t, lines[n..]), lines[n..]) && forall i :: 0 <= i < |lines| ==> OneLine(lines[i].content)
    ensures Accounted(t, Rows(t, lines), lines)
  {
    assert lines == Loose(lines[0].kind, Texts(lines[..n])) + lines[n..];
    RowFirst(t, lines[0].kind, Texts(lines[..n]), Rows(t, lines[n..]), lines[n..]);
  }

  lemma Kept(t: Tags, first: seq<Line>, output: seq<Line>, rest: seq<Line>)
    requires Accounted(t, output, rest) && forall i :: 0 <= i < |first| ==> OneLine(first[i].content)
    ensures Accounted(t, first + output, first + rest)
  {
    ExpandAppends(first, output);
    ExpandLoose(first);
  }

  lemma RowFirst(t: Tags, kind: Kind, parts: seq<string>, output: seq<Line>, rest: seq<Line>)
    requires Accounted(t, output, rest) && Complete(t, parts) && forall i :: 0 <= i < |parts| ==> OneLine(parts[i])
    ensures Accounted(t, [Line(kind, JoinLines(parts))] + output, Loose(kind, parts) + rest)
  {
    ExpandAppends([Line(kind, JoinLines(parts))], output);
    ExpandRow(kind, parts);
    SplitJoined(parts);
  }

  // ----- Which lines are joined -----

  function Total(t: Tags, lines: seq<Line>, n: nat): int
    requires n <= |lines|
  {
    if n == 0 then 0 else Total(t, lines, n - 1) + t.depth(lines[n - 1].content)
  }

  predicate Opens(t: Tags, lines: seq<Line>) {
    lines != [] && t.opens(lines[0].content) && (t.depth(lines[0].content) > 0 || !t.closes(lines[0].content))
  }

  // The first n lines, two or more and all of one kind of change, open a row and close as many as they open.
  predicate Spans(t: Tags, lines: seq<Line>, n: nat) {
    && 2 <= n <= |lines| && Opens(t, lines) && (forall i :: 0 <= i < n ==> lines[i].kind == lines[0].kind)
    && t.closes(lines[n - 1].content) && Total(t, lines, n) <= 0
  }

  lemma {:induction false} TotalIsDepth(t: Tags, lines: seq<Line>, n: nat)
    requires n <= |lines|
    ensures Depth(t, Texts(lines[..n])) == Total(t, lines, n)
  {
    if n > 0 {
      TotalIsDepth(t, lines, n - 1);
      assert Texts(lines[..n])[..n - 1] == Texts(lines[..n - 1]);
    }
  }

  lemma SpansIs(t: Tags, lines: seq<Line>, n: nat)
    requires 2 <= n <= Stretch(lines)
    ensures Spans(t, lines, n) <==> Complete(t, Texts(lines[..Stretch(lines)])[..n])
  {
    assert Texts(lines[..Stretch(lines)])[..n] == Texts(lines[..n]);
    TotalIsDepth(t, lines, n);
  }

  lemma {:induction false} StretchIs(lines: seq<Line>, m: nat)
    requires 0 < m <= |lines| && forall i :: 0 <= i < m ==> lines[i].kind == lines[0].kind
    ensures Stretch(lines) >= m
    ensures m == |lines| || lines[m].kind != lines[0].kind ==> Stretch(lines) == m
    decreases m
  {
    if m > 1 {
      assert lines[1].kind == lines[0].kind;
      StretchIs(lines[1..], m - 1);
    }
  }

  // The shortest row the lines span is put out as one line, and the rest is joined as if it stood alone.
  lemma RowsJoin(t: Tags, lines: seq<Line>, n: nat)
    requires Spans(t, lines, n) && forall k :: 2 <= k < n ==> !Spans(t, lines, k)
    ensures Rows(t, lines) == [Line(lines[0].kind, JoinLines(Texts(lines[..n])))] + Rows(t, lines[n..])
  {
    StretchIs(lines, n);
    forall k | 2 <= k <= n ensures Spans(t, lines, k) <==> Complete(t, Texts(lines[..Stretch(lines)])[..k]) { SpansIs(t, lines, k); }
    LengthIs(t, Texts(lines[..Stretch(lines)]), 2, n);
  }

  // A row begun and never closed by lines of its kind leaves all of them as they are; so does any line
  // that begins no row.
  lemma RowsLeave(t: Tags, lines: seq<Line>, m: nat)
    requires 0 < m <= |lines| && forall i :: 0 <= i < m ==> lines[i].kind == lines[0].kind
    requires Opens(t, lines) ==> (m == |lines| || lines[m].kind != lines[0].kind) && forall k :: 2 <= k <= m ==> !Spans(t, lines, k)
    requires !Opens(t, lines) ==> m == 1
    ensures Rows(t, lines) == lines[..m] + Rows(t, lines[m..])
  {
    if Opens(t, lines) {
      StretchIs(lines, m);
      var texts := Texts(lines[..m]);
      forall k | 2 <= k <= |texts| ensures !Complete(t, texts[..k]) { SpansIs(t, lines, k); }
      LengthNone(t, texts, 2);
    } else {
      assert lines[..1] == [lines[0]];
    }
  }

  // ----- The single pass -----

  lemma {:induction false} StretchOf(kind: Kind, parts: seq<string>, rest: seq<Line>)
    requires parts != []
    ensures Stretch(Loose(kind, parts) + rest) == |parts| + (if rest != [] && rest[0].kind == kind then Stretch(rest) else 0)
    decreases |parts|
  {
    var lines := Loose(kind, parts) + rest;
    if |parts| == 1 {
      assert lines[1..] == rest;
    } else {
      assert lines[1..] == Loose(kind, parts[1..]) + rest;
      StretchOf(kind, parts[1..], rest);
    }
  }

  lemma {:induction false} LengthIs(t: Tags, parts: seq<string>, n: nat, found: nat)
    requires n <= found <= |parts| && Complete(t, parts[..found])
    requires forall k :: n <= k < found ==> !Complete(t, parts[..k])
    ensures RowLength(t, parts, n) == found
    decreases found - n
  {
    if n < found {
      LengthIs(t, parts, n + 1, found);
    }
  }

  lemma {:induction false} LengthNone(t: Tags, parts: seq<string>, n: nat)
    requires forall k :: n <= k <= |parts| ==> !Complete(t, parts[..k])
    ensures RowLength(t, parts, n) == 0
    decreases |parts| - n
  {
    if n <= |parts| {
      LengthNone(t, parts, n + 1);
    }
  }

  // The line that completes a pending row.
  lemma RowCompletes(t: Tags, kind: Kind, parts: seq<string>, last: string, rest: seq<Line>)
    requires parts != [] && Pending(t, parts) && Complete(t, parts + [last])
    ensures Rows(t, Loose(kind, parts + [last]) + rest) == [Line(kind, JoinLines(parts + [last]))] + Rows(t, rest)
  {
    var whole := parts + [last];
    var lines := Loose(kind, whole) + rest;
    StretchOf(kind, whole, rest);
    var m := Stretch(lines);
    var texts := Texts(lines[..m]);
    assert forall k :: 0 <= k <= |whole| ==> texts[..k] == whole[..k];
    assert whole[..|whole|] == whole;
    assert forall k :: 2 <= k <= |parts| ==> whole[..k] == parts[..k];
    LengthIs(t, texts, 2, |whole|);
    assert Texts(lines[..|whole|]) == whole && lines[|whole|..] == rest;
  }

  // A pending row is given up where the kind changes or the lines end.
  lemma RowGivenUp(t: Tags, kind: Kind, parts: seq<string>, rest: seq<Line>)
    requires parts != [] && Pending(t, parts) && (rest == [] || rest[0].kind != kind)
    ensures Rows(t, Loose(kind, parts) + rest) == Loose(kind, parts) + Rows(t, rest)
  {
    var lines := Loose(kind, parts) + rest;
    StretchOf(kind, parts, rest);
    assert Texts(lines[..|parts|]) == parts;
    assert parts[..0] == [];
    LengthNone(t, parts, 2);
    assert lines[..|parts|] == Loose(kind, parts) && lines[|parts|..] == rest;
  }

  // What is still to be put out once the first i lines are read and some of them held back.
  ghost predicate Reached(t: Tags, lines: seq<Line>, i: nat, output: seq<Line>, kind: Kind, buffered: seq<string>)
    requires i <= |lines|
  {
    Rows(t, lines) == output + Rows(t, Loose(kind, buffered) + lines[i..])
  }

  lemma Hold(kind: Kind, parts: seq<string>, lines: seq<Line>, i: nat)
    requires i < |lines| && lines[i].kind == kind
    ensures Loose(kind, parts + [lines[i].content]) + lines[i + 1..] == Loose(kind, parts) + lines[i..]
  {
  }

  lemma JoinStep(t: Tags, lines: seq<Line>, i: nat, output: seq<Line>, kind: Kind, parts: seq<string>)
    requires i < |lines| && lines[i].kind == kind && parts != [] && Pending(t, parts)
    requires Reached(t, lines, i, output, kind, parts) && Complete(t, parts + [lines[i].content])
    ensures Reached(t, lines, i + 1, output + [Line(kind, JoinLines(parts + [lines[i].content]))], kind, [])
  {
    var row, rest := [Line(kind, JoinLines(parts + [lines[i].content]))], lines[i + 1..];
    Hold(kind, parts, lines, i);
    RowCompletes(t, kind, parts, lines[i].content, rest);
    Regroup(output, row, Rows(t, rest));
    NothingHeld(kind, rest);
  }

  lemma NothingHeld(kind: Kind, rest: seq<Line>)
    ensures Loose(kind, []) + rest == rest
  {
  }

  lemma GiveUpStep(t: Tags, lines: seq<Line>, i: nat, output: seq<Line>, kind: Kind, parts: seq<string>)
    requires i <= |lines| && parts != [] && Pending(t, parts) && (i < |lines| ==> lines[i].kind != kind)
    requires Reached(t, lines, i, output, kind, parts)
    ensures Reached(t, lines, i, output + Loose(kind, parts), kind, [])
  {
    RowGivenUp(t, kind, parts, lines[i..]);
    Regroup(output, Loose(kind, parts), Rows(t, lines[i..]));
    NothingHeld(kind, lines[i..]);
  }

  lemma StartStep(t: Tags, lines: seq<Line>, i: nat, output: seq<Line>, kind: Kind)
    requires i < |lines| && Reached(t, lines, i, output, kind, [])
    ensures Reached(t, lines, i + 1, output, lines[i].kind, [lines[i].content])
  {
    assert Loose(kind, []) + lines[i..] == Loose(lines[i].kind, [lines[i].content]) + lines[i + 1..];
  }

  lemma PassStep(t: Tags, lines: seq<Line>, i: nat, output: seq<Line>, kind: Kind)
    requires i < |lines| && Reached(t, lines, i, output, kind, []) && !StartsRow(t, lines[i].content)
    ensures Reached(t, lines, i + 1, output + [lines[i]], kind, [])
  {
    NothingHeld(kind, lines[i..]);
    NothingHeld(kind, lines[i + 1..]);
    assert lines[i..][1..] == lines[i + 1..];
    Regroup(output, [lines[i]], Rows(t, lines[i + 1..]));
  }

  // A line of the pending row's kind is held back, or completes it.
  lemma HoldStep(t: Tags, lines: seq<Line>, i: nat, output: seq<Line>, kind: Kind, parts: seq<string>)
    requires i < |lines| && lines[i].kind == kind && parts != [] && Pending(t, parts)
    requires Reached(t, lines, i, output, kind, parts) && !Complete(t, parts + [lines[i].content])
    ensures Reached(t, lines, i + 1, output, kind, parts + [lines[i].content]) && Pending(t, parts + [lines[i].content])
  {
    Hold(kind, parts, lines, i);
    StillPending(t, parts, lines[i].content);
  }

  method Coalesce(t: Tags, lines: seq<Line>) returns (output: seq<Line>)
    ensures output == Rows(t, lines)
  {
    output := [];
    var buffered: seq<string>, kind, depth := [], Added, 0;
    NothingHeld(kind, lines);
    assert lines[0..] == lines;
    for i := 0 to |lines|
      invariant Reached(t, lines, i, output, kind, buffered)
      invariant depth == Depth(t, buffered) && Pending(t, buffered)
    {
      var line := lines[i];
      if buffered != [] && line.kind == kind {
        DepthNext(t, buffered, line.content);
        ghost var was := buffered;
        buffered := buffered + [line.content];
        depth := depth + t.depth(line.content);
        if t.closes(line.content) && depth <= 0 {
          JoinStep(t, lines, i, output, kind, was);
          output := output + [Line(kind, JoinLines(buffered))];
          buffered, depth := [], 0;
        } else {
          HoldStep(t, lines, i, output, kind, was);
        }
      } else {
        if buffered != [] {
          GiveUpStep(t, lines, i, output, kind, buffered);
          output := output + Loose(kind, buffered);
          buffered, depth := [], 0;
        }
        if StartsRow(t, line.content) {
          StartStep(t, lines, i, output, kind);
          DepthNext(t, [], line.content);
          buffered, kind, depth := [line.content], line.kind, t.depth(line.content);
        } else {
          PassStep(t, lines, i, output, kind);
          output := output + [line];
        }
      }
    }
    if buffered != [] {
      GiveUpStep(t, lines, |lines|, output, kind, buffered);
      output := output + Loose(kind, buffered);
    }
    NothingHeld(kind, lines[|lines|..]);
  }

  lemma DepthNext(t: Tags, parts: seq<string>, last: string)
    ensures Depth(t, parts + [last]) == Depth(t, parts) + t.depth(last)
  {
    assert (parts + [last])[..|parts|] == parts;
  }

  lemma StillPending(t: Tags, parts: seq<string>, last: string)
    requires parts != [] && Pending(t, parts) && !Complete(t, parts + [last])
    ensures Pending(t, parts + [last])
  {
    var whole := parts + [last];
    assert whole[..|whole|] == whole;
    assert forall n :: 2 <= n <= |parts| ==> whole[..n] == parts[..n];
  }
}
