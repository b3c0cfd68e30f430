/** Replacing Markdown links by their labels, with targets that may hold balanced parentheses. */
module Links {
  import opened Prelude

  // ----- Where a link target ends -----

  predicate Bare(value: string, i: nat, c: char)
    requires i < |value|
  {
    value[i] == c && (i == 0 || value[i - 1] != '\\')
  }

  // Opening less closing parentheses, escaped ones aside, from one position up to another.
  function Balance(value: string, start: nat, i: nat): int
    requires start <= i <= |value|
    decreases i - start
  {
    if i == start then 0
    else Balance(value, start, i - 1) + (if Bare(value, i - 1, '(') then 1 else if Bare(value, i - 1, ')') then -1 else 0)
  }

  // A closing parenthesis with everything before it balanced.
  predicate Closes(value: string, start: nat, i: nat)
    requires start <= i < |value|
  {
    Bare(value, i, ')') && Balance(value, start, i) == 0
  }

  // The first of them, from a position on.
  function TargetEnd(value: string, start: nat, i: nat): (end: Option<nat>)
    requires start <= i <= |value|
    ensures end.Some? ==> i <= end.value < |value| && Closes(value, start, end.value)
    ensures forall j :: i <= j < (if end.Some? then end.value else |value|) ==> !Closes(value, start, j)
    decreases |value| - i
  {
    if i == |value| then None else if Closes(value, start, i) then Some(i) else TargetEnd(value, start, i + 1)
  }

  lemma {:induction false} TargetEndIs(value: string, start: nat, i: nat, end: nat)
    requires start <= i <= end < |value| && Closes(value, start, end)
    requires forall j :: i <= j < end ==> !Closes(value, start, j)
    ensures TargetEnd(value, start, i) == Some(end)
    decreases end - i
  {
    if i < end {
      TargetEndIs(value, start, i + 1, end);
    }
  }

  method BalancedUrlEnd(value: string, start: nat) returns (end: Option<nat>)
    requires start <= |value|
    ensures end == TargetEnd(value, start, start)
  {
    var depth := 0;
    for i := start to |value|
      invariant depth == Balance(value, start, i) && depth >= 0
      invariant TargetEnd(value, start, i) == TargetEnd(value, start, start)
    {
      if Bare(value, i, '(') {
        depth := depth + 1;
      } else if Bare(value, i, ')') {
        if depth == 0 { return Some(i); }
        depth := depth - 1;
      }
    }
    end := None;
  }

  // ----- The replacement -----

  function Find(value: string, c: char, i: nat): (at: Option<nat>)
    requires i <= |value|
    ensures at.Some? ==> i <= at.value < |value|
    decreases |value| - i
  {
    if i == |value| then None else if value[i] == c then Some(i) else Find(value, c, i + 1)
  }

  predicate Turns(value: string, i: nat) {
    i + 1 < |value| && value[i] == ']' && value[i + 1] == '('
  }

  function FindTurn(value: string, i: nat): (at: Option<nat>)
    requires i <= |value|
    ensures at.Some? ==> i <= at.value && at.value + 1 < |value|
    decreases |value| - i
  {
    if i == |value| then None else if Turns(value, i) then Some(i) else FindTurn(value, i + 1)
  }

  // The first link of a text: its opening bracket, the end of its label, the end of its target.
  function FirstLink(text: string): (link: Option<(nat, nat, nat)>)
    ensures link.Some? ==> link.value.0 < link.value.1 < link.value.2 < |text|
  {
    var open := Find(text, '[', 0);
    if open.None? then None
    else
      var turn := FindTurn(text, open.value + 1);
      if turn.None? then None
      else
        var end := TargetEnd(text, turn.value + 2, turn.value + 2);
        if end.None? then None else Some((open.value, turn.value, end.value))
  }

  // What a link leaves of the text up to its end: everything before it, and its label.
  function Cut(text: string, link: (nat, nat, nat)): string
    requires link.0 < link.1 < |text|
  {
    text[..link.0] + text[link.0 + 1..link.1]
  }

  // Every link found one after the other is replaced by its label, and nothing else is.
  function Labels(text: string): string
    decreases |text|
  {
    var link := FirstLink(text);
    if link.None? then text else Cut(text, link.value) + Labels(text[link.value.2 + 1..])
  }

  method LocateLink(text: string) returns (link: Option<(nat, nat, nat)>)
    ensures link == FirstLink(text)
  {
    var open := Find(text, '[', 0);
    if open.None? { return None; }
    var turn := FindTurn(text, open.value + 1);
    if turn.None? { return None; }
    var end := BalancedUrlEnd(text, turn.value + 2);
    if end.None? { return None; }
    link := Some((open.value, turn.value, end.value));
  }

  // What is put out and what is still to come make up the whole.
  ghost predicate Owed(value: string, output: string, text: string) {
    Labels(value) == output + Labels(text)
  }

  lemma PutOut(value: string, output: string, text: string)
    requires Owed(value, output, text) && FirstLink(text).Some?
    ensures var link := FirstLink(text).value; Owed(value, output + Cut(text, link), text[link.2 + 1..])
  {
    var link := FirstLink(text).value;
    Regroup(output, Cut(text, link), Labels(text[link.2 + 1..]));
  }

  lemma Regroup(a: string, b: string, c: string)
    ensures a + (b + c) == a + b + c
  {
  }

  lemma NothingPutOut(value: string)
    ensures Owed(value, "", value)
  {
  }

  lemma LastPutOut(value: string, output: string, text: string)
    requires Owed(value, output, text) && FirstLink(text).None?
    ensures output + text == Labels(value)
  {
  }

  // `text` is what follows the cursor.
  method ReplaceLinksWithLabels(value: string) returns (output: string)
    ensures output == Labels(value)
  {
    output := "";
    var text := value;
    NothingPutOut(value);
    while true
      invariant Owed(value, output, text)
      decreases |text|
    {
      var link := LocateLink(text);
      if link.None? { break; }
      PutOut(value, output, text);
      output := output + Cut(text, link.value);
      text := text[link.value.2 + 1..];
    }
    LastPutOut(value, output, text);
    output := output + text;
  }

  // ----- Round trip -----

  // Some text, and the link after it.
  datatype Span = Span(text: string, name: string, target: string)

  function Source(span: Span): string {
    span.text + "[" + span.name + "](" + span.target + ")"
  }

  function Render(spans: seq<Span>, tail: string): string {
    if spans == [] then tail else Source(spans[0]) + Render(spans[1..], tail)
  }

  function Shown(spans: seq<Span>, tail: string): string {
    if spans == [] then tail else spans[0].text + spans[0].name + Shown(spans[1..], tail)
  }

  predicate Balanced(target: string) {
    && (forall i :: 0 <= i < |target| ==> !Closes(target, 0, i))
    && Balance(target, 0, |target|) == 0
    && (target == [] || target[|target| - 1] != '\\')
  }

  // No bracket opens in the text, the label does not look like a link, the target is balanced.
  predicate Clean(span: Span) {
    '[' !in span.text && (forall i :: 0 <= i < |span.name| ==> !Turns(span.name, i)) && Balanced(span.target)
  }

  // Inside a larger text a target counts as it does alone, unless a backslash stands before it.
  lemma {:induction false} BalanceMoves(value: string, start: nat, target: string, i: nat)
    requires 0 < start && start + |target| <= |value| && value[start..start + |target|] == target
    requires value[start - 1] != '\\' && i <= |target|
    ensures Balance(value, start, start + i) == Balance(target, 0, i)
    decreases i
  {
    if i > 0 {
      BalanceMoves(value, start, target, i - 1);
      BareMoves(value, start, target, i - 1, '(');
      BareMoves(value, start, target, i - 1, ')');
    }
  }

  lemma BareMoves(value: string, start: nat, target: string, i: nat, c: char)
    requires 0 < start && start + |target| <= |value| && value[start..start + |target|] == target
    requires value[start - 1] != '\\' && i < |target|
    ensures Bare(value, start + i, c) == Bare(target, i, c)
  {
    var part := value[start..start + |target|];
    assert part[i] == value[start + i] && (i > 0 ==> part[i - 1] == value[start + i - 1]);
  }

  lemma TargetFound(value: string, start: nat, target: string)
    requires 0 < start && start + |target| < |value| && value[start..start + |target|] == target
    requires value[start - 1] != '\\' && Balanced(target) && value[start + |target|] == ')'
    ensures TargetEnd(value, start, start) == Some(start + |target|)
  {
    var end := start + |target|;
    BalanceMoves(value, start, target, |target|);
    if target != [] {
      assert value[start..end][|target| - 1] == value[end - 1];
    }
    forall j | start <= j < end ensures !Closes(value, start, j) {
      BalanceMoves(value, start, target, j - start);
      BareMoves(value, start, target, j - start, ')');
      assert !Closes(target, 0, j - start);
    }
    TargetEndIs(value, start, start, end);
  }

  lemma {:induction false} FindSkips(value: string, c: char, i: nat, at: nat)
    requires i <= at <= |value| && (forall j :: i <= j < at ==> value[j] != c)
    ensures Find(value, c, i) == Find(value, c, at)
    decreases at - i
  {
    if i < at {
      FindSkips(value, c, i + 1, at);
    }
  }

  lemma {:induction false} TurnSkips(value: string, i: nat, at: nat)
    requires i <= at <= |value| && (forall j :: i <= j < at ==> !Turns(value, j))
    ensures FindTurn(value, i) == FindTurn(value, at)
    decreases at - i
  {
    if i < at {
      TurnSkips(value, i + 1, at);
    }
  }

  // Where the parts of a link stand.
  ghost predicate LinkAt(text: string, span: Span, rest: string) {
    var open := |span.text|;
    var turn := open + 1 + |span.name|;
    var end := turn + 2 + |span.target|;
    && end < |text| && text[..open] == span.text && text[open] == '[' && text[open + 1..turn] == span.name
    && text[turn] == ']' && text[turn + 1] == '('
    && text[turn + 2..end] == span.target && text[end] == ')' && text[end + 1..] == rest
  }

  lemma LinkStands(span: Span, rest: string)
    ensures LinkAt(Source(span) + rest, span, rest)
  {
    var text := Source(span) + rest;
    var open := |span.text|;
    var turn := open + 1 + |span.name|;
    var end := turn + 2 + |span.target|;
    assert text[..open] == span.text && text[open + 1..turn] == span.name;
    assert text[turn + 2..end] == span.target && text[end + 1..] == rest;
  }

  // The label holds no turn, nor does it make one with the bracket that ends it.
  lemma NameHasNoTurn(text: string, open: nat, name: string, j: nat)
    requires open + 1 + |name| < |text| && text[open + 1..open + 1 + |name|] == name && text[open + 1 + |name|] == ']'
    requires (forall i :: 0 <= i < |name| ==> !Turns(name, i)) && open + 1 <= j < open + 1 + |name|
    ensures !Turns(text, j)
  {
    var k := j - open - 1;
    assert text[j] == name[k] && (k + 1 < |name| ==> text[j + 1] == name[k + 1]);
    assert !Turns(name, k);
  }

  lemma OpenFound(text: string, open: nat)
    requires open < |text| && '[' !in text[..open] && text[open] == '['
    ensures Find(text, '[', 0) == Some(open)
  {
    forall j | 0 <= j < open ensures text[j] != '[' {
      assert text[..open][j] == text[j];
    }
    FindSkips(text, '[', 0, open);
  }

  lemma TurnFound(text: string, open: nat, name: string)
    requires open + 2 + |name| < |text| && text[open + 1..open + 1 + |name|] == name && Turns(text, open + 1 + |name|)
    requires forall i :: 0 <= i < |name| ==> !Turns(name, i)
    ensures FindTurn(text, open + 1) == Some(open + 1 + |name|)
  {
    var turn := open + 1 + |name|;
    forall j | open + 1 <= j < turn ensures !Turns(text, j) {
      NameHasNoTurn(text, open, name, j);
    }
    TurnSkips(text, open + 1, turn);
  }

  lemma LinkFound(text: string, span: Span, rest: string)
    requires LinkAt(text, span, rest) && Clean(span)
    ensures var turn := |span.text| + 1 + |span.name|;
      FirstLink(text) == Some((|span.text|, turn, turn + 2 + |span.target|))
  {
    OpenFound(text, |span.text|);
    TurnFound(text, |span.text|, span.name);
    TargetFound(text, |span.text| + 3 + |span.name|, span.target);
  }

  lemma LinkCut(text: string, link: (nat, nat, nat), cut: string, rest: string)
    requires FirstLink(text) == Some(link) && Cut(text, link) == cut && text[link.2 + 1..] == rest
    ensures Labels(text) == cut + Labels(rest)
  {
  }

  lemma CutIs(text: string, span: Span, rest: string)
    requires LinkAt(text, span, rest)
    ensures var turn := |span.text| + 1 + |span.name|;
      turn < |text| && Cut(text, (|span.text|, turn, turn + 2 + |span.target|)) == span.text + span.name
  {
  }

  lemma FirstReplaced(text: string, span: Span, rest: string)
    requires LinkAt(text, span, rest) && Clean(span)
    ensures Labels(text) == span.text + span.name + Labels(rest)
  {
    var turn := |span.text| + 1 + |span.name|;
    var link := (|span.text|, turn, turn + 2 + |span.target|);
    LinkFound(text, span, rest);
    CutIs(text, span, rest);
    LinkCut(text, link, span.text + span.name, rest);
  }

  lemma {:induction false} NoBracketNoLink(text: string, i: nat)
    requires i <= |text| && '[' !in text
    ensures Find(text, '[', i) == None
    decreases |text| - i
  {
    if i < |text| {
      NoBracketNoLink(text, i + 1);
    }
  }

  // Text written as spans is shown with every link reduced to its label and nothing else changed.
  lemma {:induction false} LinksRoundTrip(spans: seq<Span>, tail: string)
    requires '[' !in tail && forall i :: 0 <= i < |spans| ==> Clean(spans[i])
    ensures Labels(Render(spans, tail)) == Shown(spans, tail)
  {
    if spans == [] {
      NoBracketNoLink(tail, 0);
    } else {
      LinksRoundTrip(spans[1..], tail);
      LinkStands(spans[0], Render(spans[1..], tail));
      FirstReplaced(Render(spans, tail), spans[0], Render(spans[1..], tail));
    }
  }
}
