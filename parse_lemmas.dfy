/** What the parser promises, proved about the functions of `ParseSpec`. */
module ParseLemmas {
  import opened Text
  import opened HtmlElement
  import opened ParseSpec

  /** Every line trimmed, as paragraph continuation lines are. */
  function TrimEach(ls: seq<string>): seq<string> {
    seq(|ls|, i requires 0 <= i < |ls| => Trim(ls[i]))
  }

  /** The cells of every line, as table data rows are. */
  function CellsEach(ls: seq<string>): seq<seq<string>> {
    seq(|ls|, i requires 0 <= i < |ls| => Cells(ls[i]))
  }

  /** The item of every ordered-list line. */
  function OrderedItems(ls: seq<string>): seq<string>
    requires forall i :: 0 <= i < |ls| ==> IsOrderedItem(ls[i])
  {
    seq(|ls|, i requires 0 <= i < |ls| => OrderedItem(ls[i]))
  }

  /** The item of every unordered-list line: the line without its leading "- " runs. */
  function DashItems(ls: seq<string>): seq<string> {
    seq(|ls|, i requires 0 <= i < |ls| => TrimStartMatches(ls[i], "- "))
  }

  /** How many elements a region will still yield. */
  function Pending(r: Region): nat {
    if r.NotSet? then 0 else 1
  }

  /** Feeding one more line is one more step. */
  lemma RunSnoc(st: State, ls: seq<string>, line: string)
    ensures Run(st, ls + [line]) == Step(Run(st, ls), line)
  {
    assert (ls + [line])[..|ls|] == ls;
  }

  /** Feeding two blocks of lines one after the other is feeding their concatenation. */
  lemma {:induction false} RunConcat(st: State, a: seq<string>, b: seq<string>)
    ensures Run(st, a + b) == Run(Run(st, a), b)
    decreases |b|
  {
    if b == [] {
      assert a + b == a;
    } else {
      var front := b[..|b| - 1];
      assert (a + b)[..|a + b| - 1] == a + front;
      RunConcat(st, a, front);
    }
  }

  /** Whatever a line emits leaves no region open; an open region that a line closes is
      emitted, never dropped; and with no region open, only a header line emits. */
  lemma AdvanceEmits(r: Region, line: string)
    ensures var t := Advance(r, line);
      |t.emitted| <= 1
      && (t.emitted != [] ==> t.next.NotSet?)
      && (!r.NotSet? && t.next.NotSet? ==> t.emitted == Flush(r))
      && (r.NotSet? && t.emitted != [] ==> line != [] && t.emitted[0].Header?)
  {
    if line != [] {
      match r
      case NotSet =>
      case Code(_, _) =>
      case OrderedList(_) =>
      case UnorderedList(_) =>
      case Paragraph(_) =>
      case Table(_, _, _) =>
    }
  }

  /** A line emits at most one element, and only by closing the open region or by
      being a header while none is open. */
  lemma AdvanceBound(r: Region, line: string)
    ensures var t := Advance(r, line);
      |t.emitted| + Pending(t.next) <= Pending(r) + 1
  {
    if line != [] {
      match r
      case NotSet =>
      case Code(_, _) =>
      case OrderedList(_) =>
      case UnorderedList(_) =>
      case Paragraph(_) =>
      case Table(_, _, _) =>
    }
  }

  /** The output is append-only: whatever was emitted before is a prefix of what is emitted
      after any further lines, and each line adds at most one element. */
  lemma {:induction false} RunExtends(st: State, ls: seq<string>)
    ensures var out := Run(st, ls).elements;
      |st.elements| <= |out| && out[..|st.elements|] == st.elements
    ensures |Run(st, ls).elements| + Pending(Run(st, ls).region) <= |st.elements| + Pending(st.region) + |ls|
    decreases |ls|
  {
    if ls != [] {
      var before := Run(st, ls[..|ls| - 1]);
      RunExtends(st, ls[..|ls| - 1]);
      AdvanceBound(before.region, ls[|ls| - 1]);
    }
  }

  /** Document order: the elements emitted while reading the first lines of a document
      are the first elements of the whole document's output. */
  lemma ParsePrefix(a: seq<string>, b: seq<string>)
    ensures var out := Run(Start, a).elements;
      |out| <= |Parse(a + b)| && Parse(a + b)[..|out|] == out
  {
    RunConcat(Start, a, b);
    RunExtends(Run(Start, a), b);
  }

  /** What was emitted before plays no part in what comes next: running from a region with
      some output already emitted is running from that region with none, then prefixing. */
  lemma {:induction false} RunShift(r: Region, es: seq<Element>, ls: seq<string>)
    ensures var alone := Run(State(r, []), ls);
      Run(State(r, es), ls) == State(alone.region, es + alone.elements)
    decreases |ls|
  {
    if ls == [] {
      assert es + [] == es;
    } else {
      var front, last := ls[..|ls| - 1], ls[|ls| - 1];
      RunShift(r, es, front);
      var mid := Run(State(r, []), front);
      var t := Advance(mid.region, last);
      assert es + mid.elements + t.emitted == es + (mid.elements + t.emitted);
    }
  }

  /** After a stretch of lines that leaves no region open, the rest runs as if on its own,
      its output following what was emitted so far. */
  lemma RunAfterIdle(a: seq<string>, b: seq<string>)
    requires Run(Start, a).region == NotSet
    ensures Run(Start, a + b)
      == State(Run(Start, b).region, Run(Start, a).elements + Run(Start, b).elements)
  {
    var es := Run(Start, a).elements;
    RunConcat(Start, a, b);
    assert Run(Start, a) == State(NotSet, es);
    RunShift(NotSet, es, b);
  }

  /** Two stretches of lines that each start and end with no region open run one after the
      other, their outputs concatenated. */
  lemma RunIdleThen(a: seq<string>, b: seq<string>, ea: seq<Element>, eb: seq<Element>)
    requires Run(Start, a) == State(NotSet, ea) && Run(Start, b) == State(NotSet, eb)
    ensures Run(Start, a + b) == State(NotSet, ea + eb)
  {
    RunAfterIdle(a, b);
  }

  /** A document splits at any line after which no region is open: the parse of the whole is
      the elements emitted so far followed by the parse of the rest on its own. */
  lemma ParseAfter(a: seq<string>, b: seq<string>)
    requires Run(Start, a).region == NotSet
    ensures Parse(a + b) == Run(Start, a).elements + Parse(b)
  {
    var es, alone, whole := Run(Start, a).elements, Run(Start, b), Run(Start, a + b);
    RunAfterIdle(a, b);
    assert whole.elements == es + alone.elements && whole.region == alone.region;
    var tail := Flush(alone.region);
    assert Parse(a + b) == whole.elements + tail && Parse(b) == alone.elements + tail;
    assert es + alone.elements + tail == es + (alone.elements + tail);
  }

  /** The parse is total, an empty document has no elements, and no document yields more
      elements than it has lines. */
  lemma ParseBound(lines: seq<string>)
    ensures lines == [] ==> Parse(lines) == []
    ensures |Parse(lines)| <= |lines|
  {
    RunExtends(Start, lines);
  }

  /** The region an open block keeps is well formed: it would flush a well-formed element. */
  predicate RegionOk(r: Region) {
    r.NotSet? || WellFormed(Flush(r)[0])
  }

  predicate StateOk(st: State) {
    RegionOk(st.region) && forall i :: 0 <= i < |st.elements| ==> WellFormed(st.elements[i])
  }

  /** Trimming leaves no whitespace at either end and adds no character. */
  lemma TrimmedCell(s: string)
    requires '|' !in s
    ensures IsCell(Trim(s))
  {
    var r := Trim(s);
    var i := |s| - |TrimStartBy(s, IsWhitespace)|;
    TrimBySlice(s, IsWhitespace);
    forall k | 0 <= k < |r| ensures r[k] != '|' {
      assert r[k] == s[i + k];
    }
  }

  /** The pieces of a table line trimmed one by one are its cells, and form a row. */
  lemma CellsOfParts(line: string, cells: seq<string>)
    requires var parts := Split(TrimBy(line, IsBar), '|');
      |cells| == |parts| && forall k :: 0 <= k < |parts| ==> cells[k] == Trim(parts[k])
    ensures cells == Cells(line) && IsRow(cells)
  {
    CellsWellFormed(line);
  }

  /** Every cell of a table line is trimmed and free of `|`, and there is at least one. */
  lemma CellsWellFormed(line: string)
    ensures IsRow(Cells(line))
  {
    var parts := Split(TrimBy(line, IsBar), '|');
    forall i | 0 <= i < |parts| ensures IsCell(Cells(line)[i]) {
      TrimmedCell(parts[i]);
    }
  }

  /** A transition leads to a well-formed region and emits only well-formed elements. */
  predicate TransitionOk(t: Transition) {
    RegionOk(t.next) && forall i :: 0 <= i < |t.emitted| ==> WellFormed(t.emitted[i])
  }

  lemma OpenHeaderWellFormed(line: string)
    requires StartsWith(line, "#")
    ensures TransitionOk(OpenRegion(line))
  {
    var content := HeaderContent(line);
    assert OpenRegion(line) == Transition(NotSet, [Element.Header(HeaderLevel(line), content)]);
    assert content == [] || !IsWhitespace(content[0]);
  }

  lemma OpenOrderedWellFormed(line: string)
    requires !StartsWith(line, "#") && !StartsWith(line, Fence) && IsOrderedItem(line)
    ensures TransitionOk(OpenRegion(line))
  {
    var item := OrderedItem(line);
    assert OpenRegion(line) == Transition(Region.OrderedList([item]), []);
    assert item == [] || !IsWhitespace(item[0]);
  }

  lemma OpenTableWellFormed(line: string)
    requires !StartsWith(line, "#") && !StartsWith(line, Fence) && !StartsWithDigit(line)
    requires !StartsWith(line, "- ") && StartsWith(line, "|")
    ensures TransitionOk(OpenRegion(line))
  {
    CellsWellFormed(line);
    assert OpenRegion(line) == Transition(Region.Table(Cells(line), [], true), []);
  }

  lemma OpenOtherWellFormed(line: string)
    requires !StartsWith(line, "#") && !IsOrderedItem(line) && !StartsWith(line, "|")
    ensures TransitionOk(OpenRegion(line))
  {
    if StartsWith(line, Fence) {
      assert OpenRegion(line) == Transition(Region.Code(FenceLanguage(line), []), []);
    } else if StartsWithDigit(line) {
      assert OpenRegion(line) == Transition(Region.Paragraph([line]), []);
    } else if StartsWith(line, "- ") {
      assert OpenRegion(line) == Transition(Region.UnorderedList([TrimStartMatches(line, "- ")]), []);
    } else {
      assert OpenRegion(line) == Transition(Region.Paragraph([Trim(line)]), []);
    }
  }

  /** A line read while no region is open opens a well-formed region, or emits a
      well-formed header. */
  lemma OpenRegionWellFormed(line: string)
    ensures TransitionOk(OpenRegion(line))
  {
    if StartsWith(line, "#") {
      OpenHeaderWellFormed(line);
    } else if StartsWith(line, Fence) {
      OpenOtherWellFormed(line);
    } else if IsOrderedItem(line) {
      OpenOrderedWellFormed(line);
    } else if StartsWithDigit(line) || StartsWith(line, "- ") || !StartsWith(line, "|") {
      OpenOtherWellFormed(line);
    } else {
      OpenTableWellFormed(line);
    }
  }

  /** Closing a well-formed region emits a well-formed element. */
  lemma CloseWellFormed(r: Region)
    requires RegionOk(r)
    ensures TransitionOk(Close(r))
  {
  }

  lemma OrderedWellFormed(list: seq<string>, line: string)
    requires line != [] && RegionOk(Region.OrderedList(list))
    ensures TransitionOk(Advance(Region.OrderedList(list), line))
  {
    var r := Region.OrderedList(list);
    if IsOrderedItem(line) {
      var item := OrderedItem(line);
      assert item == [] || !IsWhitespace(item[0]);
      assert Advance(r, line) == Transition(Region.OrderedList(list + [item]), []);
    } else {
      CloseWellFormed(r);
    }
  }

  lemma UnorderedWellFormed(list: seq<string>, line: string)
    requires line != [] && RegionOk(Region.UnorderedList(list))
    ensures TransitionOk(Advance(Region.UnorderedList(list), line))
  {
    var r := Region.UnorderedList(list);
    var rest := TrimStartMatches(line, "- ");
    if |rest| == |line| {
      CloseWellFormed(r);
    } else {
      assert !StartsWith(rest, "- ");
      assert Advance(r, line) == Transition(Region.UnorderedList(list + [rest]), []);
    }
  }

  lemma TableWellFormed(headers: seq<string>, rows: seq<seq<string>>, isSeparator: bool, line: string)
    requires line != [] && RegionOk(Region.Table(headers, rows, isSeparator))
    ensures TransitionOk(Advance(Region.Table(headers, rows, isSeparator), line))
  {
    var r := Region.Table(headers, rows, isSeparator);
    if isSeparator {
      assert Advance(r, line) == Transition(Region.Table(headers, rows, false), []);
    } else if StartsWith(line, "|") {
      CellsWellFormed(line);
      assert Advance(r, line) == Transition(Region.Table(headers, rows + [Cells(line)], false), []);
    } else {
      CloseWellFormed(r);
    }
  }

  /** One line keeps the open region well formed and emits only well-formed elements. */
  lemma AdvanceWellFormed(r: Region, line: string)
    requires RegionOk(r)
    ensures TransitionOk(Advance(r, line))
  {
    if line == [] {
      if !r.Code? {
        CloseWellFormed(r);
      }
    } else {
      match r
      case NotSet => OpenRegionWellFormed(line);
      case Code(_, _) =>
      case OrderedList(list) => OrderedWellFormed(list, line);
      case UnorderedList(list) => UnorderedWellFormed(list, line);
      case Paragraph(_) =>
      case Table(headers, rows, isSeparator) => TableWellFormed(headers, rows, isSeparator, line);
    }
  }

  lemma StepWellFormed(st: State, line: string)
    requires StateOk(st)
    ensures StateOk(Step(st, line))
  {
    AdvanceWellFormed(st.region, line);
  }

  /** Every element of every document is well formed: lists and paragraphs are never
      empty, header text and ordered-list items carry no leading whitespace, cells are
      trimmed. */
  lemma {:induction false} RunWellFormed(st: State, ls: seq<string>)
    requires StateOk(st)
    ensures StateOk(Run(st, ls))
    decreases |ls|
  {
    if ls != [] {
      RunWellFormed(st, ls[..|ls| - 1]);
      StepWellFormed(Run(st, ls[..|ls| - 1]), ls[|ls| - 1]);
    }
  }

  lemma ParseWellFormed(lines: seq<string>)
    ensures forall e :: e in Parse(lines) ==> WellFormed(e)
  {
    RunWellFormed(Start, lines);
  }
}
