/** The parser as it runs: one pass over the lines, a mutable open region and an output
    sequence that only grows, each step proved to agree with `ParseSpec`. */
module ToHtml {
  import opened Text
  import opened HtmlElement
  import opened ParseSpec
  import opened ParseLemmas

  /** A table line's cells: the line stripped of every `|` at either end, split on `|`,
      each piece trimmed. */
  method ParseCells(line: string) returns (cells: seq<string>)
    ensures cells == Cells(line)
    ensures IsRow(cells)
  {
    var parts := Split(TrimBy(line, IsBar), '|');
    cells := TrimAll(parts);
    CellsOfParts(line, cells);
  }

  /** The pieces trimmed one by one, pushed in order. */
  method TrimAll(parts: seq<string>) returns (cells: seq<string>)
    ensures |cells| == |parts|
    ensures forall k :: 0 <= k < |parts| ==> cells[k] == Trim(parts[k])
  {
    cells := [];
    for i := 0 to |parts|
      invariant |cells| == i
      invariant forall k :: 0 <= k < i ==> cells[k] == Trim(parts[k])
    {
      cells := cells + [Trim(parts[i])];
    }
  }

  /** An empty line: a code block keeps it, any other open region is pushed to the output
      and no region is left open. */
  method HandleBlankLine(line: string, region: Region, elements: seq<Element>)
    returns (next: Region, out: seq<Element>)
    ensures region.Code? ==> next == Region.Code(region.lang, region.code + [line]) && out == elements
    ensures !region.Code? ==> next == NotSet && out == elements + Flush(region)
    ensures line == [] ==> State(next, out) == Step(State(region, elements), line)
  {
    match region
    case NotSet =>
      next, out := region, elements;
    case Code(lang, code) =>
      next, out := Region.Code(lang, code + [line]), elements;
    case OrderedList(list) =>
      next, out := NotSet, elements + [Element.OrderedList(list)];
    case UnorderedList(list) =>
      next, out := NotSet, elements + [Element.UnorderedList(list)];
    case Table(headers, rows, _) =>
      next, out := NotSet, elements + [Element.Table(headers, rows)];
    case Paragraph(lines) =>
      next, out := NotSet, elements + [Element.Paragraph(lines)];
  }

  /** A non-empty line while no region is open: a header is pushed at once, any other line
      opens a region. */
  method OpenLine(line: string, elements: seq<Element>) returns (next: Region, out: seq<Element>)
    requires line != []
    ensures State(next, out) == Step(State(NotSet, elements), line)
  {
    next, out := NotSet, elements;
    if StartsWith(line, "#") {
      var content := TrimStart(TrimStartMatches(line, "#"));
      var level := match Position(line, IsNotHash) case None => 0 case Some(i) => i;
      out := elements + [Element.Header(level, content)];
    } else if StartsWith(line, Fence) {
      var lang := Trim(TrimStartMatches(line, Fence));
      next := Region.Code(lang, []);
    } else if IsDigit(line[0]) {
      match SplitOnce(line, '.')
      case Some((_, rhs)) =>
        next := Region.OrderedList([TrimStart(rhs)]);
      case None =>
        next := Region.Paragraph([line]);
    } else if StartsWith(line, "- ") {
      next := Region.UnorderedList([TrimStartMatches(line, "- ")]);
    } else if StartsWith(line, "|") {
      var headers := ParseCells(line);
      next := Region.Table(headers, [], true);
    } else {
      next := Region.Paragraph([Trim(line)]);
    }
    assert Advance(NotSet, line) == OpenRegion(line);
  }

  /** A non-empty line inside a code block: a fence pushes the block, anything else is kept. */
  method CodeLine(line: string, lang: string, lines: seq<string>, elements: seq<Element>)
    returns (next: Region, out: seq<Element>)
    requires line != []
    ensures State(next, out) == Step(State(Region.Code(lang, lines), elements), line)
  {
    if StartsWith(line, Fence) {
      next, out := NotSet, elements + [Element.Code(lang, lines)];
    } else {
      next, out := Region.Code(lang, lines + [line]), elements;
    }
  }

  /** A non-empty line inside an ordered list: a digit-led line holding a `.` adds the text
      after its first `.`; any other line pushes the list and is dropped. */
  method OrderedLine(line: string, list: seq<string>, elements: seq<Element>)
    returns (next: Region, out: seq<Element>)
    requires line != []
    ensures State(next, out) == Step(State(Region.OrderedList(list), elements), line)
  {
    if IsDigit(line[0]) {
      match SplitOnce(line, '.')
      case Some((_, rhs)) =>
        next, out := Region.OrderedList(list + [TrimStart(rhs)]), elements;
      case None =>
        next, out := NotSet, elements + [Element.OrderedList(list)];
    } else {
      next, out := NotSet, elements + [Element.OrderedList(list)];
    }
  }

  /** A non-empty line inside an unordered list: a line that loses nothing to stripping the
      leading "- " runs pushes the list and is dropped; otherwise what is left is an item. */
  method UnorderedLine(line: string, list: seq<string>, elements: seq<Element>)
    returns (next: Region, out: seq<Element>)
    requires line != []
    ensures State(next, out) == Step(State(Region.UnorderedList(list), elements), line)
  {
    var noLeadingDash := TrimStartMatches(line, "- ");
    if |noLeadingDash| == |line| {
      next, out := NotSet, elements + [Element.UnorderedList(list)];
    } else {
      next, out := Region.UnorderedList(list + [noLeadingDash]), elements;
    }
  }

  /** A non-empty line inside a paragraph joins it, trimmed. */
  method ParagraphLine(line: string, lines: seq<string>, elements: seq<Element>)
    returns (next: Region, out: seq<Element>)
    requires line != []
    ensures State(next, out) == Step(State(Region.Paragraph(lines), elements), line)
  {
    next, out := Region.Paragraph(lines + [Trim(line)]), elements;
  }

  /** A non-empty line inside a table: the line after the header is skipped, a `|` line is a
      row, anything else pushes the table and is dropped. */
  method TableLine(line: string, headers: seq<string>, rows: seq<seq<string>>, isSeparator: bool,
                   elements: seq<Element>)
    returns (next: Region, out: seq<Element>)
    requires line != []
    ensures State(next, out) == Step(State(Region.Table(headers, rows, isSeparator), elements), line)
  {
    if isSeparator {
      next, out := Region.Table(headers, rows, false), elements;
    } else if StartsWith(line, "|") {
      var nextRow := ParseCells(line);
      next, out := Region.Table(headers, rows + [nextRow], false), elements;
    } else {
      next, out := NotSet, elements + [Element.Table(headers, rows)];
    }
  }

  /** One non-empty line, dispatched on the open region. */
  method ParseLine(line: string, region: Region, elements: seq<Element>)
    returns (next: Region, out: seq<Element>)
    requires line != []
    ensures State(next, out) == Step(State(region, elements), line)
  {
    match region
    case NotSet =>
      next, out := OpenLine(line, elements);
    case Code(lang, lines) =>
      next, out := CodeLine(line, lang, lines, elements);
    case OrderedList(list) =>
      next, out := OrderedLine(line, list, elements);
    case UnorderedList(list) =>
      next, out := UnorderedLine(line, list, elements);
    case Paragraph(lines) =>
      next, out := ParagraphLine(line, lines, elements);
    case Table(headers, rows, isSeparator) =>
      next, out := TableLine(line, headers, rows, isSeparator, elements);
  }

  /** The end of the input: a region still open is pushed as its element, no region pushes
      nothing. */
  method PushOpenRegion(region: Region, elements: seq<Element>) returns (out: seq<Element>)
    ensures out == elements + Flush(region)
    ensures region.NotSet? ==> out == elements
    ensures !region.NotSet? ==> |out| == |elements| + 1 && out[..|elements|] == elements
  {
    match region
    case NotSet =>
      out := elements;
    case Code(lang, code) =>
      out := elements + [Element.Code(lang, code)];
    case OrderedList(list) =>
      out := elements + [Element.OrderedList(list)];
    case UnorderedList(list) =>
      out := elements + [Element.UnorderedList(list)];
    case Table(headers, rows, _) =>
      out := elements + [Element.Table(headers, rows)];
    case Paragraph(lines) =>
      out := elements + [Element.Paragraph(lines)];
  }

  /** The elements of a Markdown document given as its lines: every line is read once, in
      order, and whatever region is still open at the end is pushed last. The result is the
      document's parse, has no more elements than lines and holds only well-formed elements. */
  method ParseMarkdown(text: seq<string>) returns (elements: seq<Element>)
    ensures elements == Parse(text)
    ensures |elements| <= |text|
    ensures forall i :: 0 <= i < |elements| ==> WellFormed(elements[i])
  {
    var region := NotSet;
    elements := [];
    for n := 0 to |text|
      invariant State(region, elements) == Run(Start, text[..n])
    {
      var line := text[n];
      RunSnoc(Start, text[..n], line);
      assert text[..n] + [line] == text[..n + 1];
      if line == [] {
        region, elements := HandleBlankLine(line, region, elements);
        continue;
      }
      region, elements := ParseLine(line, region, elements);
    }
    assert text[..|text|] == text;
    elements := PushOpenRegion(region, elements);
    ParseBound(text);
    ParseWellFormed(text);
    forall i | 0 <= i < |elements| ensures WellFormed(elements[i]) {
      assert elements[i] in elements;
    }
  }
}
