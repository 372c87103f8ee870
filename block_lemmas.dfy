/** How each kind of block is read: what a run of lines of one construct turns into, which
    line ends it, and what becomes of that line. */
module BlockLemmas {
  import opened Text
  import opened HtmlElement
  import opened ParseSpec
  import opened ParseLemmas

  /** One line is one step. */
  lemma RunOne(st: State, line: string)
    ensures Run(st, [line]) == Step(st, line)
  {
    RunSnoc(st, [], line);
    assert [] + [line] == [line];
  }

  /** Feeding a non-empty list of lines is feeding all but the last, then the last. */
  lemma RunLast(st: State, ls: seq<string>)
    requires ls != []
    ensures Run(st, ls) == Step(Run(st, ls[..|ls| - 1]), ls[|ls| - 1])
  {
  }

  /** Feeding a non-empty list of lines is feeding the first, then the rest. */
  lemma RunFirst(st: State, ls: seq<string>)
    requires ls != []
    ensures Run(st, ls) == Run(Step(st, ls[0]), ls[1..])
  {
    RunConcat(st, [ls[0]], ls[1..]);
    assert [ls[0]] + ls[1..] == ls;
    RunSnoc(st, [], ls[0]);
    assert [] + [ls[0]] == [ls[0]];
  }

  /** With no region open, a non-empty line goes to the classifier. */
  lemma OpenStep(es: seq<Element>, line: string)
    requires line != []
    ensures Step(State(NotSet, es), line) == State(OpenRegion(line).next, es + OpenRegion(line).emitted)
  {
    assert Advance(NotSet, line) == OpenRegion(line);
  }

  /** The parse of a document is the state its lines lead to, with the open region flushed. */
  lemma ParseFrom(lines: seq<string>, st: State)
    requires Run(Start, lines) == st
    ensures Parse(lines) == st.elements + Flush(st.region)
  {
  }

  // ---- Single lines with no region open ----

  /** With no region open, an empty line does nothing. */
  lemma BlankIdle(es: seq<Element>)
    ensures Step(State(NotSet, es), "") == State(NotSet, es)
  {
    assert es + [] == es;
  }

  /** With no region open, a header line is emitted at once and leaves no region open. Its
      level is the number of leading `#`, or 0 when the line is nothing but `#`; its text is
      the rest of the line without leading whitespace. */
  lemma HeaderLine(es: seq<Element>, k: nat, rest: string)
    requires k >= 1 && (rest == [] || rest[0] != '#')
    ensures Step(State(NotSet, es), Repeat("#", k) + rest)
      == State(NotSet, es + [Element.Header(if rest == [] then 0 else k, TrimStart(rest))])
  {
    var line := Repeat("#", k) + rest;
    HeaderParts(k, rest);
    assert OpenRegion(line) == Transition(NotSet, [Element.Header(HeaderLevel(line), HeaderContent(line))]);
    OpenStep(es, line);
  }

  lemma HeaderParts(k: nat, rest: string)
    requires k >= 1 && (rest == [] || rest[0] != '#')
    ensures var line := Repeat("#", k) + rest;
      line != [] && StartsWith(line, "#")
      && HeaderLevel(line) == (if rest == [] then 0 else k)
      && HeaderContent(line) == TrimStart(rest)
  {
    var line := Repeat("#", k) + rest;
    RepeatChar('#', k);
    assert line[..1] == "#" by { assert line[0] == '#'; }
    assert !StartsWith(rest, "#");
    TrimStartMatchesRepeat("#", k, rest);
    if rest == [] {
      assert line == Repeat("#", k);
    } else {
      assert line[k] == rest[0];
    }
  }

  /** Only the empty string is a blank line: a line of whitespace with no region open opens
      a paragraph holding one empty line. */
  lemma WhitespaceLineIsText(es: seq<Element>, line: string)
    requires line != [] && forall i :: 0 <= i < |line| ==> IsWhitespace(line[i])
    ensures Step(State(NotSet, es), line) == State(Region.Paragraph([""]), es)
  {
    var r := Trim(line);
    TrimBySlice(line, IsWhitespace);
    assert r == [];
    assert OpenRegion(line) == Transition(Region.Paragraph([r]), []);
    OpenStep(es, line);
    assert es + [] == es;
  }

  /** A digit-led line without any `.` opens a paragraph holding the line untrimmed. */
  lemma DigitWithoutDot(es: seq<Element>, line: string)
    requires StartsWithDigit(line) && '.' !in line
    ensures Step(State(NotSet, es), line) == State(Region.Paragraph([line]), es)
  {
    assert OpenRegion(line) == Transition(Region.Paragraph([line]), []);
    OpenStep(es, line);
    assert es + [] == es;
  }

  // ---- Code blocks ----

  /** With no region open, a fence line opens a code block; its language is the line without
      its fence markers, trimmed. */
  lemma CodeOpen(es: seq<Element>, open: string)
    requires StartsWith(open, Fence)
    ensures Step(State(NotSet, es), open) == State(Region.Code(FenceLanguage(open), []), es)
  {
    assert open[0] == Fence[0];
    FirstCharDiffers(open, "#");
    assert OpenRegion(open) == Transition(Region.Code(FenceLanguage(open), []), []);
    OpenStep(es, open);
    assert es + [] == es;
  }

  lemma CodeStep(lang: string, code: seq<string>, es: seq<Element>, line: string)
    requires !StartsWith(line, Fence)
    ensures Step(State(Region.Code(lang, code), es), line) == State(Region.Code(lang, code + [line]), es)
  {
    if line == [] {
      assert Advance(Region.Code(lang, code), line) == BlankLine(Region.Code(lang, code), line);
    } else {
      assert Advance(Region.Code(lang, code), line) == Transition(Region.Code(lang, code + [line]), []);
    }
  }

  /** Inside a code block a fence line emits the block. */
  lemma CodeClose(lang: string, code: seq<string>, es: seq<Element>, close: string)
    requires StartsWith(close, Fence)
    ensures Step(State(Region.Code(lang, code), es), close) == State(NotSet, es + [Element.Code(lang, code)])
  {
    assert close != [];
    assert Advance(Region.Code(lang, code), close) == Close(Region.Code(lang, code));
  }

  /** Inside a code block every line that does not start with the fence, empty or not, is
      kept verbatim and nothing is emitted. */
  lemma {:induction false} CodeBody(lang: string, code: seq<string>, es: seq<Element>, body: seq<string>)
    requires forall i :: 0 <= i < |body| ==> !StartsWith(body[i], Fence)
    ensures Run(State(Region.Code(lang, code), es), body) == State(Region.Code(lang, code + body), es)
    decreases |body|
  {
    if body == [] {
      assert code + body == code;
    } else {
      var front, last := body[..|body| - 1], body[|body| - 1];
      forall i | 0 <= i < |front| ensures !StartsWith(front[i], Fence) {
        assert front[i] == body[i];
      }
      RunLast(State(Region.Code(lang, code), es), body);
      CodeBody(lang, code, es, front);
      CodeStep(lang, code + front, es, last);
      assert code + front + [last] == code + body;
    }
  }

  /** An opening fence and the lines after it leave a code block open holding those lines. */
  lemma CodeRun(es: seq<Element>, open: string, body: seq<string>)
    requires StartsWith(open, Fence)
    requires forall i :: 0 <= i < |body| ==> !StartsWith(body[i], Fence)
    ensures Run(State(NotSet, es), [open] + body) == State(Region.Code(FenceLanguage(open), body), es)
  {
    var st := State(NotSet, es);
    CodeOpen(es, open);
    RunFirst(st, [open] + body);
    assert ([open] + body)[1..] == body;
    CodeBody(FenceLanguage(open), [], es, body);
    assert [] + body == body;
  }

  /** A fenced block becomes one code element whose language is the opening line without its
      fence markers, trimmed, and whose lines are exactly the lines in between; the closing
      fence contributes nothing. */
  lemma CodeBlock(es: seq<Element>, open: string, body: seq<string>, close: string)
    requires StartsWith(open, Fence) && StartsWith(close, Fence)
    requires forall i :: 0 <= i < |body| ==> !StartsWith(body[i], Fence)
    ensures Run(State(NotSet, es), [open] + body + [close])
      == State(NotSet, es + [Element.Code(FenceLanguage(open), body)])
  {
    CodeRun(es, open, body);
    CodeClose(FenceLanguage(open), body, es, close);
    RunSnoc(State(NotSet, es), [open] + body, close);
  }

  /** A code block the input never closes is emitted all the same. */
  lemma CodeParse(open: string, body: seq<string>)
    requires StartsWith(open, Fence)
    requires forall i :: 0 <= i < |body| ==> !StartsWith(body[i], Fence)
    ensures Parse([open] + body) == [Element.Code(FenceLanguage(open), body)]
  {
    CodeRun([], open, body);
    ParseFrom([open] + body, State(Region.Code(FenceLanguage(open), body), []));
  }

  // ---- Paragraphs ----

  /** With no region open, a line that no other construct claims opens a paragraph holding
      the line trimmed. */
  lemma ParagraphOpen(es: seq<Element>, line: string)
    requires line != [] && !StartsWith(line, "#") && !StartsWith(line, Fence) && !StartsWithDigit(line)
    requires !StartsWith(line, "- ") && !StartsWith(line, "|")
    ensures Step(State(NotSet, es), line) == State(Region.Paragraph([Trim(line)]), es)
  {
    assert OpenRegion(line) == Transition(Region.Paragraph([Trim(line)]), []);
    OpenStep(es, line);
    assert es + [] == es;
  }

  lemma ParagraphStep(lines: seq<string>, es: seq<Element>, line: string)
    requires line != []
    ensures Step(State(Region.Paragraph(lines), es), line) == State(Region.Paragraph(lines + [Trim(line)]), es)
  {
  }

  lemma ParagraphClose(lines: seq<string>, es: seq<Element>)
    ensures Step(State(Region.Paragraph(lines), es), "") == State(NotSet, es + [Element.Paragraph(lines)])
  {
    assert Advance(Region.Paragraph(lines), "") == Close(Region.Paragraph(lines));
  }

  /** While a paragraph is open every non-empty line is added to it trimmed, whatever it
      starts with, and nothing is emitted. */
  lemma {:induction false} ParagraphBody(lines: seq<string>, es: seq<Element>, ps: seq<string>)
    requires forall i :: 0 <= i < |ps| ==> ps[i] != []
    ensures Run(State(Region.Paragraph(lines), es), ps) == State(Region.Paragraph(lines + TrimEach(ps)), es)
    decreases |ps|
  {
    if ps == [] {
      assert lines + TrimEach(ps) == lines;
    } else {
      var front, last := ps[..|ps| - 1], ps[|ps| - 1];
      forall i | 0 <= i < |front| ensures front[i] != [] {
        assert front[i] == ps[i];
      }
      RunLast(State(Region.Paragraph(lines), es), ps);
      ParagraphBody(lines, es, front);
      ParagraphStep(lines + TrimEach(front), es, last);
      TrimEachSnoc(ps);
      assert lines + TrimEach(front) + [Trim(last)] == lines + TrimEach(ps);
    }
  }

  lemma TrimEachSnoc(ls: seq<string>)
    requires ls != []
    ensures TrimEach(ls) == TrimEach(ls[..|ls| - 1]) + [Trim(ls[|ls| - 1])]
  {
  }

  /** A plain line and the non-empty lines after it leave one paragraph open, all trimmed. */
  lemma ParagraphRun(es: seq<Element>, first: string, ps: seq<string>)
    requires first != [] && !StartsWith(first, "#") && !StartsWith(first, Fence) && !StartsWithDigit(first)
    requires !StartsWith(first, "- ") && !StartsWith(first, "|")
    requires forall i :: 0 <= i < |ps| ==> ps[i] != []
    ensures Run(State(NotSet, es), [first] + ps) == State(Region.Paragraph([Trim(first)] + TrimEach(ps)), es)
  {
    ParagraphOpen(es, first);
    RunFirst(State(NotSet, es), [first] + ps);
    assert ([first] + ps)[1..] == ps;
    ParagraphBody([Trim(first)], es, ps);
  }

  /** An empty line emits the open paragraph. */
  lemma ParagraphBlock(es: seq<Element>, first: string, ps: seq<string>)
    requires first != [] && !StartsWith(first, "#") && !StartsWith(first, Fence) && !StartsWithDigit(first)
    requires !StartsWith(first, "- ") && !StartsWith(first, "|")
    requires forall i :: 0 <= i < |ps| ==> ps[i] != []
    ensures Run(State(NotSet, es), [first] + ps + [""])
      == State(NotSet, es + [Element.Paragraph([Trim(first)] + TrimEach(ps))])
  {
    ParagraphRun(es, first, ps);
    RunSnoc(State(NotSet, es), [first] + ps, "");
    ParagraphClose([Trim(first)] + TrimEach(ps), es);
  }

  /** The end of the input emits the open paragraph too. */
  lemma ParagraphParse(first: string, ps: seq<string>)
    requires first != [] && !StartsWith(first, "#") && !StartsWith(first, Fence) && !StartsWithDigit(first)
    requires !StartsWith(first, "- ") && !StartsWith(first, "|")
    requires forall i :: 0 <= i < |ps| ==> ps[i] != []
    ensures Parse([first] + ps) == [Element.Paragraph([Trim(first)] + TrimEach(ps))]
  {
    ParagraphRun([], first, ps);
    ParseFrom([first] + ps, State(Region.Paragraph([Trim(first)] + TrimEach(ps)), []));
  }

  // ---- Tables ----

  /** A `|` line with no region open opens a table whose headers are its cells, waiting for
      its separator. */
  lemma TableOpen(es: seq<Element>, header: string)
    requires StartsWith(header, "|")
    ensures Step(State(NotSet, es), header) == State(Region.Table(Cells(header), [], true), es)
  {
    assert header[0] == '|';
    FirstCharDiffers(header, "#");
    FirstCharDiffers(header, Fence);
    FirstCharDiffers(header, "- ");
    assert OpenRegion(header) == Transition(Region.Table(Cells(header), [], true), []);
    OpenStep(es, header);
    assert es + [] == es;
  }

  /** The line after a table's header is discarded whatever it holds, unless it is empty. */
  lemma TableSeparator(headers: seq<string>, es: seq<Element>, sep: string)
    requires sep != []
    ensures Step(State(Region.Table(headers, [], true), es), sep) == State(Region.Table(headers, [], false), es)
  {
  }

  /** An empty line right after a table's header emits the table with no rows. */
  lemma TableBlankSeparator(headers: seq<string>, es: seq<Element>)
    ensures Step(State(Region.Table(headers, [], true), es), "") == State(NotSet, es + [Element.Table(headers, [])])
  {
  }

  lemma TableRowStep(headers: seq<string>, rows: seq<seq<string>>, es: seq<Element>, line: string)
    requires StartsWith(line, "|")
    ensures Step(State(Region.Table(headers, rows, false), es), line)
      == State(Region.Table(headers, rows + [Cells(line)], false), es)
  {
  }

  /** A line not starting with `|`, empty or not, ends a table past its separator: the table
      is emitted and the line itself is dropped. */
  lemma TableEnd(headers: seq<string>, rows: seq<seq<string>>, es: seq<Element>, line: string)
    requires !StartsWith(line, "|")
    ensures Step(State(Region.Table(headers, rows, false), es), line)
      == State(NotSet, es + [Element.Table(headers, rows)])
  {
    var r := Region.Table(headers, rows, false);
    if line == [] {
      assert Advance(r, line) == BlankLine(r, line);
    } else {
      assert Advance(r, line) == Close(r);
    }
  }

  /** Once the separator has been consumed, every line starting with `|` becomes a row of
      cells and nothing is emitted. */
  lemma {:induction false} TableRows(headers: seq<string>, rows: seq<seq<string>>, es: seq<Element>, ls: seq<string>)
    requires forall i :: 0 <= i < |ls| ==> StartsWith(ls[i], "|")
    ensures Run(State(Region.Table(headers, rows, false), es), ls)
      == State(Region.Table(headers, rows + CellsEach(ls), false), es)
    decreases |ls|
  {
    if ls == [] {
      assert rows + CellsEach(ls) == rows;
    } else {
      var front, last := ls[..|ls| - 1], ls[|ls| - 1];
      forall i | 0 <= i < |front| ensures StartsWith(front[i], "|") {
        assert front[i] == ls[i];
      }
      RunLast(State(Region.Table(headers, rows, false), es), ls);
      TableRows(headers, rows, es, front);
      TableRowStep(headers, rows + CellsEach(front), es, last);
      CellsEachSnoc(ls);
      assert rows + CellsEach(front) + [Cells(last)] == rows + CellsEach(ls);
    }
  }

  lemma CellsEachSnoc(ls: seq<string>)
    requires ls != []
    ensures CellsEach(ls) == CellsEach(ls[..|ls| - 1]) + [Cells(ls[|ls| - 1])]
  {
  }

  /** A `|` line and a non-empty line after it leave a table open with no rows yet. */
  lemma TableHead(es: seq<Element>, header: string, sep: string)
    requires StartsWith(header, "|") && sep != []
    ensures Run(State(NotSet, es), [header, sep]) == State(Region.Table(Cells(header), [], false), es)
  {
    TableOpen(es, header);
    RunOne(State(NotSet, es), header);
    TableSeparator(Cells(header), es, sep);
    RunSnoc(State(NotSet, es), [header], sep);
    assert [header] + [sep] == [header, sep];
  }

  /** A header, a separator and `|` lines leave a table open holding the rows' cells. */
  lemma TableRun(es: seq<Element>, header: string, sep: string, ls: seq<string>)
    requires StartsWith(header, "|") && sep != []
    requires forall i :: 0 <= i < |ls| ==> StartsWith(ls[i], "|")
    ensures Run(State(NotSet, es), [header, sep] + ls) == State(Region.Table(Cells(header), CellsEach(ls), false), es)
  {
    TableHead(es, header, sep);
    RunConcat(State(NotSet, es), [header, sep], ls);
    TableRows(Cells(header), [], es, ls);
    assert [] + CellsEach(ls) == CellsEach(ls);
  }

  /** A `|` line opens a table whose headers are its cells; the next non-empty line is
      discarded as the separator whatever it holds; the `|` lines after it are the rows. The
      first line not starting with `|`, empty or not, emits the table and is itself dropped. */
  lemma TableBlock(es: seq<Element>, header: string, sep: string, ls: seq<string>, end: string)
    requires StartsWith(header, "|") && sep != []
    requires forall i :: 0 <= i < |ls| ==> StartsWith(ls[i], "|")
    requires !StartsWith(end, "|")
    ensures Run(State(NotSet, es), [header, sep] + ls + [end])
      == State(NotSet, es + [Element.Table(Cells(header), CellsEach(ls))])
  {
    TableRun(es, header, sep, ls);
    TableEnd(Cells(header), CellsEach(ls), es, end);
    RunSnoc(State(NotSet, es), [header, sep] + ls, end);
  }

  /** The end of the input emits the open table too. */
  lemma TableParse(header: string, sep: string, ls: seq<string>)
    requires StartsWith(header, "|") && sep != []
    requires forall i :: 0 <= i < |ls| ==> StartsWith(ls[i], "|")
    ensures Parse([header, sep] + ls) == [Element.Table(Cells(header), CellsEach(ls))]
  {
    TableRun([], header, sep, ls);
    ParseFrom([header, sep] + ls, State(Region.Table(Cells(header), CellsEach(ls), false), []));
  }

  /** A table that the input ends right after its header or its separator has no rows. */
  lemma TableWithoutRows(header: string, sep: string)
    requires StartsWith(header, "|")
    ensures Parse([header]) == [Element.Table(Cells(header), [])]
    ensures Parse([header, sep]) == [Element.Table(Cells(header), [])]
  {
    TableOpen([], header);
    RunOne(Start, header);
    TableBlankSeparator(Cells(header), []);
    if sep != [] {
      TableSeparator(Cells(header), [], sep);
    }
    RunSnoc(Start, [header], sep);
    assert [header] + [sep] == [header, sep];
  }

  // ---- Ordered lists ----

  /** With no region open, an ordered-list line opens a list holding its item. */
  lemma OrderedOpen(es: seq<Element>, line: string)
    requires IsOrderedItem(line)
    ensures Step(State(NotSet, es), line) == State(Region.OrderedList([OrderedItem(line)]), es)
  {
    FirstCharDiffers(line, "#");
    FirstCharDiffers(line, Fence);
    assert OpenRegion(line) == Transition(Region.OrderedList([OrderedItem(line)]), []);
    OpenStep(es, line);
    assert es + [] == es;
  }

  lemma OrderedAppend(list: seq<string>, es: seq<Element>, line: string)
    requires IsOrderedItem(line)
    ensures Step(State(Region.OrderedList(list), es), line) == State(Region.OrderedList(list + [OrderedItem(line)]), es)
  {
  }

  /** Any line that is not an ordered-list item, empty or not, emits the list and is dropped. */
  lemma OrderedEnd(list: seq<string>, es: seq<Element>, line: string)
    requires !IsOrderedItem(line)
    ensures Step(State(Region.OrderedList(list), es), line) == State(NotSet, es + [Element.OrderedList(list)])
  {
    var r := Region.OrderedList(list);
    if line == [] {
      assert Advance(r, line) == BlankLine(r, line);
    } else {
      assert Advance(r, line) == Close(r);
    }
  }

  lemma OrderedItemsSnoc(ls: seq<string>)
    requires ls != [] && forall i :: 0 <= i < |ls| ==> IsOrderedItem(ls[i])
    ensures OrderedItems(ls) == OrderedItems(ls[..|ls| - 1]) + [OrderedItem(ls[|ls| - 1])]
  {
  }

  lemma OrderedItemsCons(ls: seq<string>)
    requires ls != [] && forall i :: 0 <= i < |ls| ==> IsOrderedItem(ls[i])
    ensures OrderedItems(ls) == [OrderedItem(ls[0])] + OrderedItems(ls[1..])
  {
  }

  /** While an ordered list is open, each digit-led line holding a `.` adds the text after
      its first `.`, without leading whitespace. */
  lemma {:induction false} OrderedItemsRun(list: seq<string>, es: seq<Element>, ls: seq<string>)
    requires forall i :: 0 <= i < |ls| ==> IsOrderedItem(ls[i])
    ensures Run(State(Region.OrderedList(list), es), ls) == State(Region.OrderedList(list + OrderedItems(ls)), es)
    decreases |ls|
  {
    var st := State(Region.OrderedList(list), es);
    if ls == [] {
      assert list + OrderedItems(ls) == list;
    } else {
      var front, last := ls[..|ls| - 1], ls[|ls| - 1];
      forall i | 0 <= i < |front| ensures IsOrderedItem(front[i]) {
        assert front[i] == ls[i];
      }
      RunLast(st, ls);
      OrderedItemsRun(list, es, front);
      OrderedAppend(list + OrderedItems(front), es, last);
      OrderedItemsSnoc(ls);
      assert list + OrderedItems(front) + [OrderedItem(last)] == list + OrderedItems(ls);
    }
  }

  /** A run of ordered-list lines leaves one list open holding their items. */
  lemma OrderedRun(es: seq<Element>, ls: seq<string>)
    requires ls != [] && forall i :: 0 <= i < |ls| ==> IsOrderedItem(ls[i])
    ensures Run(State(NotSet, es), ls) == State(Region.OrderedList(OrderedItems(ls)), es)
  {
    var rest := ls[1..];
    forall i | 0 <= i < |rest| ensures IsOrderedItem(rest[i]) {
      assert rest[i] == ls[i + 1];
    }
    OrderedOpen(es, ls[0]);
    RunFirst(State(NotSet, es), ls);
    OrderedItemsRun([OrderedItem(ls[0])], es, rest);
    OrderedItemsCons(ls);
  }

  /** Consecutive ordered-list lines make one list. Any other line, empty, blank, digit-led
      without a `.`, or plain text, emits the list and is itself dropped. */
  lemma OrderedBlock(es: seq<Element>, ls: seq<string>, end: string)
    requires ls != [] && forall i :: 0 <= i < |ls| ==> IsOrderedItem(ls[i])
    requires !IsOrderedItem(end)
    ensures Run(State(NotSet, es), ls + [end]) == State(NotSet, es + [Element.OrderedList(OrderedItems(ls))])
  {
    OrderedRun(es, ls);
    OrderedEnd(OrderedItems(ls), es, end);
    RunSnoc(State(NotSet, es), ls, end);
  }

  /** The end of the input emits the open list too. */
  lemma OrderedParse(ls: seq<string>)
    requires ls != [] && forall i :: 0 <= i < |ls| ==> IsOrderedItem(ls[i])
    ensures Parse(ls) == [Element.OrderedList(OrderedItems(ls))]
  {
    OrderedRun([], ls);
    ParseFrom(ls, State(Region.OrderedList(OrderedItems(ls)), []));
  }

  // ---- Unordered lists ----

  /** With no region open, a line starting with "- " opens an unordered list holding the
      line without its leading "- " runs. */
  lemma DashOpen(es: seq<Element>, line: string)
    requires StartsWith(line, "- ")
    ensures Step(State(NotSet, es), line) == State(Region.UnorderedList([TrimStartMatches(line, "- ")]), es)
  {
    assert line[0] == '-';
    FirstCharDiffers(line, "#");
    FirstCharDiffers(line, Fence);
    assert OpenRegion(line) == Transition(Region.UnorderedList([TrimStartMatches(line, "- ")]), []);
    OpenStep(es, line);
    assert es + [] == es;
  }

  lemma DashAppend(list: seq<string>, es: seq<Element>, line: string)
    requires StartsWith(line, "- ")
    ensures Step(State(Region.UnorderedList(list), es), line)
      == State(Region.UnorderedList(list + [TrimStartMatches(line, "- ")]), es)
  {
    assert line != [];
    assert TrimStartMatches(line, "- ") == TrimStartMatches(line[2..], "- ");
  }

  /** Any line not starting with "- ", empty or not, emits the list and is dropped. */
  lemma DashEnd(list: seq<string>, es: seq<Element>, line: string)
    requires !StartsWith(line, "- ")
    ensures Step(State(Region.UnorderedList(list), es), line) == State(NotSet, es + [Element.UnorderedList(list)])
  {
    var r := Region.UnorderedList(list);
    if line == [] {
      assert Advance(r, line) == BlankLine(r, line);
    } else {
      assert TrimStartMatches(line, "- ") == line;
      assert Advance(r, line) == Close(r);
    }
  }

  lemma DashItemsSnoc(ls: seq<string>)
    requires ls != []
    ensures DashItems(ls) == DashItems(ls[..|ls| - 1]) + [TrimStartMatches(ls[|ls| - 1], "- ")]
  {
  }

  lemma DashItemsCons(ls: seq<string>)
    requires ls != []
    ensures DashItems(ls) == [TrimStartMatches(ls[0], "- ")] + DashItems(ls[1..])
  {
  }

  /** While an unordered list is open, each line starting with "- " adds what is left after
      every leading "- " is removed. */
  lemma {:induction false} DashItemsRun(list: seq<string>, es: seq<Element>, ls: seq<string>)
    requires forall i :: 0 <= i < |ls| ==> StartsWith(ls[i], "- ")
    ensures Run(State(Region.UnorderedList(list), es), ls) == State(Region.UnorderedList(list + DashItems(ls)), es)
    decreases |ls|
  {
    var st := State(Region.UnorderedList(list), es);
    if ls == [] {
      assert list + DashItems(ls) == list;
    } else {
      var front, last := ls[..|ls| - 1], ls[|ls| - 1];
      forall i | 0 <= i < |front| ensures StartsWith(front[i], "- ") {
        assert front[i] == ls[i];
      }
      RunLast(st, ls);
      DashItemsRun(list, es, front);
      DashAppend(list + DashItems(front), es, last);
      DashItemsSnoc(ls);
      assert list + DashItems(front) + [TrimStartMatches(last, "- ")] == list + DashItems(ls);
    }
  }

  /** A run of "- " lines leaves one unordered list open holding their items. */
  lemma DashRun(es: seq<Element>, ls: seq<string>)
    requires ls != [] && forall i :: 0 <= i < |ls| ==> StartsWith(ls[i], "- ")
    ensures Run(State(NotSet, es), ls) == State(Region.UnorderedList(DashItems(ls)), es)
  {
    var rest := ls[1..];
    forall i | 0 <= i < |rest| ensures StartsWith(rest[i], "- ") {
      assert rest[i] == ls[i + 1];
    }
    DashOpen(es, ls[0]);
    RunFirst(State(NotSet, es), ls);
    DashItemsRun([TrimStartMatches(ls[0], "- ")], es, rest);
    DashItemsCons(ls);
  }

  /** Consecutive "- " lines make one unordered list. The first line without that prefix,
      empty or not, emits the list and is itself dropped. */
  lemma UnorderedBlock(es: seq<Element>, ls: seq<string>, end: string)
    requires ls != [] && forall i :: 0 <= i < |ls| ==> StartsWith(ls[i], "- ")
    requires !StartsWith(end, "- ")
    ensures Run(State(NotSet, es), ls + [end]) == State(NotSet, es + [Element.UnorderedList(DashItems(ls))])
  {
    DashRun(es, ls);
    DashEnd(DashItems(ls), es, end);
    RunSnoc(State(NotSet, es), ls, end);
  }

  /** The end of the input emits the open list too. */
  lemma UnorderedParse(ls: seq<string>)
    requires ls != [] && forall i :: 0 <= i < |ls| ==> StartsWith(ls[i], "- ")
    ensures Parse(ls) == [Element.UnorderedList(DashItems(ls))]
  {
    DashRun([], ls);
    ParseFrom(ls, State(Region.UnorderedList(DashItems(ls)), []));
  }
}
