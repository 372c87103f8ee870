/** The parser's documented example, its unit tests and its quirks, as facts about the model. */
module Examples {
  import opened Text
  import opened HtmlElement
  import opened ParseSpec
  import opened ParseLemmas
  import opened BlockLemmas

  /** A header line and the empty line after it. */
  lemma HeaderThenBlank(es: seq<Element>, k: nat, rest: string)
    requires k >= 1 && rest != [] && rest[0] != '#'
    ensures Run(State(NotSet, es), [Repeat("#", k) + rest, ""])
      == State(NotSet, es + [Element.Header(k, TrimStart(rest))])
  {
    var line := Repeat("#", k) + rest;
    var es' := es + [Element.Header(k, TrimStart(rest))];
    HeaderLine(es, k, rest);
    RunOne(State(NotSet, es), line);
    BlankIdle(es');
    RunSnoc(State(NotSet, es), [line], "");
    assert [line] + [""] == [line, ""];
  }

  /** A text line padded with trailing spaces loses them to trimming. */
  lemma TrimTrailing(line: string, text: string, pad: string)
    requires line == text + pad && text != [] && Trimmed(text)
    requires forall i :: 0 <= i < |pad| ==> pad[i] == ' '
    ensures Trim(line) == text
  {
    assert [] + text + pad == line;
    TrimPadding([], text, pad);
  }

  /** A header's text after one space. */
  lemma HeaderAfterSpace(rest: string, text: string)
    requires rest == " " + text && text != [] && !IsWhitespace(text[0])
    ensures TrimStart(rest) == text
  {
    TrimStartPadding(" ", text);
  }

  lemma DocumentedHeader()
    ensures Run(Start, ["# Header", ""]) == State(NotSet, [Element.Header(1, "Header")])
  {
    assert Repeat("#", 1) == "#";
    HeaderAfterSpace(" Header", "Header");
    HeaderThenBlank([], 1, " Header");
  }

  lemma DocumentedParagraph()
    ensures Parse(["This is a paragraph."]) == [Element.Paragraph(["This is a paragraph."])]
  {
    var p := "This is a paragraph.";
    TrimTrailing(p, p, []);
    ParagraphParse(p, []);
    assert [p] + [] == [p];
  }

  /** The documented example: a header, an empty line and a line of text make a level-1
      header and a one-line paragraph. */
  lemma DocumentedExample()
    ensures Parse(["# Header", "", "This is a paragraph."])
      == [Element.Header(1, "Header"), Element.Paragraph(["This is a paragraph."])]
  {
    DocumentedHeader();
    ParseAfter(["# Header", ""], ["This is a paragraph."]);
    DocumentedParagraph();
    assert ["# Header", ""] + ["This is a paragraph."] == ["# Header", "", "This is a paragraph."];
  }

  /** The text after an opening fence names the block's language. */
  lemma PythonFence()
    ensures FenceLanguage("```py") == "py"
  {
    FirstCharDiffers("py", Fence);
    assert "```py" == Fence + "py";
    assert TrimStartMatches("```py", Fence) == "py";
    TrimPadding([], "py", []);
    assert [] + "py" + [] == "py";
  }

  /** A fenced block with a language and two lines of code. */
  lemma CodeExample()
    ensures Parse(["```py", "print('hello mate')", "print('cya')", "```"])
      == [Element.Code("py", ["print('hello mate')", "print('cya')"])]
  {
    var body := ["print('hello mate')", "print('cya')"];
    PythonFence();
    assert body[0][0] == 'p' && body[1][0] == 'p';
    CodeBlock([], "```py", body, "```");
    assert ["```py"] + body + ["```"] == ["```py", "print('hello mate')", "print('cya')", "```"];
    ParseFrom(["```py"] + body + ["```"], State(NotSet, [Element.Code("py", body)]));
  }

  /** A paragraph of two lines, each losing the two trailing spaces that force a line break. */
  lemma ParagraphTrims(es: seq<Element>, a: string, b: string)
    requires a != [] && b != [] && IsWordChar(a[0])
    ensures Run(State(NotSet, es), [a, b, ""]) == State(NotSet, es + [Element.Paragraph([Trim(a), Trim(b)])])
  {
    ParagraphBlock(es, a, [b]);
    assert [a] + [b] + [""] == [a, b, ""];
    assert [Trim(a)] + TrimEach([b]) == [Trim(a), Trim(b)];
  }

  /** A letter: it starts none of the constructs but a paragraph. */
  predicate IsWordChar(c: char) {
    'A' <= c <= 'Z' || 'a' <= c <= 'z'
  }

  /** A header of level `k` with one space before its text, then an empty line. */
  lemma SpacedHeader(line: string, k: nat, text: string)
    requires k >= 1 && line == Repeat("#", k) + " " + text && text != [] && !IsWhitespace(text[0])
    ensures Run(Start, [line, ""]) == State(NotSet, [Element.Header(k, text)])
  {
    assert line == Repeat("#", k) + (" " + text);
    HeaderAfterSpace(" " + text, text);
    HeaderThenBlank([], k, " " + text);
  }

  /** Two lines of text and an empty line make a paragraph of the two lines trimmed. */
  lemma TwoLineParagraph(a: string, b: string, ta: string, tb: string)
    requires a != [] && IsWordChar(a[0]) && b != [] && Trim(a) == ta && Trim(b) == tb
    ensures Run(Start, [a, b, ""]) == State(NotSet, [Element.Paragraph([ta, tb])])
  {
    ParagraphTrims([], a, b);
    assert [] + [Element.Paragraph([ta, tb])] == [Element.Paragraph([ta, tb])];
  }

  lemma OverviewText()
    ensures Run(Start, ["This blog contains some information.  ", "The information will be explained below.  ", ""])
      == State(NotSet, [Element.Paragraph(["This blog contains some information.", "The information will be explained below."])])
  {
    var l1, l2 := "This blog contains some information.  ", "The information will be explained below.  ";
    TrimTrailing(l1, "This blog contains some information.", "  ");
    TrimTrailing(l2, "The information will be explained below.", "  ");
    TwoLineParagraph(l1, l2, "This blog contains some information.", "The information will be explained below.");
  }

  lemma OverviewHeader()
    ensures Run(Start, ["# Overview", ""]) == State(NotSet, [Element.Header(1, "Overview")])
  {
    assert Repeat("#", 1) == "#";
    SpacedHeader("# Overview", 1, "Overview");
  }

  lemma OverviewSection()
    ensures Run(Start, ["# Overview", "",
        "This blog contains some information.  ", "The information will be explained below.  ", ""])
      == State(NotSet, [Element.Header(1, "Overview"),
          Element.Paragraph(["This blog contains some information.", "The information will be explained below."])])
  {
    var l1, l2 := "This blog contains some information.  ", "The information will be explained below.  ";
    var q := Element.Paragraph(["This blog contains some information.", "The information will be explained below."]);
    OverviewText();
    OverviewHeader();
    RunIdleThen(["# Overview", ""], [l1, l2, ""], [Element.Header(1, "Overview")], [q]);
    assert ["# Overview", ""] + [l1, l2, ""] == ["# Overview", "", l1, l2, ""];
  }

  lemma DetailsText()
    ensures Run(Start, ["There are seven countries in the G7.  ", "Japan is a part of the G7.  ", ""])
      == State(NotSet, [Element.Paragraph(["There are seven countries in the G7.", "Japan is a part of the G7."])])
  {
    var l3, l4 := "There are seven countries in the G7.  ", "Japan is a part of the G7.  ";
    TrimTrailing(l3, "There are seven countries in the G7.", "  ");
    TrimTrailing(l4, "Japan is a part of the G7.", "  ");
    TwoLineParagraph(l3, l4, "There are seven countries in the G7.", "Japan is a part of the G7.");
  }

  lemma DetailsHeader()
    ensures Run(Start, ["## Details", ""]) == State(NotSet, [Element.Header(2, "Details")])
  {
    assert Repeat("#", 2) == "##";
    SpacedHeader("## Details", 2, "Details");
  }

  lemma DetailsSection()
    ensures Parse(["## Details", "",
        "There are seven countries in the G7.  ", "Japan is a part of the G7.  ", ""])
      == [Element.Header(2, "Details"),
          Element.Paragraph(["There are seven countries in the G7.", "Japan is a part of the G7."])]
  {
    var l3, l4 := "There are seven countries in the G7.  ", "Japan is a part of the G7.  ";
    var h, q := Element.Header(2, "Details"), Element.Paragraph(["There are seven countries in the G7.", "Japan is a part of the G7."]);
    DetailsText();
    DetailsHeader();
    RunIdleThen(["## Details", ""], [l3, l4, ""], [h], [q]);
    assert ["## Details", ""] + [l3, l4, ""] == ["## Details", "", l3, l4, ""];
    ParseFrom(["## Details", "", l3, l4, ""], State(NotSet, [h, q]));
  }

  /** Headers of two levels, each followed by a two-line paragraph whose lines lose their
      trailing spaces. */
  lemma HeadersAndText()
    ensures Parse([
        "# Overview", "",
        "This blog contains some information.  ", "The information will be explained below.  ", "",
        "## Details", "",
        "There are seven countries in the G7.  ", "Japan is a part of the G7.  ", ""])
      == [Element.Header(1, "Overview"),
          Element.Paragraph(["This blog contains some information.", "The information will be explained below."]),
          Element.Header(2, "Details"),
          Element.Paragraph(["There are seven countries in the G7.", "Japan is a part of the G7."])]
  {
    var first := ["# Overview", "",
        "This blog contains some information.  ", "The information will be explained below.  ", ""];
    var second := ["## Details", "",
        "There are seven countries in the G7.  ", "Japan is a part of the G7.  ", ""];
    assert first + second == ["# Overview", "",
        "This blog contains some information.  ", "The information will be explained below.  ", "",
        "## Details", "",
        "There are seven countries in the G7.  ", "Japan is a part of the G7.  ", ""];
    OverviewSection();
    DetailsSection();
    ParseAfter(first, second);
  }

  /** A list ended by a line of text: the list is emitted and the text line is lost. */
  lemma ListSwallowsTerminator()
    ensures Parse(["- a", "- b", "text"]) == [Element.UnorderedList(["a", "b"])]
  {
    assert TrimStartMatches("a", "- ") == "a";
    assert TrimStartMatches("- a", "- ") == "a";
    assert TrimStartMatches("b", "- ") == "b";
    assert TrimStartMatches("- b", "- ") == "b";
    assert DashItems(["- a", "- b"]) == ["a", "b"];
    assert "text"[0] == 't';
    UnorderedBlock([], ["- a", "- b"], "text");
    assert ["- a", "- b"] + ["text"] == ["- a", "- b", "text"];
    ParseFrom(["- a", "- b", "text"], State(NotSet, [Element.UnorderedList(["a", "b"])]));
  }

  /** An unordered item keeps what follows its "- " untrimmed: a second space stays at the
      front of the item. */
  lemma DashKeepsSpace()
    ensures Parse(["-  x"]) == [Element.UnorderedList([" x"])]
  {
    FirstCharDiffers(" x", "- ");
    assert "-  x"[2..] == " x" && "-  x"[..2] == "- ";
    assert TrimStartMatches("-  x", "- ") == " x";
    assert DashItems(["-  x"]) == [" x"];
    UnorderedParse(["-  x"]);
  }

  /** A line led by a number and a `.`: an ordered item whose text is what follows that
      first `.`, leading whitespace removed. */
  lemma ItemAfterNumber(line: string, number: string, rest: string)
    requires number != [] && IsDigit(number[0]) && '.' !in number
    requires line == number + "." + rest
    ensures IsOrderedItem(line) && OrderedItem(line) == TrimStart(rest)
  {
    SplitOnceAt(number, '.', rest);
    assert line[|number|] == '.';
  }

  /** Two ordered items make a list of their texts. */
  lemma TwoItems(l0: string, l1: string)
    requires IsOrderedItem(l0) && IsOrderedItem(l1)
    ensures Parse([l0, l1]) == [Element.OrderedList([OrderedItem(l0), OrderedItem(l1)])]
  {
    assert OrderedItems([l0, l1]) == [OrderedItem(l0), OrderedItem(l1)];
    OrderedParse([l0, l1]);
  }

  lemma SpacedItem()
    ensures IsOrderedItem("1. a") && OrderedItem("1. a") == "a"
  {
    ItemAfterNumber("1. a", "1", " a");
    TrimStartPadding(" ", "a");
  }

  lemma DottedItem()
    ensures IsOrderedItem("2.5 b.") && OrderedItem("2.5 b.") == "5 b."
  {
    ItemAfterNumber("2.5 b.", "2", "5 b.");
    TrimStartPadding([], "5 b.");
    assert [] + "5 b." == "5 b.";
  }

  /** An ordered item is the text after the first `.` of its line, even when more text and
      dots follow it. */
  lemma FirstDotSplits()
    ensures Parse(["1. a", "2.5 b."]) == [Element.OrderedList(["a", "5 b."])]
  {
    SpacedItem();
    DottedItem();
    TwoItems("1. a", "2.5 b.");
  }

  /** A line of nothing but `#` is a header of level 0 with no text. */
  lemma HashesOnly()
    ensures Parse(["###"]) == [Element.Header(0, "")]
  {
    assert Repeat("#", 3) + [] == "###";
    assert TrimStart([]) == [];
    HeaderLine([], 3, []);
    RunOne(Start, "###");
    ParseFrom(["###"], State(NotSet, [Element.Header(0, "")]));
  }

  /** A digit-led line with no `.` is text, kept untrimmed. */
  lemma NumberWithoutDot()
    ensures Parse(["2024 was good  "]) == [Element.Paragraph(["2024 was good  "])]
  {
    DigitWithoutDot([], "2024 was good  ");
    RunOne(Start, "2024 was good  ");
    ParseFrom(["2024 was good  "], State(Region.Paragraph(["2024 was good  "]), []));
  }

  /** The bars at either end of a line go, and only they. */
  lemma OuterBars(inner: string)
    requires inner != [] && inner[0] != '|' && inner[|inner| - 1] != '|'
    ensures TrimBy("|" + inner + "|", IsBar) == inner
  {
    assert "|" + inner + "|" == "|" + (inner + "|");
    assert (inner + "|")[0] == inner[0];
    TrimStartByPadding("|", inner + "|", IsBar);
    TrimEndByPadding(inner, "|", IsBar);
  }

  /** Text with one bar splits at it into the two sides. */
  lemma SplitAtBar(a: string, b: string)
    requires '|' !in a && '|' !in b
    ensures Split(a + "|" + b, '|') == [a, b]
  {
    SplitOnceAt(a, '|', b);
    assert Split(b, '|') == [b];
  }

  lemma TrimEachPair(a: string, b: string)
    ensures var parts := [a, b]; seq(|parts|, i requires 0 <= i < |parts| => Trim(parts[i])) == [Trim(a), Trim(b)]
  {
  }

  /** A line of two cells between bars: the outer bars go, the line splits at the inner bar
      and each cell is trimmed. */
  lemma TwoCells(a: string, b: string)
    requires a != [] && b != [] && '|' !in a && '|' !in b
    ensures Cells("|" + a + "|" + b + "|") == [Trim(a), Trim(b)]
  {
    var inner := a + "|" + b;
    assert "|" + a + "|" + b + "|" == "|" + inner + "|";
    assert inner[0] == a[0] && inner[|inner| - 1] == b[|b| - 1];
    OuterBars(inner);
    SplitAtBar(a, b);
    TrimEachPair(a, b);
    CellsOfInner("|" + inner + "|", inner, [a, b]);
  }

  /** The cells of a line are its bar-stripped text's pieces, trimmed. */
  lemma CellsOfInner(line: string, inner: string, parts: seq<string>)
    requires TrimBy(line, IsBar) == inner && Split(inner, '|') == parts
    ensures Cells(line) == seq(|parts|, i requires 0 <= i < |parts| => Trim(parts[i]))
  {
  }

  /** A cell with a space before its text and spaces after it: no bar in it, and trimming
      gives the text back. */
  lemma PaddedCell(t: string, p: string)
    requires t != [] && Trimmed(t) && '|' !in t
    requires forall i :: 0 <= i < |p| ==> p[i] == ' '
    ensures '|' !in " " + t + (p + " ") && Trim(" " + t + (p + " ")) == t
  {
    var a := " " + t + (p + " ");
    TrimPadding(" ", t, p + " ");
    forall i | 0 <= i < |a| ensures a[i] != '|' {
      if 1 <= i < 1 + |t| { assert a[i] == t[i - 1]; }
    }
  }

  /** A table line laid out as in a Markdown source file: one space inside each bar and the
      shorter cell padded with spaces. */
  lemma PaddedRow(line: string, ta: string, pa: string, tb: string, pb: string)
    requires ta != [] && Trimmed(ta) && '|' !in ta && tb != [] && Trimmed(tb) && '|' !in tb
    requires forall i :: 0 <= i < |pa| ==> pa[i] == ' '
    requires forall i :: 0 <= i < |pb| ==> pb[i] == ' '
    requires line == "| " + ta + pa + " | " + tb + pb + " |"
    ensures Cells(line) == [ta, tb]
  {
    var a, b := " " + ta + (pa + " "), " " + tb + (pb + " ");
    assert line == "|" + a + "|" + b + "|";
    PaddedCell(ta, pa);
    PaddedCell(tb, pb);
    TwoCells(a, b);
  }

  // Each table line of the example spelled out as padding around its cells' text. Every
  // such equality between string literals is a lemma of its own: proved on its own it is
  // cheap, while inside the row lemmas below it makes their proofs too large.
  lemma HeaderLayout()
    ensures "| Letter | Description           |" == "| " + "Letter" + "" + " | " + "Description" + "          " + " |"
  {
  }

  lemma HeaderRow()
    ensures Cells("| Letter | Description           |") == ["Letter", "Description"]
  {
    HeaderLayout();
    PaddedRow("| Letter | Description           |", "Letter", "", "Description", "          ");
  }

  lemma NewWindowLayout()
    ensures "| c      | make new window       |" == "| " + "c" + "     " + " | " + "make new window" + "      " + " |"
  {
  }

  lemma NewWindowRow()
    ensures Cells("| c      | make new window       |") == ["c", "make new window"]
  {
    NewWindowLayout();
    PaddedRow("| c      | make new window       |", "c", "     ", "make new window", "      ");
  }

  lemma KillWindowLayout()
    ensures "| &      | kill current window   |" == "| " + "&" + "     " + " | " + "kill current window" + "  " + " |"
  {
  }

  lemma KillWindowRow()
    ensures Cells("| &      | kill current window   |") == ["&", "kill current window"]
  {
    KillWindowLayout();
    PaddedRow("| &      | kill current window   |", "&", "     ", "kill current window", "  ");
  }

  lemma GoToWindowLayout()
    ensures "| 1..9   | go to window 1..9     |" == "| " + "1..9" + "  " + " | " + "go to window 1..9" + "    " + " |"
  {
  }

  lemma GoToWindowRow()
    ensures Cells("| 1..9   | go to window 1..9     |") == ["1..9", "go to window 1..9"]
  {
    GoToWindowLayout();
    PaddedRow("| 1..9   | go to window 1..9     |", "1..9", "  ", "go to window 1..9", "    ");
  }

  lemma RenameLayout()
    ensures "| ,      | rename window         |" == "| " + "," + "     " + " | " + "rename window" + "        " + " |"
  {
  }

  lemma RenameRow()
    ensures Cells("| ,      | rename window         |") == [",", "rename window"]
  {
    RenameLayout();
    PaddedRow("| ,      | rename window         |", ",", "     ", "rename window", "        ");
  }

  lemma PreviousLayout()
    ensures "| p      | go to previous window |" == "| " + "p" + "     " + " | " + "go to previous window" + "" + " |"
  {
  }

  lemma PreviousRow()
    ensures Cells("| p      | go to previous window |") == ["p", "go to previous window"]
  {
    PreviousLayout();
    PaddedRow("| p      | go to previous window |", "p", "     ", "go to previous window", "");
  }

  lemma NextLayout()
    ensures "| n      | go to next window     |" == "| " + "n" + "     " + " | " + "go to next window" + "    " + " |"
  {
  }

  lemma NextRow()
    ensures Cells("| n      | go to next window     |") == ["n", "go to next window"]
  {
    NextLayout();
    PaddedRow("| n      | go to next window     |", "n", "     ", "go to next window", "    ");
  }

  /** Six lines whose cells are known. */
  lemma CellsOfSix(l0: string, l1: string, l2: string, l3: string, l4: string, l5: string,
                   r0: seq<string>, r1: seq<string>, r2: seq<string>, r3: seq<string>, r4: seq<string>, r5: seq<string>)
    requires Cells(l0) == r0 && Cells(l1) == r1 && Cells(l2) == r2
    requires Cells(l3) == r3 && Cells(l4) == r4 && Cells(l5) == r5
    ensures CellsEach([l0, l1, l2, l3, l4, l5]) == [r0, r1, r2, r3, r4, r5]
  {
  }

  /** The data rows of the table test, cell by cell. */
  lemma TableCells()
    ensures CellsEach(["| c      | make new window       |",
        "| &      | kill current window   |",
        "| 1..9   | go to window 1..9     |",
        "| ,      | rename window         |",
        "| p      | go to previous window |",
        "| n      | go to next window     |"])
      == [["c", "make new window"], ["&", "kill current window"], ["1..9", "go to window 1..9"],
          [",", "rename window"], ["p", "go to previous window"], ["n", "go to next window"]]
  {
    NewWindowRow();
    KillWindowRow();
    GoToWindowRow();
    RenameRow();
    PreviousRow();
    NextRow();
    CellsOfSix("| c      | make new window       |",
        "| &      | kill current window   |",
        "| 1..9   | go to window 1..9     |",
        "| ,      | rename window         |",
        "| p      | go to previous window |",
        "| n      | go to next window     |",
        ["c", "make new window"], ["&", "kill current window"], ["1..9", "go to window 1..9"],
        [",", "rename window"], ["p", "go to previous window"], ["n", "go to next window"]);
  }

  lemma BarFirst(line: string)
    requires line != [] && line[0] == '|'
    ensures StartsWith(line, "|")
  {
    assert line[..1] == "|";
  }

  /** A header line, a separator and six rows, all opening with a bar, are one table. */
  lemma TableOfSixRows(h: string, sep: string, l0: string, l1: string, l2: string, l3: string,
                       l4: string, l5: string)
    requires h != [] && h[0] == '|' && sep != []
    requires l0 != [] && l0[0] == '|' && l1 != [] && l1[0] == '|' && l2 != [] && l2[0] == '|'
    requires l3 != [] && l3[0] == '|' && l4 != [] && l4[0] == '|' && l5 != [] && l5[0] == '|'
    ensures Parse([h, sep, l0, l1, l2, l3, l4, l5])
      == [Element.Table(Cells(h), CellsEach([l0, l1, l2, l3, l4, l5]))]
  {
    var rows := [l0, l1, l2, l3, l4, l5];
    forall i | 0 <= i < |rows| ensures StartsWith(rows[i], "|") {
      BarFirst(rows[i]);
    }
    TableParse(h, sep, rows);
    assert [h, sep] + rows == [h, sep, l0, l1, l2, l3, l4, l5];
  }

  /** A header line, a separator that is skipped and six rows make one table. */
  lemma TableExample()
    ensures Parse([
        "| Letter | Description           |",
        "| ------ | --------------------- |",
        "| c      | make new window       |",
        "| &      | kill current window   |",
        "| 1..9   | go to window 1..9     |",
        "| ,      | rename window         |",
        "| p      | go to previous window |",
        "| n      | go to next window     |"])
      == [Element.Table(["Letter", "Description"], [
          ["c", "make new window"],
          ["&", "kill current window"],
          ["1..9", "go to window 1..9"],
          [",", "rename window"],
          ["p", "go to previous window"],
          ["n", "go to next window"]])]
  {
    HeaderRow();
    TableCells();
    TableOfSixRows("| Letter | Description           |",
        "| ------ | --------------------- |",
        "| c      | make new window       |",
        "| &      | kill current window   |",
        "| 1..9   | go to window 1..9     |",
        "| ,      | rename window         |",
        "| p      | go to previous window |",
        "| n      | go to next window     |");
  }
}
