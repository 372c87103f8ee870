/** The line-oriented Markdown parser as functions: the state it carries between lines,
    what one line does to that state, and the flush at the end of the input. */
module ParseSpec {
  import opened Text
  import opened HtmlElement

  /** The code-fence marker. */
  const Fence: string := "```"

  /** The construct being accumulated from consecutive lines. A header is never a region:
      it is emitted on the line that starts it. */
  datatype Region =
    | NotSet
    | Code(lang: string, code: seq<string>)
    | OrderedList(list: seq<string>)
    | UnorderedList(list: seq<string>)
    | Table(headers: seq<string>, rows: seq<seq<string>>, isSeparator: bool)
    | Paragraph(lines: seq<string>)

  /** The open region and the append-only output. */
  datatype State = State(region: Region, elements: seq<Element>)

  /** The state before the first line. */
  const Start: State := State(NotSet, [])

  predicate IsBar(c: char) {
    c == '|'
  }

  predicate IsNotHash(c: char) {
    c != '#'
  }

  /** A table line's cells: every `|` stripped from both ends, the rest split on `|`,
      each piece trimmed. */
  function Cells(line: string): (cells: seq<string>)
    ensures cells != []
    ensures forall i :: 0 <= i < |cells| ==> Trimmed(cells[i])
  {
    var parts := Split(TrimBy(line, IsBar), '|');
    seq(|parts|, i requires 0 <= i < |parts| => Trim(parts[i]))
  }

  /** A header's level: the index of the first character that is not `#`, or 0 when the
      line is all `#`. */
  function HeaderLevel(line: string): (level: nat)
    ensures level <= |line|
    ensures forall j :: 0 <= j < level ==> line[j] == '#'
    ensures 0 < level ==> level < |line| && line[level] != '#'
    ensures level == 0 && line != [] && line[0] == '#' ==> forall j :: 0 <= j < |line| ==> line[j] == '#'
  {
    match Position(line, IsNotHash)
    case None => 0
    case Some(i) => i
  }

  /** A header's text: the `#` run and the whitespace after it removed. */
  function HeaderContent(line: string): (text: string)
    ensures |text| <= |line|
    ensures text == [] || !IsWhitespace(text[0])
  {
    TrimStart(TrimStartMatches(line, "#"))
  }

  /** The language of an opening fence: the line without its fence markers, trimmed. */
  function FenceLanguage(line: string): (lang: string)
    ensures Trimmed(lang)
    ensures StartsWith(line, Fence) ==> |lang| <= |line| - |Fence|
  {
    Trim(TrimStartMatches(line, Fence))
  }

  predicate StartsWithDigit(line: string) {
    line != [] && IsDigit(line[0])
  }

  /** A line that opens or continues an ordered list. */
  predicate IsOrderedItem(line: string) {
    StartsWithDigit(line) && '.' in line
  }

  /** An ordered-list item: the text after the first `.`, leading whitespace removed. */
  function OrderedItem(line: string): (item: string)
    requires IsOrderedItem(line)
    ensures |item| < |line|
    ensures item == [] || !IsWhitespace(item[0])
  {
    TrimStart(SplitOnce(line, '.').value.1)
  }

  /** The element a region yields when it closes; an empty region yields none. */
  function Flush(r: Region): (es: seq<Element>)
    ensures |es| == if r.NotSet? then 0 else 1
  {
    match r
    case NotSet => []
    case Code(lang, code) => [Element.Code(lang, code)]
    case OrderedList(list) => [Element.OrderedList(list)]
    case UnorderedList(list) => [Element.UnorderedList(list)]
    case Table(headers, rows, _) => [Element.Table(headers, rows)]
    case Paragraph(lines) => [Element.Paragraph(lines)]
  }

  /** What one line does to the open region: the region that follows it and the elements
      it emits, appended to the output in this order. */
  datatype Transition = Transition(next: Region, emitted: seq<Element>)

  /** Emit the open region and return to no region. */
  function Close(r: Region): Transition {
    Transition(NotSet, Flush(r))
  }

  /** An empty line: a code block keeps it as data, any other open region is closed. */
  function BlankLine(r: Region, line: string): (t: Transition)
    ensures r.Code? ==> t.emitted == [] && t.next == Region.Code(r.lang, r.code + [line])
    ensures !r.Code? ==> t.next.NotSet? && t.emitted == Flush(r)
  {
    match r
    case Code(lang, code) => Transition(Region.Code(lang, code + [line]), [])
    case _ => Close(r)
  }

  /** A non-empty line while no region is open: the classifier, first match wins. */
  function OpenRegion(line: string): (t: Transition)
    ensures |t.emitted| <= 1
    ensures t.emitted != [] <==> StartsWith(line, "#")
    ensures t.emitted != [] ==> t.next.NotSet? && t.emitted[0].Header?
    ensures t.emitted == [] ==> !t.next.NotSet?
  {
    if StartsWith(line, "#") then
      Transition(NotSet, [Element.Header(HeaderLevel(line), HeaderContent(line))])
    else if StartsWith(line, Fence) then
      Transition(Region.Code(FenceLanguage(line), []), [])
    else if StartsWithDigit(line) then
      if '.' in line then Transition(Region.OrderedList([OrderedItem(line)]), [])
      else Transition(Region.Paragraph([line]), [])
    else if StartsWith(line, "- ") then
      Transition(Region.UnorderedList([TrimStartMatches(line, "- ")]), [])
    else if StartsWith(line, "|") then
      Transition(Region.Table(Cells(line), [], true), [])
    else
      Transition(Region.Paragraph([Trim(line)]), [])
  }

  /** What any line does to the open region. */
  function Advance(r: Region, line: string): Transition {
    if line == [] then BlankLine(r, line)
    else match r
      case NotSet => OpenRegion(line)
      case Code(lang, code) =>
        if StartsWith(line, Fence) then Close(r)
        else Transition(Region.Code(lang, code + [line]), [])
      case OrderedList(list) =>
        if IsOrderedItem(line) then Transition(Region.OrderedList(list + [OrderedItem(line)]), [])
        else Close(r)
      case UnorderedList(list) =>
        var rest := TrimStartMatches(line, "- ");
        if |rest| == |line| then Close(r)
        else Transition(Region.UnorderedList(list + [rest]), [])
      case Paragraph(lines) =>
        Transition(Region.Paragraph(lines + [Trim(line)]), [])
      case Table(headers, rows, isSeparator) =>
        if isSeparator then Transition(Region.Table(headers, rows, false), [])
        else if StartsWith(line, "|") then Transition(Region.Table(headers, rows + [Cells(line)], false), [])
        else Close(r)
  }

  /** What one input line does to the state: the region moves on and the output grows. */
  function Step(st: State, line: string): State {
    var t := Advance(st.region, line);
    State(t.next, st.elements + t.emitted)
  }

  /** The state after feeding `lines`, in order, starting from `st`. */
  function Run(st: State, lines: seq<string>): State
    decreases |lines|
  {
    if lines == [] then st
    else Step(Run(st, lines[..|lines| - 1]), lines[|lines| - 1])
  }

  /** The elements of a whole document: every line fed in order, then whatever region is
      still open flushed. */
  function Parse(lines: seq<string>): seq<Element> {
    var end := Run(Start, lines);
    end.elements + Flush(end.region)
  }
}
