/** The elements the Markdown parser emits, as `parse_markdown` builds them. */
module HtmlElement {
  import opened Text

  /** One finished node of the output document, in the order the parser appends it. */
  datatype Element =
    | Header(level: nat, content: string)
    | Code(language: string, code: seq<string>)
    | OrderedList(list: seq<string>)
    | UnorderedList(list: seq<string>)
    | Table(headers: seq<string>, rows: seq<seq<string>>)
    | Paragraph(lines: seq<string>)

  /** A table cell as the parser produces it: trimmed and free of `|`. */
  predicate IsCell(cell: string) {
    Trimmed(cell) && '|' !in cell
  }

  /** A table line as the parser produces it: at least one cell, every one a cell. */
  predicate IsRow(cells: seq<string>) {
    cells != [] && forall i :: 0 <= i < |cells| ==> IsCell(cells[i])
  }

  /** What every element the parser emits satisfies: header text and ordered-list items carry
      no leading whitespace, unordered items no leading "- ", fence languages and table cells
      are trimmed, every table line has at least one cell, and lists and paragraphs are never
      empty. A code block may be empty. */
  predicate WellFormed(e: Element) {
    match e
    case Header(_, content) => content == [] || !IsWhitespace(content[0])
    case Code(language, _) => Trimmed(language)
    case OrderedList(list) =>
      list != [] && forall i :: 0 <= i < |list| ==> list[i] == [] || !IsWhitespace(list[i][0])
    case UnorderedList(list) =>
      list != [] && forall i :: 0 <= i < |list| ==> !StartsWith(list[i], "- ")
    case Table(headers, rows) => IsRow(headers) && forall r :: 0 <= r < |rows| ==> IsRow(rows[r])
    case Paragraph(lines) => lines != []
  }
}
