# Markdown block parser, modelled in Dafny

This project models the block-level Markdown parser of the blog's `parser` crate. The parser is
`parse_markdown` in `parser/src/parse/to_html.rs` together with its helper `handle_blank_line`.
It takes a document as a sequence of lines and reads each line once, in order. Between lines it
carries one open region: nothing, a code block, an ordered list, an unordered list, a table, or
a paragraph. It appends finished elements to an output sequence that only ever grows. Whatever
region is still open when the input ends is appended last.

The model has three layers.

- `ParseSpec` is the parser as functions:
  - `Advance` says what one line does to the open region;
  - `Step` applies it to the state (region plus output);
  - `Run` folds it over a list of lines;
  - `Parse` flushes the final region.
- `ToHtml` is the parser as it runs, written imperatively:
  - `ParseMarkdown` is a `for` loop over the lines that reassigns a mutable region and appends
    to the output;
  - `HandleBlankLine` is the blank-line helper;
  - `PushOpenRegion` pushes the region left open at the end of the input;
  - `ParseCells` collects a table line's cells.

  Each is proved to compute exactly what `ParseSpec` says.
- `ParseLemmas` and `BlockLemmas` prove what the parser promises about that specification.
  `Examples` restates the source's doc-test and three of its five unit tests as facts about
  the model.
  - The parse is total, an empty document yields nothing, and there are never more elements
    than lines.
  - Output is append-only and in document order.
  - Every element is well formed: lists and paragraphs are never empty, ordered-list items and
    header text carry no leading whitespace, and cells are trimmed and free of `|`. Unordered
    items may keep leading whitespace: `"-  x"` gives the item `" x"`.
  - Each construct has a rule saying what a run of its lines becomes and which line ends it.

`Text` models the parts of Rust's `str` API the parser uses: `trim`, `trim_start`,
`trim_matches`, `trim_start_matches`, `find`, `split` and `split_once`. Lines are Dafny strings.
Whitespace is Rust's `char::is_whitespace`, the Unicode White_Space set.

`parse_markdown`'s single `match` over the region became one method per arm: `OpenLine`,
`CodeLine`, `OrderedLine`, `UnorderedLine`, `ParagraphLine` and `TableLine`. `ParseLine`
dispatches to them. Each method has the same branches and the same order of tests as the arm it
replaces; the split only keeps each proof small. The loop over a table line's cells is likewise
its own method, `TrimAll`.

The model reproduces what the code does, including where a Markdown reader would
guess otherwise. Where the code and its surrounding description differ, the model follows the code.

- Only the empty string is a blank line. A line of spaces is text: with no region open it
  opens a paragraph holding one empty line.
- The line that ends an ordered list, an unordered list or a table (after its separator) is
  consumed and produces nothing. In `["- a", "- b", "text"]`, the `text` line is lost.
- A line of nothing but `#` is a header of level 0 with empty text, because `find` finds no
  non-`#` character and the level falls back to 0.
- A digit-led line with no `.` opens a paragraph whose first line is not trimmed.
- `trim_start_matches` removes every leading copy of its pattern. A header loses all its
  leading `#`. An unordered item loses every leading `"- "`. A fence language loses every
  leading run of three backquotes.
- `trim_matches('|')` removes every `|` at either end of a table line, not just one.
- `split_once('.')` splits an ordered item at the first `.` anywhere in the line.
- The line right after a table's header is skipped whatever it holds, unless it is empty. An
  empty line there emits the table with no rows.

## Model

| member | source | states |
|---|---|---|
| ToHtml.ParseMarkdown | parser/src/parse/to_html.rs:42-175 | the loop's output is exactly `Parse(text)`; it has no more elements than there are lines, and every element is well formed |
| ToHtml.HandleBlankLine | parser/src/parse/to_html.rs:179-205 | a code block keeps the blank line and nothing is emitted; any other region is emitted (nothing for no region) and no region is left open; on an empty line this is one `Step` |
| ToHtml.ParseLine | parser/src/parse/to_html.rs:53-160 | a non-empty line, dispatched on the open region, moves the state exactly as one `Step` |
| ToHtml.OpenLine | parser/src/parse/to_html.rs:54-95 | with no region open, a non-empty line moves the state as one `Step`: the classifier's order is header, fence, digit, "- ", `\|`, text |
| ToHtml.CodeLine | parser/src/parse/to_html.rs:96-107 | inside a code block, a fence emits the block and any other line is kept, as one `Step` |
| ToHtml.OrderedLine | parser/src/parse/to_html.rs:108-128 | inside an ordered list, a digit-led line with a `.` adds an item and any other line emits the list, as one `Step` |
| ToHtml.UnorderedLine | parser/src/parse/to_html.rs:129-139 | inside an unordered list, a line that loses nothing to stripping "- " emits the list; otherwise its rest is added, as one `Step` |
| ToHtml.ParagraphLine | parser/src/parse/to_html.rs:140-144 | inside a paragraph, a non-empty line is added trimmed, as one `Step` |
| ToHtml.TableLine | parser/src/parse/to_html.rs:145-159 | inside a table, the separator is skipped, a `\|` line adds a row and any other line emits the table, as one `Step` |
| ToHtml.ParseCells | parser/src/parse/to_html.rs:83-87 | the collected cells are `Cells(line)`: at least one cell, each trimmed and free of `\|` |
| ToHtml.PushOpenRegion | parser/src/parse/to_html.rs:163-173 | at the end of input, an open region is pushed as exactly one element after the existing ones; no region pushes nothing |
| ToHtml.TrimAll | parser/src/parse/to_html.rs:85-87 | one trimmed piece per piece, in order |
| ParseSpec.Advance | parser/src/parse/to_html.rs:48-160 | what one line does to the open region: the loop body, blank-line handling and every arm of the region `match`; its properties are stated by `ParseLemmas.AdvanceEmits`, `ParseLemmas.AdvanceBound` and `ParseLemmas.AdvanceWellFormed` |
| ParseLemmas.AdvanceEmits | parser/src/parse/to_html.rs:48-160 | a line emits at most one element and leaves no region open when it does; an open region that a line closes is emitted, never dropped; with no region open only a header line emits |
| ParseSpec.Step | parser/src/parse/to_html.rs:46-161 | one loop iteration: the region moves on as `Advance` says and the emitted elements are appended; `ParseLemmas.RunExtends` states that the output only grows, by at most one element per line |
| ParseSpec.Run | parser/src/parse/to_html.rs:46-161 | the `for` loop as a fold of `Step` over the lines in order; characterised by `ParseLemmas.RunConcat`, `ParseLemmas.RunExtends` and `ParseLemmas.RunWellFormed` |
| ParseSpec.Parse | parser/src/parse/to_html.rs:42-175 | the whole function: the loop, then the open region flushed; characterised by `ParseLemmas.ParseBound`, `ParseLemmas.ParsePrefix`, `ParseLemmas.ParseAfter` and `ParseLemmas.ParseWellFormed` |
| ParseSpec.BlankLine | parser/src/parse/to_html.rs:179-205 | a code block keeps the empty line and emits nothing; every other region is emitted as its one element (nothing for no region) and no region is left open |
| ParseSpec.OpenRegion | parser/src/parse/to_html.rs:54-95 | with no region open, a line emits at most one element; it emits exactly when it starts with `#`, and then the element is a header and no region is opened; every other line opens a region |
| ParseSpec.HeaderLevel | parser/src/parse/to_html.rs:58 | the level is the length of the leading `#` run when a non-`#` character follows it, and 0 when there is none: then the line is all `#` or does not start with one |
| ParseSpec.HeaderContent | parser/src/parse/to_html.rs:57 | the header text is no longer than the line and does not begin with whitespace |
| ParseSpec.FenceLanguage | parser/src/parse/to_html.rs:63 | the language is trimmed, and on a fence line it is shorter than the line by at least the fence |
| ParseSpec.OrderedItem | parser/src/parse/to_html.rs:68-71 | an item is shorter than its line, since at least the `.` is gone, and does not begin with whitespace |
| ParseSpec.Cells | parser/src/parse/to_html.rs:83-87 | a table line has at least one cell and every cell is trimmed; `ParseLemmas.CellsWellFormed` adds that no cell holds `\|` |
| ParseSpec.Flush | parser/src/parse/to_html.rs:163-173 | an open region yields exactly one element at the end of input; no region yields none |
| ParseLemmas.ParseBound | parser/src/parse/to_html.rs:42-175 | an empty document has no elements, and no document has more elements than lines |
| ParseLemmas.AdvanceBound | parser/src/parse/to_html.rs:53-160 | one line emits at most one element, counting the element its open region still owes |
| ParseLemmas.RunExtends | parser/src/parse/to_html.rs:46-161 | the output is append-only: earlier output is a prefix of later output, and each line adds at most one element |
| ParseLemmas.ParsePrefix | parser/src/parse/to_html.rs:42-175 | document order: what the first lines emit is a prefix of the whole document's parse |
| ParseLemmas.RunConcat | parser/src/parse/to_html.rs:46-161 | reading two stretches of lines one after the other is reading their concatenation |
| ParseLemmas.RunShift | parser/src/parse/to_html.rs:46-161 | elements already emitted take no part in what later lines do |
| ParseLemmas.RunAfterIdle | parser/src/parse/to_html.rs:46-161 | after lines that leave no region open, the rest of the lines run as they would on their own, their output following what was already emitted |
| ParseLemmas.RunIdleThen | parser/src/parse/to_html.rs:46-161 | two stretches that each start and end with no region open give their outputs concatenated |
| ParseLemmas.ParseAfter | parser/src/parse/to_html.rs:42-175 | a document splits at any line after which no region is open: its parse is the output so far followed by the parse of the rest |
| ParseLemmas.CellsOfParts | parser/src/parse/to_html.rs:85-87 | the pieces of a bar-stripped table line, trimmed one by one, are its cells and form a row |
| ParseLemmas.CellsWellFormed | parser/src/parse/to_html.rs:85-87 | a table line has at least one cell, and every cell is trimmed and free of `\|` |
| ParseLemmas.OpenRegionWellFormed | parser/src/parse/to_html.rs:54-95 | with no region open, any line opens a well-formed region or emits a well-formed header |
| ParseLemmas.AdvanceWellFormed | parser/src/parse/to_html.rs:48-160 | from a well-formed region, a line leads to a well-formed region and emits only well-formed elements |
| ParseLemmas.RunWellFormed | parser/src/parse/to_html.rs:46-161 | reading any lines keeps the region and the output well formed |
| ParseLemmas.ParseWellFormed | parser/src/parse/to_html.rs:42-175 | every element of every document is well formed: lists and paragraphs non-empty, ordered-list items and header text without leading whitespace, unordered items without a leading "- ", fence language and cells trimmed |
| BlockLemmas.ParseFrom | parser/src/parse/to_html.rs:163-174 | the parse is the state the lines lead to, with the open region flushed |
| BlockLemmas.BlankIdle | parser/src/parse/to_html.rs:181 | with no region open, an empty line changes nothing |
| BlockLemmas.HeaderLine | parser/src/parse/to_html.rs:56-59 | with no region open, `k` `#` and text not starting with `#` emit a header at once: level `k` (0 if nothing follows), text without leading whitespace; no region is opened |
| BlockLemmas.WhitespaceLineIsText | parser/src/parse/to_html.rs:48 | a non-empty all-whitespace line is not blank: it opens a paragraph holding one empty line |
| BlockLemmas.DigitWithoutDot | parser/src/parse/to_html.rs:74 | a digit-led line without `.` opens a paragraph holding the line untrimmed |
| BlockLemmas.CodeOpen | parser/src/parse/to_html.rs:62-65 | a fence line opens an empty code block whose language is the rest of the line, trimmed |
| BlockLemmas.CodeStep | parser/src/parse/to_html.rs:103-106 | inside a code block, a line not starting with the fence, even an empty one, is kept verbatim |
| BlockLemmas.CodeClose | parser/src/parse/to_html.rs:97-102 | inside a code block, a fence line emits the block and adds nothing to it |
| BlockLemmas.CodeBody | parser/src/parse/to_html.rs:96-107 | inside a code block, any run of non-fence lines is kept verbatim, in order, and nothing is emitted |
| BlockLemmas.CodeBlock | parser/src/parse/to_html.rs:62-107 | fence, body, fence gives one code element holding exactly the body |
| BlockLemmas.CodeParse | parser/src/parse/to_html.rs:165-168 | a code block left open at the end of input is emitted with its lines |
| BlockLemmas.ParagraphOpen | parser/src/parse/to_html.rs:92-94 | a line no other construct claims opens a paragraph holding the line trimmed |
| BlockLemmas.ParagraphStep | parser/src/parse/to_html.rs:140-144 | inside a paragraph, any non-empty line is added trimmed |
| BlockLemmas.ParagraphBody | parser/src/parse/to_html.rs:140-144 | inside a paragraph, every non-empty line is added trimmed, even one starting with `#`, "- " or `\|`, and nothing is emitted |
| BlockLemmas.ParagraphBlock | parser/src/parse/to_html.rs:200-203 | a text line, non-empty lines and an empty line give one paragraph of all the lines trimmed |
| BlockLemmas.ParagraphParse | parser/src/parse/to_html.rs:172 | a paragraph left open at the end of input is emitted |
| BlockLemmas.TableOpen | parser/src/parse/to_html.rs:82-90 | a `\|` line opens a table whose headers are its cells, waiting for the separator |
| BlockLemmas.TableSeparator | parser/src/parse/to_html.rs:146-147 | the non-empty line after the header is discarded whatever it holds |
| BlockLemmas.TableBlankSeparator | parser/src/parse/to_html.rs:196-199 | an empty line right after the header emits the table with no rows |
| BlockLemmas.TableRowStep | parser/src/parse/to_html.rs:148-154 | after the separator, a `\|` line adds its cells as a row |
| BlockLemmas.TableEnd | parser/src/parse/to_html.rs:155-158 | after the separator, a line not starting with `\|`, empty or not, emits the table and is dropped |
| BlockLemmas.TableRows | parser/src/parse/to_html.rs:148-154 | after the separator, a run of `\|` lines adds one row per line, in order |
| BlockLemmas.TableBlock | parser/src/parse/to_html.rs:145-159 | header, separator, `\|` rows and a non-`\|` line give one table; the ending line is lost |
| BlockLemmas.TableParse | parser/src/parse/to_html.rs:171 | a table left open at the end of input is emitted with all its rows |
| BlockLemmas.TableWithoutRows | parser/src/parse/to_html.rs:171 | a table the input ends right after its header or separator has no rows |
| BlockLemmas.OrderedOpen | parser/src/parse/to_html.rs:67-72 | a digit-led line holding a `.` opens a list whose item is the text after the first `.`, without leading whitespace |
| BlockLemmas.OrderedAppend | parser/src/parse/to_html.rs:109-115 | inside an ordered list, such a line adds its item |
| BlockLemmas.OrderedEnd | parser/src/parse/to_html.rs:116-127 | inside an ordered list, any other line, empty or not, emits the list and is dropped |
| BlockLemmas.OrderedBlock | parser/src/parse/to_html.rs:108-127 | consecutive item lines make one list of their items; the line that ends it is lost |
| BlockLemmas.OrderedParse | parser/src/parse/to_html.rs:169 | an ordered list left open at the end of input is emitted |
| BlockLemmas.DashOpen | parser/src/parse/to_html.rs:78-80 | a "- " line opens an unordered list whose item is the line without every leading "- " |
| BlockLemmas.DashAppend | parser/src/parse/to_html.rs:135-137 | inside an unordered list, a "- " line adds its item |
| BlockLemmas.DashEnd | parser/src/parse/to_html.rs:130-134 | inside an unordered list, a line not starting with "- ", empty or not, emits the list and is dropped |
| BlockLemmas.UnorderedBlock | parser/src/parse/to_html.rs:129-139 | consecutive "- " lines make one list; the line that ends it is lost |
| BlockLemmas.UnorderedParse | parser/src/parse/to_html.rs:170 | an unordered list left open at the end of input is emitted |
| Text.Trim | parser/src/parse/to_html.rs:63 | `trim` leaves no whitespace at either end and never lengthens the string; `Text.TrimBySlice` says what it cut |
| Text.TrimStart | parser/src/parse/to_html.rs:57 | `trim_start` leaves no whitespace at the front and never lengthens the string |
| Text.TrimStartMatches | parser/src/parse/to_html.rs:79 | `trim_start_matches` never lengthens the string, removes at least one copy when the string starts with the pattern, and leaves a string not starting with it |
| Text.TrimStartMatchesSuffix | parser/src/parse/to_html.rs:57 | what `trim_start_matches` keeps is a suffix of its input |
| Text.TrimBy | parser/src/parse/to_html.rs:150 | `trim_matches` never lengthens the string and leaves no matching character at either end |
| Text.TrimStartMatchesRepeat | parser/src/parse/to_html.rs:57 | `trim_start_matches` removes every leading copy of its pattern, not just one |
| Text.TrimBySlice | parser/src/parse/to_html.rs:85 | `trim_matches` keeps a contiguous slice and cuts only matching characters on either side |
| Text.Split | parser/src/parse/to_html.rs:85 | `split` gives at least one piece, none holding the separator, and joining them back gives the input |
| Text.SplitOnce | parser/src/parse/to_html.rs:68 | `split_once` fails exactly when the character is absent; otherwise it splits at its first occurrence |
| Text.Position | parser/src/parse/to_html.rs:58 | `find` gives the first index whose character matches, or nothing when none does |
| Examples.DocumentedExample | parser/src/parse/to_html.rs:28-41 | `["# Header", "", "This is a paragraph."]` parses to a level-1 header and a one-line paragraph |
| Examples.CodeExample | parser/src/parse/to_html.rs:217-234 | a `py` fence with two lines of code parses to one code element |
| Examples.HeadersAndText | parser/src/parse/to_html.rs:238-275 | headers of levels 1 and 2, each followed by a two-line paragraph, lose the paragraphs' trailing spaces |
| Examples.TableExample | parser/src/parse/to_html.rs:278-306 | the key-binding table parses to its headers and six rows of trimmed cells |
| Examples.ListSwallowsTerminator | parser/src/parse/to_html.rs:132-134 | `["- a", "- b", "text"]` parses to one list and the `text` line is lost |
| Examples.DashKeepsSpace | parser/src/parse/to_html.rs:78-80 | `"-  x"` parses to one unordered list whose item `" x"` keeps its leading space |
| Examples.HashesOnly | parser/src/parse/to_html.rs:58 | `"###"` parses to a header of level 0 with empty text |
| Examples.NumberWithoutDot | parser/src/parse/to_html.rs:74 | `"2024 was good  "` parses to a paragraph keeping its trailing spaces |
| Examples.FirstDotSplits | parser/src/parse/to_html.rs:110-115 | `"2.5 b."` is an item whose text is `"5 b."`: the split is at the first `.` |

## Left out

- `parser/src/parse/dump_file.rs` is not part of this model. It is directory traversal, file
  reading and writing, JSON serialisation and logging.
- `parser/src/parse/paths.rs` is not part of this model: it holds only constant filesystem
  paths.
- `parser/src/parse/html_element.rs` is not part of this model. Its enum is out of date, with
  no `Table` variant and tuple variants. `HtmlElement.Element` is built from the variants
  `to_html.rs` constructs.
- `parser/src/main.rs` (an unfinished draft) and `parser/src/lib.rs` (module declarations) are
  not part of this model.
- The `website` front end (React components, inline-markup regexes, JSON lookups) is not part
  of this model.
- Splitting a file into lines happens in the caller, which reads the file. Here the input is
  already a sequence of lines, each without its line terminator.
- Digits are ASCII `0`–`9`. Rust's `char::is_numeric` also accepts other Unicode numerals, so
  a line led by such a numeral is text here but a list candidate in the source.
- Strings are sequences of characters. Rust's byte lengths and byte offsets are not modelled.
  Two places in the source use them. The length comparison `no_leading_dash.len() == line.len()`
  only asks whether anything was stripped, which character counts answer the same way. The
  header level `find(|c| c != '#')` is a byte offset, while `Text.Position` gives a character
  index; the two agree because every character before that index is the one-byte `#`.
- Element ownership, and moving vectors in and out of `Region`, have no counterpart: regions and
  elements are values.
- The two longest unit tests (a code block inside a blog post, lines 309-383, and a mixed
  document, lines 386-463) are not restated as examples. The rules they exercise are each
  proved in general by `BlockLemmas`.
