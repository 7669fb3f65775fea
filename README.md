# sshconfig parser, modelled in Dafny

This project models the parser of SSH-client-style configuration text in
`parse.go`. The parser works in two stages.

- **Line lexer** (`parseLine`, `parseFile`). Each numbered input line
  becomes either no token or exactly two tokens: the key and then the value.
  - A line gives no token when it is blank or its first character that is
    not a space or tab is `#`.
  - The key runs up to the first space or tab.
  - The value is the rest of the line, trimmed, cut at the first `#`, and
    trimmed again.
- **Section builder** (`Section`, `NewSection`, `loadMap`, `Parse`). It reads
  the token stream through one shared cursor.
  - The stream must open with a `Host` token. Otherwise Parse fails with the
    line of that token, or line 0 when there is no token at all.
  - Every token read right after that names a new section.
  - `loadMap` pairs the following tokens into the section's map, and the
    last write wins. It stops at the next token whose text is `Host`, in key
    or value position. A key left without a value is dropped.

Modules:

- `lexer.dfy` (module `Lexer`) holds the lexer.
  - `TrimLeft`, `TrimRight` and `Trim` (the `strings` calls) are functions
    described by the lemmas `TrimLeftSpec`, `TrimRightSpec`, `TrimEmpty` and
    `TrimOf`.
  - The two scanning loops of `parseLine` are the methods `ScanKey` and
    `ScanComment`, proved equal to the functions `KeyEnd` and
    `CommentStart`.
  - `ParseLine` and `ParseFile` are methods proved equal to the functions
    `LineTokens` and `FileTokens`.
  - Lemmas state what those functions guarantee.
- `sections.dfy` (module `Sections`) holds the builder.
  - `Section` is a class, because `loadMap` writes `s.Values` in place.
  - `LoadMap` is a loop over the token sequence with the `hasKey`/`key`
    state. It returns the new cursor.
  - `Parse` and `ReadSections` create the sections and append them.
  - The methods are proved against the functions `Load`, `Segment`,
    `Resume`, `Build` and `Parsed`, and lemmas state the properties of those
    functions.
- `config_text.dfy` (module `ConfigText`) relates the two stages end to end.
  - It renders well-formed `Host` blocks as text and proves that parsing the
    text gives back the blocks' sections.
  - It proves that the input of `TestHostSection` in `parse_test.go` parses
    to exactly the section that test expects.

## Model

| member | source | states |
|---|---|---|
| `Lexer.TrimLeftSpec` | parse.go:40 | `strings.TrimLeft(line, spaces)` removes exactly the leading run of spaces and tabs: the result is a suffix of the line and everything removed is a space or tab |
| `Lexer.TrimRightSpec` | parse.go:58 | the right half of `strings.Trim` removes exactly the trailing run of spaces and tabs, leaving a prefix |
| `Lexer.TrimEmpty` | parse.go:58 | `strings.Trim` leaves the empty string exactly when the text is only spaces and tabs |
| `Lexer.TrimOf` | parse.go:68 | trimming blanks + trimmed text + blanks gives back the trimmed text |
| `Lexer.ScanKey` | parse.go:45-51 | the loop that advances `end` until a space or tab stops at `KeyEnd(l)` |
| `Lexer.KeyEndSpec` | parse.go:45-51 | no character before the key scan's stopping point is a space or tab |
| `Lexer.KeyEndUnique` | parse.go:45-51 | any index with no blank before it and a blank (or the end) at it is where the key scan stops |
| `Lexer.ScanComment` | parse.go:59-65 | the loop that advances `end` until `#` stops at `CommentStart(l)` |
| `Lexer.CommentStartSpec` | parse.go:59-65 | no character before the comment scan's stopping point is `#` |
| `Lexer.CommentStartUnique` | parse.go:59-65 | any index with no `#` before it and `#` (or the end) at it is where the comment scan stops |
| `Lexer.ParseLine` | parse.go:37-72 | parseLine emits exactly `LineTokens(nline, line)`; the `end > 0` test at line 52 always holds, so the return at line 55 is dead |
| `Lexer.BlankOrCommentTrim` | parse.go:40-43 | the skip test on the left-trimmed line (empty or starting with `#`) holds exactly for blank lines and lines whose first non-blank character is `#` |
| `Lexer.LineTokensShape` | parse.go:40-71 | a line yields no token exactly when it is blank or a comment, and otherwise exactly two tokens, both carrying the line number |
| `Lexer.LineTokensText` | parse.go:45-71 | of the two tokens of a line, the first is the key of the left-trimmed line and the second is the value cut out of what follows the key |
| `Lexer.KeySpec` | parse.go:45-53 | the key of a left-trimmed non-blank line is non-empty, starts with the line's first character, has no space or tab, is a prefix of the line, and is followed by a blank or the end of the line |
| `Lexer.UncommentSpec` | parse.go:58-71 | the value holds no `#` and has no leading or trailing blank; it is `""` exactly when only blanks come before the first `#` |
| `Lexer.UncommentTrim` | parse.go:58-68 | trimming before cutting at `#` changes nothing: the first `strings.Trim` at line 58 does not affect the value |
| `Lexer.UncommentAround` | parse.go:58-68 | blanks around a trimmed text do not change its value |
| `Lexer.ParseFile` | parse.go:75-85 | parseFile emits exactly `FileTokens(lines)`: the lines numbered 1, 2, … and lexed in order onto one stream |
| `Lexer.FileTokensLines` | parse.go:76-84 | every token's line number is between 1 and the number of lines, and line numbers never decrease along the stream |
| `Lexer.FileTokensPaired` | parse.go:81-84 | the stream has two tokens per content line; tokens 2k and 2k+1 share a line and are exactly that line's `LineTokens` |
| `Lexer.NoTokens` | parse.go:40-43 | the stream is empty exactly when every line is blank or a comment |
| `Lexer.FirstTokens` | parse.go:81-84 | the first two tokens are those of the first line that is neither blank nor a comment, numbered by that line |
| `Lexer.LineVals` | parse.go:53 | the texts of a line's tokens do not depend on its line number |
| `Lexer.FileValsAppend` | parse.go:81-84 | the token texts of two inputs one after the other are the texts of the first followed by those of the second |
| `Lexer.FileValsCons` | parse.go:81-84 | a line in front of an input adds its texts in front of the input's |
| `Sections.HostIndex` | parse.go:93-96 | the index where loadMap stops: no `Host` between the start and it, and a `Host` at it unless the stream ended |
| `Sections.HostIndexUnique` | parse.go:93-96 | any index with those two properties is that stopping point |
| `Sections.Section.constructor` | parse.go:26-28 | NewSection gives a section with the given name and an empty map |
| `Sections.Section.LoadMap` | parse.go:89-105 | the map becomes the old map updated with the key/value pairs of the tokens up to the next `Host`; the cursor moves past that `Host`, or to the end |
| `Sections.LoadPush` | parse.go:97-103 | one loop step: a token in key position only records the key, and a token in value position writes the recorded key |
| `Sections.LoadSnoc` | parse.go:97-99 | appending a key and a value writes that value under that key |
| `Sections.LoadOdd` | parse.go:100-103 | a key left without a value at the end of a section is dropped |
| `Sections.LoadLast` | parse.go:97-99 | a key gets the value of its last occurrence in key position: the last write wins |
| `Sections.LoadUntouched` | parse.go:97-103 | a key never written by the pairs is present and mapped exactly as before |
| `Sections.ReadSections` | parse.go:122-126 | the loop's sections, read as values, are `Build(texts, 1)`: one per name token, in stream order; the section objects are fresh and distinct |
| `Sections.Parse` | parse.go:109-129 | Parse fails exactly when `Parsed` fails, with the same line; otherwise its sections, read as values, are `Parsed`'s; the section objects are fresh and distinct |
| `Sections.BuildStarts` | parse.go:122-126 | section k is built from the name token at position `Starts[k]`, with the options that follow it |
| `Sections.StartsAfterHost` | parse.go:94-95 | every section after the first is named by the token right after a `Host` token |
| `Sections.StartsNext` | parse.go:93-96 | the next section starts right after the first `Host` that follows the current section's name |
| `Sections.StartsLast` | parse.go:122-126 | after the last section's options no token is left |
| `Sections.LoadNoHost` | parse.go:93-103 | pairing tokens that are not `Host` never stores `Host` as a key or a value |
| `Sections.SectionNoHost` | parse.go:93-103 | no option of a built section has `Host` as its key or value |
| `Sections.ParsedEmpty` | parse.go:115-120 | Parse fails with line 0 exactly when every line is blank or a comment |
| `Sections.ParsedFirst` | parse.go:115-126 | with line k the first content line, Parse fails exactly when its key is not `Host`, and the error carries k; otherwise the first section is named by that line's value |
| `ConfigText.KeyLine` | parse.go:40-71 | blanks, a key and a rest starting with a blank lex to the key and the rest cut at `#` and trimmed |
| `ConfigText.UncommentOf` | parse.go:58-71 | blanks, a value, blanks and an optional comment give back the value |
| `ConfigText.LineVals` | parse.go:37-72 | a line `indent key gap value gap comment` lexes to the key and the value |
| `ConfigText.HashInKey` | parse.go:45-53 | a key may contain `#`: `Opt#ion value` lexes to `Opt#ion` and `value` |
| `ConfigText.HostLineTokens` | parse.go:37-72 | a rendered `Host name` line lexes to `Host` and the name |
| `ConfigText.DirectiveLineTokens` | parse.go:37-72 | a rendered option line lexes to its key and its value |
| `ConfigText.RenderVals` | parse.go:75-85 | the token texts of rendered blocks are, block by block, `Host`, the name, and then each key and its value |
| `ConfigText.OptionsLoad` | parse.go:97-103 | pairing the texts of a block's options gives the block's options, the last value of a key winning |
| `ConfigText.BuildText` | parse.go:89-126 | building sections from the texts of blocks whose keys and values are not `Host` gives one section per block, in order |
| `ConfigText.RenderParse` | parse.go:109-129 | round trip: parsing rendered valid blocks gives back their sections in order; with no block, Parse fails with line 0 |
| `ConfigText.HostSectionLine0` | parse_test.go:16 | the comment line of the test input yields no token |
| `ConfigText.HostSectionLine1` | parse_test.go:17 | `Host local # Local SSH` lexes to `Host` and `local` |
| `ConfigText.HostSectionLine2` | parse_test.go:18 | an option with a several-word value keeps the whole value |
| `ConfigText.HostSectionLine3` | parse_test.go:19 | an option followed by a comment keeps only the value `12345` |
| `ConfigText.HostSectionLine4` | parse_test.go:20 | an option with nothing after its key gets the value `""` |
| `ConfigText.HostSectionLine5` | parse_test.go:21 | an option followed only by a comment gets the value `""` |
| `ConfigText.HostSectionParse` | parse_test.go:15-48 | TestHostSection: the input parses to exactly one section, `local`, whose map holds the four options with the values the test checks |

## Left out

- The goroutine and the channel (parse.go:110-111, 79) are replaced by a
  token sequence, and parseFile finishes before the builder starts.
  - The drain loop at parse.go:117-118 only unblocks the producer, so it is
    not modelled.
  - `ParseLine` returns both tokens of a line at once instead of sending the
    key before scanning the value. The channel is unbuffered, so the
    consumer does receive the key first, but parseLine computes nothing from
    the consumer. Only the order of the sends is visible, and the model
    keeps it.
- `bufio.Scanner` is not modelled: the input is given as a sequence of lines
  already split. Its 64 KiB line limit, `\r\n` handling and read errors are
  not captured.
- UTF-8 decoding is not modelled. One character stands for one decoded rune,
  so the byte offsets `end` of parse.go are character indices here, and
  invalid encodings are not considered.
- The text of the error built by `fmt.Errorf` (parse.go:119) is not
  modelled. The error keeps only the line number. In Go that text is
  malformed anyway, because the verb is `%s` and the line is an `int`.
- `io.Reader` plumbing and the Go `testing` package are left out. The assertions
  of TestHostSection are stated in `ConfigText.HostSectionParse`.
- The builder loop of `Parse` (parse.go:122-126) is its own method,
  `ReadSections`. `Parse` calls it after the first-token check.
- `Sections.Parse`: on error Go returns a nil slice, and the model's `Err`
  carries no sections at all.
- Line numbers are unbounded naturals. The Go `int` counter cannot overflow
  on any real input, so its width is not modelled.
