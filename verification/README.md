# dbcparser line tokenizer and frame-line grammar, in Dafny

This project models the core of the `dbcparser` reader for CAN database
(DBC) files:

- **The logical-line tokenizer `StreamParser.iter`.** It reads a character
  stream in chunks of `CHUNK_SIZE` characters and flips a "string state" flag
  at every `"`. A `\n` ends a line only when that flag is off, so a quoted
  string may span several physical lines. When a line ends partway through a
  chunk, the stream is rewound over the unread rest of the chunk. If the
  stream ends while the last line is still inside a string, the tokenizer
  raises `DBCSyntaxError`.
- **The frame-line grammar of `MessageParser.REGEX`.** A frame line is `BO_`,
  whitespace, a decimal address, a name, a colon, a decimal data length code
  (DLC), whitespace, one transmitter, and trailing whitespace.

Modules:

- `Lines` (`lines.dfy`) is the specification side. It defines the quote
  count, the logical line, and the reference splitter `SplitLines`, a pure
  function from the text to the lines yielded and how iteration stops
  (`Run(lines, stop)`, where `stop` is `EndOfStream` or `UnclosedString`, the
  `DBCSyntaxError`). It proves that splitter's properties and a uniqueness
  theorem that characterizes its result completely.
- `StreamParser` (`stream_parser.dfy`) is the chunked scanner itself. The
  stream is an in-memory text with a cursor: `Read` takes up to `n`
  characters from the cursor, and seeking assigns the cursor. `Iter` is
  proved to yield exactly what `SplitLines` yields for every positive chunk
  size. It is also proved to leave the cursor just past the text yielded so
  far at each yield.
- `FrameLine` (`frame_line.dfy`) defines the grammar as the existence of a
  decomposition (`Layout`) of the line. `Match` is a recognizer that finds
  such a decomposition without backtracking, and it is proved to accept
  exactly the frame lines.
- `StreamScenarios` (`stream_scenarios.dfy`) holds the streams of the
  tokenizer's unit tests, built as the tests build them with `'\n'.join`,
  with the results the tests expect: the yielded lines, stripped with
  `rstrip('\n')`, are the lines joined. It also proves that a stream joined
  from lines with balanced quotes is split back into exactly those lines.
- `FrameScenarios` (`frame_scenarios.dfy`) holds the frame lines quoted next
  to the pattern and used by the line tests, with the captures the tests
  expect.

Each yielded line keeps the `\n` that ends it, and a blank line is yielded
as `"\n"`; the tests strip the newline afterwards.

The Python generator yields some lines and may then raise. This is modelled
as the list of lines yielded plus the way the iteration stopped. A chunk size
of 0 makes every read empty, so nothing is yielded. The module constant
`StreamParser.ChunkSize` records the source's default of 10, and the test
scenarios run the scanner with it. The proofs hold for every chunk size.

## Model

| member | source | states |
|---|---|---|
| `Lines.LineLength` | src/dbcparser/parser.py:72-80 | The first logical line of a non-empty text runs just past its first newline that has an even number of quotes before it. If there is no such newline, it runs over the whole text. No earlier newline ends it. |
| `Lines.SplitLinesCoversText` | src/dbcparser/parser.py:63-89 | The yielded lines, joined, are a prefix of the text. They are the whole text exactly when iteration ends without an error, so the rewind never loses or repeats a character. |
| `Lines.SplitLinesShape` | src/dbcparser/parser.py:72-91 | Every yielded line is non-empty and has balanced quotes. Every newline before its last character lies inside quotes. Every line but the last ends with a newline outside quotes. A line without such a newline is the last one, and iteration then ends normally. |
| `Lines.SplitLinesErrorIffOddQuotes` | src/dbcparser/parser.py:86-89 | Iteration ends with the unclosed-string error exactly when the whole text has an odd number of quotes. |
| `Lines.SplitLinesUnique` | src/dbcparser/parser.py:48-51 | Suppose some lines joined with a tail rebuild the text, where each line is a logical line, each line but the last is terminated, and the tail is empty or an unterminated run with an odd quote count after a terminated line. Then those lines, and the error exactly when the tail is non-empty, are what the tokenizer gives. |
| `Lines.EmptyTextYieldsNothing` | tests/test_parser.py:28-31 | An empty stream yields no lines and ends normally. |
| `StreamParser.Read` | src/dbcparser/parser.py:67-69 | A read returns at most the requested number of characters, taken from the cursor on. It comes back empty exactly at the end of the stream or when nothing is asked for. It comes back short only at the end of the stream. |
| `StreamParser.ScanChunk` | src/dbcparser/parser.py:72-83 | Scanning a chunk either finds the first newline outside quotes of the line so far, with the string state off again after it, or finds none, with the string state telling whether the line so far ends inside a string. |
| `StreamParser.Rewound` | src/dbcparser/parser.py:76-79 | After rewinding over the excess of the chunk, the line kept is exactly the first logical line of the unread text, and its quotes are balanced. |
| `StreamParser.ReadLine` | src/dbcparser/parser.py:63-83 | The per-chunk loop returns the first logical line of the unread text and moves the cursor just past it. The line is empty exactly at the end of the stream or for chunk size 0. It starts with the string state off and leaves it off, except when the line runs to the end of the stream inside a string; so the state set once before the outer loop is off at the start of every line. |
| `StreamParser.YieldLine` | src/dbcparser/parser.py:44-46 | Yielding the text between the previous cursor and the new one keeps the yielded lines equal to the text read, and keeps each recorded cursor at the total length of the lines yielded up to it. |
| `StreamParser.Iter` | src/dbcparser/parser.py:40-91 | For every positive chunk size the tokenizer yields exactly the reference splitter's lines and stops the same way. For chunk size 0 it yields nothing. At each yield the cursor sits just past all the text yielded so far. |
| `StreamParser.ChunkSizeIrrelevant` | src/dbcparser/parser.py:12-23 | Any two positive chunk sizes give the same lines and the same stop. |
| `FrameLine.CutSuffix` | src/dbcparser/parser.py:107-109 | Cutting the longest run of a character class off the end of a text leaves a rest that does not end in that class. |
| `FrameLine.CutPrefix` | src/dbcparser/parser.py:104-106 | Cutting the longest run of a character class off the front of a text leaves a rest that does not start with that class. |
| `FrameLine.SplitAddress` | src/dbcparser/parser.py:105-106 | The address and the name that follows it together spell the text before the colon. The address is all digits. On a non-empty text it is the longest digit run from the front that still leaves a character for the name, which is where the greedy `\d+` settles when it backtracks for `\S+`. |
| `FrameLine.GreedyUnique` | src/dbcparser/parser.py:105-106 | Only one address has that longest-digit-run property, so the greedy address of a text is unique. |
| `FrameLine.SplitAddressGlued` | src/dbcparser/parser.py:105-106 | A name glued straight to the address still leaves a non-empty address and a non-empty name without whitespace. |
| `FrameLine.Match` | src/dbcparser/parser.py:103-110 | Any layout the recognizer returns obeys the pattern piece by piece and spells out exactly the line given. |
| `FrameLine.MatchComplete` | src/dbcparser/parser.py:103-110 | Every line the pattern describes is recognized. Whatever decomposition the line was built from, the result has the same whitespace runs, length code and transmitter, and the same text for address, whitespace and name together. Its address is the greedy one, at least as long as the one built from. A decomposition whose address is greedy, and one with whitespace after the address, is returned exactly. |
| `FrameLine.MatchIffFrameLine` | src/dbcparser/parser.py:103-110 | The recognizer accepts a line if and only if the line has a decomposition that matches the pattern. |
| `StreamScenarios.RStrip` | tests/test_parser.py:23-26 | Stripping trailing newlines leaves a prefix of the line that does not end in a newline, and removes only newlines. |
| `StreamScenarios.SplitJoined` | src/dbcparser/parser.py:72-89 | A stream joined with newlines from lines that have balanced quotes, and no newline outside quotes, is split back into those lines when the last is not empty. Each but the last keeps its newline, and stripping gives the lines joined. |
| `StreamScenarios.SplitJoinedNewline` | src/dbcparser/parser.py:72-89 | The same stream with a newline added at the end is split into all its lines, each with its newline, an empty last line included. Stripping gives the lines joined. |
| `StreamScenarios.SimpleLines` | tests/test_parser.py:10-26 | The seven lines of `test_simple_lines`, joined, come back as seven lines whose stripped forms are the lines joined. The line whose string spans a newline comes out whole with its newline, and the last line comes out without one. |
| `StreamScenarios.EmptyLines` | tests/test_parser.py:48-61 | The stream of `test_empty_lines` yields `"\n"`, `"line 2\n"`, `"\n"`, `"line 4\n"`, `"\n"` and ends normally, and the stripped lines are the lines joined. |
| `StreamScenarios.UnclosedFirstLine` | tests/test_parser_stream.py:80-84 | A stream `foo "bar` yields nothing and ends with the unclosed-string error. |
| `StreamScenarios.SimpleLinesScanned` | tests/test_parser.py:10-26 | The chunked scanner with the default chunk size of 10, run on the stream of `test_simple_lines`, yields lines that strip to the lines joined, and ends normally. |
| `StreamScenarios.SmallChunks` | tests/test_parser.py:33-46 | With one character per read, the first three lines come back stripped as joined, and iteration ends normally. |
| `StreamScenarios.LargeChunks` | tests/test_parser_stream.py:49-62 | With a chunk of 0x1000 characters, which takes in the whole stream at once, the same three lines come back. |
| `StreamScenarios.EmptyLinesScanned` | tests/test_parser.py:48-61 | The chunked scanner with the default chunk size gives the lines of `test_empty_lines` back, stripped. |
| `StreamScenarios.EmptyStream` | tests/test_parser.py:28-31 | The chunked scanner yields nothing from an empty stream and ends normally. |
| `StreamScenarios.UnclosedStream` | tests/test_parser_stream.py:80-84 | The chunked scanner on `foo "bar` yields nothing and raises the unclosed-string error. |
| `FrameScenarios.LongLineMatches` | src/dbcparser/parser.py:100 | `BO_ 2566903475 ConverterInputOutput: 8 DCDC` matches, with address `2566903475`, name `ConverterInputOutput`, length code `8` and transmitter `DCDC`. |
| `FrameScenarios.ShortLineMatches` | src/dbcparser/parser.py:101 | `BO_ 1258 PDORx4_Inv1: 8 INV_1` matches, with address `1258`, name `PDORx4_Inv1`, length code `8` and transmitter `INV_1`. |
| `FrameScenarios.VectorLineMatches` | src/dbcparser/parser.py:102 | `BO_ 263 Batt107: 4 Vector__XXX` matches, with address `263`, name `Batt107`, length code `4` and transmitter `Vector__XXX`. |
| `FrameScenarios.NewlineLineMatches` | src/dbcparser/parser.py:102 | The same line with the newline the tokenizer leaves on it matches with the same captures, the newline falling into the trailing whitespace. |
| `FrameScenarios.WideLineMatches` | tests/test_parser_lines.py:51-60 | A frame line with two spaces wherever whitespace may appear matches, with the same four captures. |
| `FrameScenarios.TightLineMatches` | tests/test_parser_lines.py:62-71 | A frame line with no whitespace around the colon matches, with the same four captures. |

## Left out

- Real stream I/O is left out. `read`, `tell` and `seek` on a file object become an in-memory text, a cursor and `Read`. Text decoding and newline translation by the file object are not modelled.
- The rewind `seek(tell() - chunk_excess)` at src/dbcparser/parser.py:78 is modelled with the cursor counted in characters. That holds for `io.StringIO`, which the tests use. For a text file, `tell()` returns an opaque position that need not count characters, so with multi-byte characters the arithmetic would be wrong there; the model does not cover that case.
- The generator protocol is not modelled. The caller could interleave other reads of the same stream between yields. The model runs the tokenizer to completion and records the cursor at each yield instead.
- `DBCParser`, `StreamParser.parse` and the nested parser design are not modelled. They are stubs or comments without code.
- `SignalParser.REGEX` and `SignalCommentParser.REGEX` are not modelled. Nothing in the code applies them.
- `src/dbcparser/containers.py` and `src/dbcparser/signal.py` are attribute holders and are not part of this model.
- The `Frame`, `Signal` and other line classes used by tests/test_parser_lines.py are not part of this model. Their field conversion is left out too, such as integer parsing and the `Vector__XXX` transmitter becoming `None`. Only the frame lines those tests use appear, as inputs to the grammar.
- `tests/test_parser_stream.py` calls `line_iter`, a differently named revision of the same tokenizer. Its cases are read as cases of `iter`.
- FrameLine.IsDigit: `\d` is ASCII digits only. Python's `\d` on text also accepts other Unicode decimal digits.
- FrameLine.MatchComplete: there is no model of Python's regex engine. The claim that its backtracking settles on the greedy address is argued from how `\d+` backtracks, not proved. Given that claim, the proved contract makes the engine's captures and the recognizer's captures the same.
- The regex is anchored with `$`, which also matches before a final newline. Trailing whitespace, a newline included, already belongs to the final whitespace run, so this changes nothing for acceptance and is not modelled separately.
