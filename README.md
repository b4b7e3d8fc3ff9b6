# Manchester-syntax parser wrapper: preflight scan and parser set-up

This project models `InfinityOWLSyntaxOntologyParser`, a wrapper around the
OWL API's Manchester OWL Syntax parser, and proves properties of the model.
The wrapper's `parse(source, ontology, default_onto, shortFormProvider, config)`
does four things:

1. It reads the document line by line. Each line and a `'\n'` go into a buffer.
2. It checks the first significant line. A significant line is not blank
   after `String.trim` and does not start with `#`. That line must contain
   `Prefix:` or `Ontology:` somewhere. Otherwise parsing fails at that line
   and column.
3. It configures a grammar parser with the buffer and the loader
   configuration. The parser's default ontology always ends up as the
   primary ontology. A short-form entity checker is installed when a
   provider is given.
4. It runs the grammar engine on the primary ontology. Three exception
   types become positioned diagnostics: `ParserException` keeps its line
   and column, and `OWLOntologyInputSourceException` and `IOException` are
   reported at line 1, column 1.

Modules:

- `JavaText` (`java_text.dfy`): `String.trim`, `indexOf` and `startsWith`.
- `LineReader` (`line_reader.dfy`): how `BufferedReader.readLine` splits text
  into lines.
- `Preflight` (`preflight.dfy`): the scanning loop `ScanLines` and its
  reference definition `Scan`, with the lemmas about them.
- `OntologyParser` (`ontology_parser.dfy`): the parser state as a class with
  its setters, `Configure`, `Parse` with its reference definition
  `ParseSpec`, and error positions.
- `Scenarios` (`scenarios.dfy`): concrete documents.

The grammar engine (`ManchesterOWLSyntaxParserImpl.parseOntology`) is not
modelled. It is the parameter `engine` of `Parse`. The engine receives the
parser state as configured (`Setup`) and the target ontology, and returns a
format or a `ParserException` position. `ParseSpec` takes no default-ontology
argument. So `Parse`'s postcondition shows that `default_onto` cannot affect
the outcome, provided the library's setters only record their argument (see
"## Left out").

Points where the code does something other than its names and comments
suggest, which the model follows:

- The method is named `startsWithMagicNumber`, and the comment at lines 77-80
  says the trimmed line must start with the magic number. The code tests for
  `Prefix:` or `Ontology:` as a substring anywhere in the untrimmed line.
- The column is `line.indexOf(trimmedLine) + 1`. It is proved to equal
  the number of leading characters with code at most U+0020, plus one.
- Every character with code at most U+0020 counts as whitespace here, not
  just blanks. This is what `String.trim` strips.

## Model

| member | source | states |
|---|---|---|
| `JavaText.TrimSpec` | src/main/java/tw/com/kyle/infinity/InfinityOWLSyntaxOntologyParser.java:75 | `trim` returns the slice after the leading run of characters with code at most U+0020. The slice starts and ends with a kept character and is followed only by trimmed characters. It is empty exactly when the line has only such characters. |
| `JavaText.IndexOf` | src/main/java/tw/com/kyle/infinity/InfinityOWLSyntaxOntologyParser.java:46-48 | `indexOf` returns -1 exactly when the text does not occur. Otherwise it returns an index where the text occurs, and no earlier index has an occurrence. |
| `JavaText.TrimmedTextIndex` | src/main/java/tw/com/kyle/infinity/InfinityOWLSyntaxOntologyParser.java:88 | When the trimmed line is non-empty, `line.indexOf(trimmedLine)` equals the number of leading trimmed characters. That number is a valid index, so the column is between 1 and the line's length. |
| `LineReader.ReadLines` | src/main/java/tw/com/kyle/infinity/InfinityOWLSyntaxOntologyParser.java:71 | The lines `readLine` returns never contain `'\n'` or `'\r'`. |
| `LineReader.ReadLinesCrLf` | src/main/java/tw/com/kyle/infinity/InfinityOWLSyntaxOntologyParser.java:71 | A line ended by `"\r\n"` is returned without the pair, and the next line starts after both characters. |
| `LineReader.ReadLinesCr` | src/main/java/tw/com/kyle/infinity/InfinityOWLSyntaxOntologyParser.java:71 | A line ended by a lone `'\r'` is returned without it, and the next line starts right after it. |
| `LineReader.ReadLinesLastLine` | src/main/java/tw/com/kyle/infinity/InfinityOWLSyntaxOntologyParser.java:71 | A last line with no terminator is still returned, as the only line. |
| `Preflight.StartsWithMagicNumber` | src/main/java/tw/com/kyle/infinity/InfinityOWLSyntaxOntologyParser.java:45-49 | True exactly when the line contains `Prefix:` or `Ontology:` as a substring anywhere. |
| `Preflight.SignificantIffTrimmedTest` | src/main/java/tw/com/kyle/infinity/InfinityOWLSyntaxOntologyParser.java:75-76 | A line is significant exactly when its trimmed text is non-empty and does not start with `#`. |
| `Preflight.FirstSignificant` | src/main/java/tw/com/kyle/infinity/InfinityOWLSyntaxOntologyParser.java:74-76 | Returns no index exactly when no line is significant. Otherwise it returns a significant line's index, and every earlier line is insignificant. |
| `Preflight.ScanLines` | src/main/java/tw/com/kyle/infinity/InfinityOWLSyntaxOntologyParser.java:66-97 | The loop, with its buffer, 1-based counter and found flag, yields exactly `Scan(doc)`. The flag never resets and implies the scan will not reject. |
| `Preflight.RejectionPinpointsFirstSignificantLine` | src/main/java/tw/com/kyle/infinity/InfinityOWLSyntaxOntologyParser.java:85-92 | A rejection is at the first significant line, which lacks both keywords. The reported line is that line's 1-based index. The text is the trimmed line. The column is `indexOf(trimmed) + 1`, between 1 and the line's length. Blank and comment lines are never rejected. |
| `Preflight.FirstSignificantLineDecides` | src/main/java/tw/com/kyle/infinity/InfinityOWLSyntaxOntologyParser.java:76-92 | The scan rejects exactly when the first significant line contains neither keyword. It then reports line k+1 and the column of the first kept character. |
| `Preflight.LinesAfterMagicNumberUnchecked` | src/main/java/tw/com/kyle/infinity/InfinityOWLSyntaxOntologyParser.java:74-84 | Once a line passes the keyword test, any following lines are accepted and buffered unchecked. |
| `Preflight.LeadingInsignificantLinesShift` | src/main/java/tw/com/kyle/infinity/InfinityOWLSyntaxOntologyParser.java:74-96 | Blank and comment lines put in front never change the verdict. A rejection moves down by their number, keeping text and column. A read failure stays the same. An accepted buffer gains those lines in front. |
| `Preflight.FirstSignificantAfterInsignificant` | src/main/java/tw/com/kyle/infinity/InfinityOWLSyntaxOntologyParser.java:74-76 | Blank and comment lines put in front move the first significant line down by their number. |
| `Preflight.ScannedBufferHoldsAllLines` | src/main/java/tw/com/kyle/infinity/InfinityOWLSyntaxOntologyParser.java:71-98 | On success the buffer is every line followed by `'\n'`, in order. Its length is the lines' total length plus their count. Splitting it into lines gives the lines back. |
| `Preflight.JoinLength` | src/main/java/tw/com/kyle/infinity/InfinityOWLSyntaxOntologyParser.java:72-73 | The buffer's length is the sum of the line lengths plus one per line. |
| `Preflight.JoinAppend` | src/main/java/tw/com/kyle/infinity/InfinityOWLSyntaxOntologyParser.java:72-73 | Appending lines appends their buffer: lines are buffered in order. |
| `Preflight.ReadLinesOfJoin` | src/main/java/tw/com/kyle/infinity/InfinityOWLSyntaxOntologyParser.java:71-73 | Round trip: reading the buffer line by line returns the original lines, if none contains a terminator. |
| `Preflight.JoinOfReadLines` | src/main/java/tw/com/kyle/infinity/InfinityOWLSyntaxOntologyParser.java:71-73 | For text whose only terminator is `'\n'`, the buffer equals the text. A `'\n'` is added when the text does not already end with one. |
| `OntologyParser.FailurePosition` | src/main/java/tw/com/kyle/infinity/InfinityOWLSyntaxOntologyParser.java:116-121 | For every input, a failed parse is at (1, 1) when the source cannot be opened or a read fails before any rejection. It is at the scan's line and column when the keyword test rejects. It is at the engine's own line and column when the engine throws a `ParserException`, the only engine failure modelled. Parse succeeds after an accepted scan exactly when the engine returns a format. |
| `OntologyParser.ManchesterParser.constructor` | src/main/java/tw/com/kyle/infinity/InfinityOWLSyntaxOntologyParser.java:99-101 | In a new parser, nothing has been set through the setters: no text, default ontology, entity checker or configuration. |
| `OntologyParser.ManchesterParser.SetOntologyLoaderConfiguration` | src/main/java/tw/com/kyle/infinity/InfinityOWLSyntaxOntologyParser.java:102 | Sets the configuration; nothing else changes. |
| `OntologyParser.ManchesterParser.SetStringToParse` | src/main/java/tw/com/kyle/infinity/InfinityOWLSyntaxOntologyParser.java:103 | Sets the text; nothing else changes. |
| `OntologyParser.ManchesterParser.SetDefaultOntology` | src/main/java/tw/com/kyle/infinity/InfinityOWLSyntaxOntologyParser.java:104-108 | Sets the default ontology; nothing else changes. |
| `OntologyParser.ManchesterParser.SetOWLEntityChecker` | src/main/java/tw/com/kyle/infinity/InfinityOWLSyntaxOntologyParser.java:109-112 | Installs a short-form entity checker over the provider; nothing else changes. |
| `OntologyParser.Configure` | src/main/java/tw/com/kyle/infinity/InfinityOWLSyntaxOntologyParser.java:102-112 | After the setters run, the parser holds the buffer, the configuration and the primary ontology as default, whatever `default_onto` was. The checker is the provider's if one was given; otherwise it is unchanged. |
| `OntologyParser.Parse` | src/main/java/tw/com/kyle/infinity/InfinityOWLSyntaxOntologyParser.java:62-122 | The result is `ParseSpec`, which has no `default_onto` argument. A source that cannot be opened fails at (1,1). A preflight rejection or read failure fails without running the engine. Otherwise the engine runs on the buffer with the primary ontology as default and target. |
| `OntologyParser.SourceFailureAtOrigin` | src/main/java/tw/com/kyle/infinity/InfinityOWLSyntaxOntologyParser.java:119-121 | Opening or reading failures, unless the scan rejected first, are reported at (1, 1). The result is the same for any engine, so the partial buffer is never used. |
| `OntologyParser.KeywordMissingFailsAtFirstSignificantLine` | src/main/java/tw/com/kyle/infinity/InfinityOWLSyntaxOntologyParser.java:85-92 | If the first significant line lacks both keywords, parse fails with the preflight error at (k+1, `indexOf(trimmed)+1`). This holds even if a read failure follows and for any engine. |
| `OntologyParser.AcceptedDocumentReachesEngine` | src/main/java/tw/com/kyle/infinity/InfinityOWLSyntaxOntologyParser.java:98-115 | If the first significant line has a keyword and the stream ends normally, parse returns whatever the engine returns. The engine gets the whole buffer, with the primary ontology as default and target. |
| `Scenarios.ClassFrameFirstIsRejected` | src/main/java/tw/com/kyle/infinity/InfinityOWLSyntaxOntologyParser.java:81-92 | The document `Class: :A` fails with the preflight error at line 1, column 1, for any engine. |
| `Scenarios.CommentsBeforeOntologyPass` | src/main/java/tw/com/kyle/infinity/InfinityOWLSyntaxOntologyParser.java:71-98 | A comment and a blank line before `Ontology: <http://ex.org/onto>` pass the scan. The engine receives all five lines, each followed by `'\n'`. |
| `Scenarios.KeywordAnywhereInLinePasses` | src/main/java/tw/com/kyle/infinity/InfinityOWLSyntaxOntologyParser.java:45-49 | A line that starts with `Class:` but contains `Ontology:` further on is accepted. |

## Left out

- The grammar engine is not modelled. This covers `ManchesterOWLSyntaxParserImpl`, `parseOntology`, `OntologyConfigurator`, the data factory, the lexer and entity resolution by `ShortFormEntityChecker`. Their code is an external library, so the engine is a function parameter, and only the installed provider is recorded.
- Opening the source is modelled only by its outcome. `DocumentSources.wrapInputAsReader` and character-set choice become `Unopenable(message)` or a `Document`. That document is the lines `readLine` returned, then end of stream or an `IOException`.
- Closing the reader in try-with-resources is not modelled. A failing `close()` after a normal parse would be another `IOException` reported at (1,1).
- `Preflight.ScanLines`: the line counter is an unbounded integer, so Java's `int` wrap-around after 2^31 - 1 lines is not modelled.
- The error message text built by `String.format` is not modelled, and neither is the exception cause chain. A preflight failure carries the trimmed text, line and column.
- `OntologyParser.FailurePosition`: grammar-engine positions are passed through as given, with no claim that they are 1-based. They come from code outside this model. The engine is assumed to fail only with a `ParserException`. Any other exception from `parseOntology`, or from the set-up before it (such as a missing ontology manager), passes through `parse` unchanged, may carry no position, and is not modelled.
- `getSupportedFormat` and the three-argument `parse` overload are not modelled. One returns a fresh format factory. The other calls the five-argument `parse` with no default ontology and no provider.
- Java strings are UTF-16 code units. Here a character is a Dafny `char`. Only comparisons with U+0020, `#`, `'\n'` and `'\r'` matter.
- `OntologyParser.ManchesterParser`: the library's setters are assumed to be plain field writes, where the last write wins and nothing else happens. Their code is not part of this model. Only under that assumption is `default_onto` overwritten before the engine runs. The constructor's `None` fields mean "nothing set through the setters", not whatever defaults the library installs.
