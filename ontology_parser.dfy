/** InfinityOWLSyntaxOntologyParser.parse(source, ontology, default_onto,
    shortFormProvider, config): run the preflight scan, configure a
    Manchester-syntax grammar parser with the buffered text, and map every
    failure to a positioned diagnostic. The grammar engine itself is not
    part of this model: it is the parameter `engine`, which receives the
    configured parser state and the target ontology. */
module OntologyParser {
  import opened JavaText
  import opened Preflight

  /** Handles of objects owned by the caller; only their identity matters. */
  datatype Ontology = Ontology(id: nat)
  datatype ShortFormProvider = ShortFormProvider(id: nat)
  datatype LoaderConfiguration = LoaderConfiguration(id: nat)

  /** The document source: either it cannot be opened as a reader
      (OWLOntologyInputSourceException), or it yields lines until the end
      of stream or an IOException. */
  datatype Source = Unopenable(message: string) | Opened(document: Document)

  /** What the grammar parser has been told through its setters. */
  datatype Setup = Setup(
    text: string,
    defaultOntology: Option<Ontology>,
    entityChecker: Option<ShortFormProvider>,
    configuration: Option<LoaderConfiguration>)

  /** What parseOntology does: returns a document format, or throws a
      ParserException at a line and column. Other exceptions it might throw
      pass through parse uncaught and are not modelled. */
  datatype GrammarOutcome = Parsed(format: string) | GrammarError(message: string, line: int, column: int)

  /** The exception parse ends with. */
  datatype Failure =
    | PreflightError(trimmed: string, line: int, column: int)
    | ParserError(message: string, line: int, column: int)
    | InputSourceError(message: string)
    | IOError(message: string)

  datatype ParseResult = Success(format: string) | Failed(failure: Failure)

  /** The line and column carried by the exception parse throws: a parser
      failure keeps its own position, while failures to open or read the
      source carry no position and are reported at line 1, column 1. */
  function Position(f: Failure): (int, int) {
    match f
    case PreflightError(_, line, column) => (line, column)
    case ParserError(_, line, column) => (line, column)
    case InputSourceError(_) => (1, 1)
    case IOError(_) => (1, 1)
  }

  /** The state of a ManchesterOWLSyntaxParserImpl that parse sets through
      its setters, each taken to be a plain field write. */
  class ManchesterParser {
    var stringToParse: string
    var defaultOntology: Option<Ontology>
    var entityChecker: Option<ShortFormProvider>
    var configuration: Option<LoaderConfiguration>

    /** The parser's state, as the grammar engine sees it. */
    function Snapshot(): Setup
      reads this
    {
      Setup(stringToParse, defaultOntology, entityChecker, configuration)
    }

    /** A freshly made parser: nothing has been set through the setters. */
    constructor ()
      ensures Snapshot() == Setup([], None, None, None)
    {
      stringToParse := [];
      defaultOntology := None;
      entityChecker := None;
      configuration := None;
    }

    method SetOntologyLoaderConfiguration(config: LoaderConfiguration)
      modifies this
      ensures Snapshot() == old(Snapshot()).(configuration := Some(config))
    {
      configuration := Some(config);
    }

    method SetStringToParse(s: string)
      modifies this
      ensures Snapshot() == old(Snapshot()).(text := s)
    {
      stringToParse := s;
    }

    method SetDefaultOntology(o: Ontology)
      modifies this
      ensures Snapshot() == old(Snapshot()).(defaultOntology := Some(o))
    {
      defaultOntology := Some(o);
    }

    /** Installs a ShortFormEntityChecker over the given provider. */
    method SetOWLEntityChecker(provider: ShortFormProvider)
      modifies this
      ensures Snapshot() == old(Snapshot()).(entityChecker := Some(provider))
    {
      entityChecker := Some(provider);
    }
  }

  /** The setter sequence of parse. Whatever default ontology the caller
      passes, the parser ends up with the primary ontology as its default;
      an entity checker is installed only when a short-form provider is
      given. */
  method Configure(parser: ManchesterParser, text: string, ontology: Ontology,
                   defaultOnto: Option<Ontology>, provider: Option<ShortFormProvider>,
                   config: LoaderConfiguration)
    modifies parser
    ensures parser.Snapshot() == Setup(
      text, Some(ontology),
      if provider.Some? then provider else old(parser.entityChecker),
      Some(config))
  {
    parser.SetOntologyLoaderConfiguration(config);
    parser.SetStringToParse(text);
    if defaultOnto.Some? {
      parser.SetDefaultOntology(defaultOnto.value);
    }
    parser.SetDefaultOntology(ontology);
    if provider.Some? {
      parser.SetOWLEntityChecker(provider.value);
    }
  }

  /** Reference definition of parse. The caller's default ontology is not
      an argument: with setters that only record their argument, the later
      setDefaultOntology(ontology) overwrites it before the engine runs. */
  function ParseSpec(source: Source, ontology: Ontology, provider: Option<ShortFormProvider>,
                     config: LoaderConfiguration, engine: (Setup, Ontology) -> GrammarOutcome): ParseResult
  {
    match source
    case Unopenable(message) => Failed(InputSourceError(message))
    case Opened(doc) =>
      match Scan(doc)
      case Rejected(trimmed, line, column) => Failed(PreflightError(trimmed, line, column))
      case ReadFailed(message) => Failed(IOError(message))
      case Scanned(buffer) =>
        match engine(Setup(buffer, Some(ontology), provider, Some(config)), ontology)
        case Parsed(format) => Success(format)
        case GrammarError(message, line, column) => Failed(ParserError(message, line, column))
  }

  /** parse: scan, configure a fresh parser, run the grammar engine on the
      primary ontology, and turn exceptions into positioned failures. */
  method Parse(source: Source, ontology: Ontology, defaultOnto: Option<Ontology>,
               provider: Option<ShortFormProvider>, config: LoaderConfiguration,
               engine: (Setup, Ontology) -> GrammarOutcome)
    returns (r: ParseResult)
    ensures r == ParseSpec(source, ontology, provider, config, engine)
  {
    match source {
      case Unopenable(message) =>
        return Failed(InputSourceError(message));
      case Opened(doc) =>
        var scan := ScanLines(doc);
        match scan {
          case Rejected(trimmed, line, column) =>
            return Failed(PreflightError(trimmed, line, column));
          case ReadFailed(message) =>
            return Failed(IOError(message));
          case Scanned(buffer) =>
            var parser := new ManchesterParser();
            Configure(parser, buffer, ontology, defaultOnto, provider, config);
            var outcome := engine(parser.Snapshot(), ontology);
            match outcome {
              case Parsed(format) =>
                return Success(format);
              case GrammarError(message, line, column) =>
                return Failed(ParserError(message, line, column));
            }
        }
    }
  }

  /** A failure to open or to read the source is reported at line 1,
      column 1, and the lines buffered before it are dropped: the grammar
      engine is never consulted, so the outcome is the same whatever the
      engine would have done. Even a read failure cannot mask an earlier
      keyword rejection, which is why the scan must not reject. */
  lemma {:induction false} SourceFailureAtOrigin(source: Source, ontology: Ontology,
                                                 provider: Option<ShortFormProvider>, config: LoaderConfiguration,
                                                 engine: (Setup, Ontology) -> GrammarOutcome,
                                                 other: (Setup, Ontology) -> GrammarOutcome)
    requires source.Unopenable? || (source.document.ending.ReadError? && !Scan(source.document).Rejected?)
    ensures ParseSpec(source, ontology, provider, config, engine).Failed?
    ensures Position(ParseSpec(source, ontology, provider, config, engine).failure) == (1, 1)
    ensures ParseSpec(source, ontology, provider, config, engine) == ParseSpec(source, ontology, provider, config, other)
  {
  }

  /** When the first significant line lacks both keywords, parse fails at
      that line, at the column of its first kept character, whatever
      follows (even a read failure) and whatever the engine would do. */
  lemma {:induction false} KeywordMissingFailsAtFirstSignificantLine(doc: Document, k: nat, ontology: Ontology,
                                                                     provider: Option<ShortFormProvider>,
                                                                     config: LoaderConfiguration,
                                                                     engine: (Setup, Ontology) -> GrammarOutcome)
    requires k < |doc.lines| && IsSignificant(doc.lines[k])
    requires forall j :: 0 <= j < k ==> !IsSignificant(doc.lines[j])
    requires !StartsWithMagicNumber(doc.lines[k])
    ensures ParseSpec(Opened(doc), ontology, provider, config, engine) ==
      Failed(PreflightError(Trim(doc.lines[k]), k + 1, LeadingCount(doc.lines[k]) + 1))
    ensures Position(ParseSpec(Opened(doc), ontology, provider, config, engine).failure) ==
      (k + 1, IndexOf(doc.lines[k], Trim(doc.lines[k])) + 1)
  {
    var line := doc.lines[k];
    FirstSignificantLineDecides(doc, k);
    assert Scan(doc) == Rejected(Trim(line), k + 1, LeadingCount(line) + 1);
    SignificantIffTrimmedTest(line);
    TrimmedTextIndex(line);
  }

  /** Once the first significant line names a keyword and the stream ends
      normally, the engine runs on the whole buffer, with the primary
      ontology both as its default and as the target, and parse reports
      exactly what the engine reports. */
  lemma {:induction false} AcceptedDocumentReachesEngine(head: seq<string>, tail: seq<string>, ontology: Ontology,
                                                         provider: Option<ShortFormProvider>,
                                                         config: LoaderConfiguration,
                                                         engine: (Setup, Ontology) -> GrammarOutcome)
    requires FirstSignificant(head).Some?
    requires StartsWithMagicNumber(head[FirstSignificant(head).value])
    ensures ParseSpec(Opened(Document(head + tail, EndOfStream)), ontology, provider, config, engine) ==
      match engine(Setup(Join(head + tail), Some(ontology), provider, Some(config)), ontology)
      case Parsed(format) => Success(format)
      case GrammarError(message, line, column) => Failed(ParserError(message, line, column))
  {
    LinesAfterMagicNumberUnchecked(head, tail, EndOfStream);
  }

  /** Where parse fails, for every input: at (1, 1) when the source cannot
      be opened or a read fails before any rejection, at the scan's line and
      column when the keyword test rejects, and at the engine's own line and
      column when the grammar engine throws. It succeeds only when the scan
      accepts, the stream ends normally and the engine returns a format. */
  lemma FailurePosition(source: Source, ontology: Ontology, provider: Option<ShortFormProvider>,
                        config: LoaderConfiguration, engine: (Setup, Ontology) -> GrammarOutcome)
    ensures var r := ParseSpec(source, ontology, provider, config, engine);
      source.Unopenable? ==> r.Failed? && Position(r.failure) == (1, 1)
    ensures var r := ParseSpec(source, ontology, provider, config, engine);
      source.Opened? && Scan(source.document).ReadFailed? ==> r.Failed? && Position(r.failure) == (1, 1)
    ensures var r := ParseSpec(source, ontology, provider, config, engine);
      source.Opened? && Scan(source.document).Rejected? ==>
        r.Failed? && Position(r.failure) == (Scan(source.document).line, Scan(source.document).column)
    ensures var r := ParseSpec(source, ontology, provider, config, engine);
      source.Opened? && Scan(source.document).Scanned? ==>
        var g := engine(Setup(Scan(source.document).buffer, Some(ontology), provider, Some(config)), ontology);
        (r.Success? <==> g.Parsed?) && (g.GrammarError? ==> r.Failed? && Position(r.failure) == (g.line, g.column))
  {
  }
}
