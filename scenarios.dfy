/** What the model of parse yields on concrete documents. */
module Scenarios {
  import opened JavaText
  import opened Preflight
  import opened OntologyParser

  /** A line that does not even hold the keyword's first character at any
      place the keyword would fit does not contain the keyword. */
  lemma {:induction false} MissingFirstCharacter(s: string, keyword: string)
    requires keyword != []
    requires forall i :: 0 <= i <= |s| - |keyword| ==> s[i] != keyword[0]
    ensures !Contains(s, keyword)
  {
    forall i | 0 <= i && i + |keyword| <= |s|
      ensures !OccursAt(s, keyword, i)
    {
      assert s[i..i + |keyword|][0] == s[i];
    }
  }

  /** The line "Class: :A" is significant, holds neither keyword and is
      its own trimmed text. */
  lemma ClassLine()
    ensures IsSignificant("Class: :A") && !StartsWithMagicNumber("Class: :A")
    ensures Trim("Class: :A") == "Class: :A" && LeadingCount("Class: :A") == 0
  {
    MissingFirstCharacter("Class: :A", PrefixKeyword);
    MissingFirstCharacter("Class: :A", OntologyKeyword);
  }

  /** A document whose only line is a Class frame, with no Prefix or
      Ontology declaration, fails at line 1, column 1, with the line as the
      offending text, whatever the grammar engine would do. */
  lemma ClassFrameFirstIsRejected(ontology: Ontology, provider: Option<ShortFormProvider>,
                                  config: LoaderConfiguration,
                                  engine: (Setup, Ontology) -> GrammarOutcome)
    ensures ParseSpec(Opened(Document(["Class: :A"], EndOfStream)), ontology, provider, config, engine) ==
      Failed(PreflightError("Class: :A", 1, 1))
  {
    ClassLine();
    KeywordMissingFailsAtFirstSignificantLine(Document(["Class: :A"], EndOfStream), 0, ontology, provider, config, engine);
  }

  /** The Ontology declaration is significant and passes the keyword test. */
  lemma OntologyDeclarationLine()
    ensures IsSignificant("Ontology: <http://ex.org/onto>")
    ensures StartsWithMagicNumber("Ontology: <http://ex.org/onto>")
  {
    assert OccursAt("Ontology: <http://ex.org/onto>", OntologyKeyword, 0);
  }

  /** In a comment line, a blank line and an Ontology declaration, the
      declaration is the first significant line and passes the test. */
  lemma CommentedHead()
    ensures var head := ["# comment", "", "Ontology: <http://ex.org/onto>"];
      FirstSignificant(head) == Some(2) && StartsWithMagicNumber(head[2])
  {
    var head := ["# comment", "", "Ontology: <http://ex.org/onto>"];
    OntologyDeclarationLine();
    assert !IsSignificant("# comment") && !IsSignificant("");
    forall j | 0 <= j < 2
      ensures !IsSignificant(head[j])
    {
      if j == 0 {
        assert head[j] == "# comment";
      } else {
        assert head[j] == "";
      }
    }
    assert head[2] == "Ontology: <http://ex.org/onto>";
    FirstSignificantAt(head, 2);
  }

  /** A comment and a blank line before the Ontology declaration do not trip
      the scan: the engine receives every line, each followed by '\n'. */
  lemma CommentsBeforeOntologyPass(ontology: Ontology, provider: Option<ShortFormProvider>,
                                   config: LoaderConfiguration,
                                   engine: (Setup, Ontology) -> GrammarOutcome)
    ensures var lines := ["# comment", "", "Ontology: <http://ex.org/onto>", "Class: :A", "SubClassOf: :B"];
      ParseSpec(Opened(Document(lines, EndOfStream)), ontology, provider, config, engine) ==
      match engine(Setup(Join(lines), Some(ontology), provider, Some(config)), ontology)
      case Parsed(format) => Success(format)
      case GrammarError(message, line, column) => Failed(ParserError(message, line, column))
  {
    var head := ["# comment", "", "Ontology: <http://ex.org/onto>"];
    var tail := ["Class: :A", "SubClassOf: :B"];
    CommentedHead();
    AcceptedDocumentReachesEngine(head, tail, ontology, provider, config, engine);
    assert head + tail == ["# comment", "", "Ontology: <http://ex.org/onto>", "Class: :A", "SubClassOf: :B"];
  }

  /** The keyword may sit anywhere in the first significant line: an
      indented line with text before "Ontology:" is accepted. */
  lemma KeywordAnywhereInLinePasses()
    ensures Scan(Document(["  Class: :A  Ontology: <o>"], EndOfStream)) == Scanned("  Class: :A  Ontology: <o>\n")
  {
    var line := "  Class: :A  Ontology: <o>";
    assert OccursAt(line, OntologyKeyword, 13);
    assert StartsWithMagicNumber(line);
    assert Join([line]) == line + "\n" + Join([]);
  }
}
