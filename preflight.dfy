/** The preflight scan at the start of
    InfinityOWLSyntaxOntologyParser.parse: every line read is copied, with
    a '\n', into a buffer; the first significant line (not blank once
    trimmed, not a '#' comment) must mention "Prefix:" or "Ontology:"
    somewhere, or the parse is rejected at that line and column. */
module Preflight {
  import opened JavaText
  import opened LineReader

  const PrefixKeyword: string := "Prefix:"
  const OntologyKeyword: string := "Ontology:"
  const CommentStart: string := "#"

  datatype Option<T> = None | Some(value: T)

  /** How the reader stopped: end of stream, or an IOException thrown by
      the readLine call after the last delivered line. */
  datatype Ending = EndOfStream | ReadError(message: string)

  /** What the reader yields: the lines readLine returned, in order, then
      how it stopped. */
  datatype Document = Document(lines: seq<string>, ending: Ending)

  /** Outcome of the scan: the buffer to hand to the grammar engine, the
      magic-number rejection (trimmed text, 1-based line and column), or
      the read failure that ended the scan. */
  datatype ScanOutcome =
    | Scanned(buffer: string)
    | Rejected(trimmed: string, line: nat, column: nat)
    | ReadFailed(message: string)

  /** The keyword test: a substring test anywhere in the line, not a
      prefix test, despite its name. */
  function StartsWithMagicNumber(line: string): (b: bool)
    ensures b <==> Contains(line, PrefixKeyword) || Contains(line, OntologyKeyword)
  {
    IndexOf(line, PrefixKeyword) != -1 || IndexOf(line, OntologyKeyword) != -1
  }

  /** A line the scan checks: it has a character trim keeps, and the first
      such character does not open a comment. */
  predicate IsSignificant(line: string) {
    var n := LeadingCount(line);
    n < |line| && line[n] != '#'
  }

  /** IsSignificant is the source's test: the trimmed line is non-empty and
      does not start with the comment marker. */
  lemma {:induction false} SignificantIffTrimmedTest(line: string)
    ensures IsSignificant(line) <==> Trim(line) != [] && !StartsWith(Trim(line), CommentStart)
  {
    TrimSpec(line);
    LeadingCountSpec(line);
    var t := Trim(line);
    if t != [] {
      assert t[0] == line[LeadingCount(line)];
      assert StartsWith(t, CommentStart) <==> t[0] == '#' by {
        assert t[..1] == [t[0]];
      }
    }
  }

  /** Index of the first significant line, if any. */
  function FirstSignificant(lines: seq<string>): (r: Option<nat>)
    ensures r.None? <==> forall k :: 0 <= k < |lines| ==> !IsSignificant(lines[k])
    ensures r.Some? ==>
      r.value < |lines| && IsSignificant(lines[r.value]) &&
      forall k :: 0 <= k < r.value ==> !IsSignificant(lines[k])
  {
    if lines == [] then None
    else if IsSignificant(lines[0]) then Some(0)
    else match FirstSignificant(lines[1..])
      case None => None
      case Some(k) => Some(k + 1)
  }

  /** The buffer the scan builds: each line followed by '\n'. */
  function Join(lines: seq<string>): string {
    if lines == [] then [] else lines[0] + "\n" + Join(lines[1..])
  }

  /** Sum of the lengths of the lines. */
  function TotalLength(lines: seq<string>): nat {
    if lines == [] then 0 else |lines[0]| + TotalLength(lines[1..])
  }

  /** Reference definition of the scan, stated on the whole document. */
  function Scan(doc: Document): ScanOutcome {
    var first := FirstSignificant(doc.lines);
    if first.Some? && !StartsWithMagicNumber(doc.lines[first.value]) then
      var line := doc.lines[first.value];
      Rejected(Trim(line), first.value + 1, LeadingCount(line) + 1)
    else if doc.ending.ReadError? then
      ReadFailed(doc.ending.message)
    else
      Scanned(Join(doc.lines))
  }

  /** The scanning loop of parse, line by line, with the buffer, the
      1-based line counter and the found flag of the source. */
  method ScanLines(doc: Document) returns (r: ScanOutcome)
    ensures r == Scan(doc)
  {
    var sb: string := [];
    var lineCount := 1;
    var foundMagicNumber := false;
    var i := 0;
    while i < |doc.lines|
      invariant 0 <= i <= |doc.lines|
      invariant lineCount == i + 1
      invariant sb == Join(doc.lines[..i])
      invariant !foundMagicNumber ==> forall k :: 0 <= k < i ==> !IsSignificant(doc.lines[k])
      invariant foundMagicNumber ==> !Scan(doc).Rejected?
    {
      var line := doc.lines[i];
      JoinSnoc(doc.lines[..i], line);
      assert doc.lines[..i + 1] == doc.lines[..i] + [line];
      sb := sb + line + "\n";
      if !foundMagicNumber {
        var trimmedLine := Trim(line);
        SignificantIffTrimmedTest(line);
        if trimmedLine != [] && !StartsWith(trimmedLine, CommentStart) {
          FirstSignificantLineDecides(doc, i);
          if StartsWithMagicNumber(line) {
            foundMagicNumber := true;
          } else {
            var startCol := IndexOf(line, trimmedLine) + 1;
            TrimmedTextIndex(line);
            return Rejected(trimmedLine, lineCount, startCol);
          }
        }
      }
      lineCount := lineCount + 1;
      i := i + 1;
    }
    assert doc.lines[..i] == doc.lines;
    if doc.ending.ReadError? {
      return ReadFailed(doc.ending.message);
    }
    return Scanned(sb);
  }

  /** A significant line preceded only by insignificant ones is the first
      significant line. */
  lemma {:induction false} FirstSignificantAt(lines: seq<string>, k: nat)
    requires k < |lines| && IsSignificant(lines[k])
    requires forall j :: 0 <= j < k ==> !IsSignificant(lines[j])
    ensures FirstSignificant(lines) == Some(k)
  {
    var r := FirstSignificant(lines);
    assert r.Some?;
  }

  /** The buffer of a concatenation is the concatenation of the buffers. */
  lemma {:induction false} JoinAppend(a: seq<string>, b: seq<string>)
    ensures Join(a + b) == Join(a) + Join(b)
  {
    if a == [] {
      assert a + b == b;
    } else {
      assert (a + b)[1..] == a[1..] + b;
      JoinAppend(a[1..], b);
    }
  }

  /** Appending one line appends that line and a '\n' to the buffer. */
  lemma {:induction false} JoinSnoc(lines: seq<string>, line: string)
    ensures Join(lines + [line]) == Join(lines) + line + "\n"
  {
    JoinAppend(lines, [line]);
    assert Join([line]) == line + "\n" + Join([]);
  }

  /** The buffer holds every character of every line plus one '\n' per
      line. */
  lemma {:induction false} JoinLength(lines: seq<string>)
    ensures |Join(lines)| == TotalLength(lines) + |lines|
  {
    if lines != [] {
      JoinLength(lines[1..]);
    }
  }

  /** Reading the buffer back line by line gives the lines that were
      scanned, as long as none of them holds a line terminator (which is
      always the case for lines that readLine returned). */
  lemma {:induction false} ReadLinesOfJoin(lines: seq<string>)
    requires forall k :: 0 <= k < |lines| ==> NoLineBreak(lines[k])
    ensures ReadLines(Join(lines)) == lines
  {
    if lines != [] {
      ReadLinesCons(lines[0], Join(lines[1..]));
      ReadLinesOfJoin(lines[1..]);
    }
  }

  /** For a text whose only line terminator is '\n', the buffer is the
      text itself, with a '\n' added when the last line lacked one. */
  lemma {:induction false} JoinOfReadLines(text: string)
    requires forall i :: 0 <= i < |text| ==> text[i] != '\r'
    ensures Join(ReadLines(text)) == WithFinalNewline(text)
    decreases |text|
  {
    if text != [] {
      var n := LineEnd(text);
      if n == |text| {
        LastLineWithoutBreak(text);
      } else {
        JoinOfReadLines(text[n + 1..]);
        LineThenBreak(text);
      }
    }
  }

  /** One '\n'-terminated line, then the rest: the buffer is that line, its
      '\n', and the buffer of the rest. */
  lemma {:induction false} LineThenBreak(text: string)
    requires LineEnd(text) < |text| && text[LineEnd(text)] == '\n'
    requires Join(ReadLines(text[LineEnd(text) + 1..])) == WithFinalNewline(text[LineEnd(text) + 1..])
    ensures Join(ReadLines(text)) == WithFinalNewline(text)
  {
    var n := LineEnd(text);
    var rest := text[n + 1..];
    assert NextLineStart(text, n) == n + 1;
    assert ReadLines(text) == [text[..n]] + ReadLines(rest);
    assert Join([text[..n]] + ReadLines(rest)) == text[..n] + "\n" + Join(ReadLines(rest));
    TextAroundBreak(text, n);
  }

  /** A non-empty text without any terminator is read as one line, and
      buffered with a '\n' added. */
  lemma {:induction false} LastLineWithoutBreak(text: string)
    requires text != [] && LineEnd(text) == |text|
    ensures Join(ReadLines(text)) == WithFinalNewline(text)
  {
    assert text[..|text|] == text;
    assert ReadLines(text) == [text] + ReadLines([]);
    assert Join([text]) == text + "\n" + Join([]);
  }

  /** text, with a '\n' appended unless it is empty or already ends with one. */
  function WithFinalNewline(text: string): string {
    if text == [] || text[|text| - 1] == '\n' then text else text + "\n"
  }

  /** Splitting a text at a '\n' commutes with adding a final newline. */
  lemma {:induction false} TextAroundBreak(text: string, n: nat)
    requires n < |text| && text[n] == '\n'
    ensures WithFinalNewline(text) == text[..n] + "\n" + WithFinalNewline(text[n + 1..])
  {
    var rest := text[n + 1..];
    assert text == text[..n] + "\n" + rest;
    if rest != [] {
      assert text[|text| - 1] == rest[|rest| - 1];
    }
  }

  /** A rejection always points at the first significant line, which lacks
      both keywords: the line is its 1-based index, the text is the trimmed
      line, and the column, the place where the trimmed text starts plus
      one, lies within the line. Blank and comment lines are never
      rejected. */
  lemma {:induction false} RejectionPinpointsFirstSignificantLine(doc: Document)
    requires Scan(doc).Rejected?
    ensures var k := Scan(doc).line - 1;
      0 <= k < |doc.lines| &&
      IsSignificant(doc.lines[k]) &&
      !StartsWithMagicNumber(doc.lines[k]) &&
      (forall j :: 0 <= j < k ==> !IsSignificant(doc.lines[j])) &&
      Scan(doc).trimmed == Trim(doc.lines[k]) &&
      Scan(doc).column == IndexOf(doc.lines[k], Trim(doc.lines[k])) + 1 &&
      1 <= Scan(doc).column <= |doc.lines[k]|
  {
    var k := FirstSignificant(doc.lines).value;
    SignificantIffTrimmedTest(doc.lines[k]);
    TrimmedTextIndex(doc.lines[k]);
  }

  /** The first significant line alone decides whether the scan rejects:
      it does exactly when that line contains neither keyword, and then at
      that line, at the column of its first kept character. */
  lemma {:induction false} FirstSignificantLineDecides(doc: Document, k: nat)
    requires k < |doc.lines| && IsSignificant(doc.lines[k])
    requires forall j :: 0 <= j < k ==> !IsSignificant(doc.lines[j])
    ensures Scan(doc).Rejected? <==> !StartsWithMagicNumber(doc.lines[k])
    ensures !StartsWithMagicNumber(doc.lines[k]) ==>
      Scan(doc) == Rejected(Trim(doc.lines[k]), k + 1, LeadingCount(doc.lines[k]) + 1)
  {
    FirstSignificantAt(doc.lines, k);
  }

  /** Once a line has passed the keyword test, nothing that follows it is
      checked: any tail of lines is accepted and buffered. */
  lemma {:induction false} LinesAfterMagicNumberUnchecked(head: seq<string>, tail: seq<string>, ending: Ending)
    requires FirstSignificant(head).Some?
    requires StartsWithMagicNumber(head[FirstSignificant(head).value])
    ensures Scan(Document(head + tail, ending)) ==
      if ending.ReadError? then ReadFailed(ending.message) else Scanned(Join(head + tail))
  {
    var k := FirstSignificant(head).value;
    var lines := head + tail;
    assert lines[k] == head[k];
    assert forall j :: 0 <= j < k ==> lines[j] == head[j];
    FirstSignificantAt(lines, k);
  }

  /** Putting blank and comment lines in front moves the first
      significant line down by their number. */
  lemma {:induction false} FirstSignificantAfterInsignificant(blank: seq<string>, lines: seq<string>)
    requires forall j :: 0 <= j < |blank| ==> !IsSignificant(blank[j])
    ensures FirstSignificant(blank + lines) ==
      match FirstSignificant(lines)
      case None => None
      case Some(k) => Some(|blank| + k)
  {
    var all := blank + lines;
    var first := FirstSignificant(lines);
    if first.Some? {
      assert all[|blank| + first.value] == lines[first.value];
      assert forall j :: 0 <= j < |blank| ==> all[j] == blank[j];
      assert forall j :: |blank| <= j < |blank| + first.value ==> all[j] == lines[j - |blank|];
      FirstSignificantAt(all, |blank| + first.value);
    } else {
      forall j | 0 <= j < |all|
        ensures !IsSignificant(all[j])
      {
        if j < |blank| {
          assert all[j] == blank[j];
        } else {
          assert all[j] == lines[j - |blank|];
        }
      }
    }
  }

  /** Blank and comment lines in front of a document never change the
      verdict: a rejection moves down by the number of lines added, and an
      accepted buffer gains those lines in front. */
  lemma {:induction false} LeadingInsignificantLinesShift(blank: seq<string>, doc: Document)
    requires forall j :: 0 <= j < |blank| ==> !IsSignificant(blank[j])
    ensures Scan(Document(blank + doc.lines, doc.ending)) ==
      match Scan(doc)
      case Rejected(t, line, column) => Rejected(t, line + |blank|, column)
      case ReadFailed(m) => ReadFailed(m)
      case Scanned(buffer) => Scanned(Join(blank) + buffer)
  {
    var shifted := Document(blank + doc.lines, doc.ending);
    FirstSignificantAfterInsignificant(blank, doc.lines);
    var first := FirstSignificant(doc.lines);
    if first.Some? && !StartsWithMagicNumber(doc.lines[first.value]) {
      var line := doc.lines[first.value];
      assert shifted.lines[|blank| + first.value] == line;
      assert Scan(shifted) == Rejected(Trim(line), |blank| + first.value + 1, LeadingCount(line) + 1);
    } else {
      assert first.Some? ==> shifted.lines[|blank| + first.value] == doc.lines[first.value];
      JoinAppend(blank, doc.lines);
    }
  }

  /** On success the buffer is every line followed by '\n', in order: its
      length is the total length of the lines plus one per line, and
      reading it back line by line gives the lines again. */
  lemma {:induction false} ScannedBufferHoldsAllLines(doc: Document)
    requires forall k :: 0 <= k < |doc.lines| ==> NoLineBreak(doc.lines[k])
    requires Scan(doc).Scanned?
    ensures Scan(doc).buffer == Join(doc.lines)
    ensures |Scan(doc).buffer| == TotalLength(doc.lines) + |doc.lines|
    ensures ReadLines(Scan(doc).buffer) == doc.lines
  {
    JoinLength(doc.lines);
    ReadLinesOfJoin(doc.lines);
  }
}
