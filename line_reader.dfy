/** How java.io.BufferedReader.readLine cuts a character stream into lines:
    a line ends at '\n', at '\r', or at the pair "\r\n"; the terminator is
    not part of the line; a last line without a terminator is still
    returned; end of stream with nothing read ends the sequence. */
module LineReader {

  predicate IsLineBreak(c: char) {
    c == '\n' || c == '\r'
  }

  predicate NoLineBreak(s: string) {
    forall i :: 0 <= i < |s| ==> !IsLineBreak(s[i])
  }

  /** Index of the first line terminator in text, or |text| if none. */
  function LineEnd(text: string): (n: nat)
    ensures n <= |text|
    ensures forall i :: 0 <= i < n ==> !IsLineBreak(text[i])
    ensures n < |text| ==> IsLineBreak(text[n])
  {
    if text == [] || IsLineBreak(text[0]) then 0 else 1 + LineEnd(text[1..])
  }

  /** Where the next line starts, once the line ending at n (with n the
      index of its terminator, or |text|) has been consumed. */
  function NextLineStart(text: string, n: nat): (next: nat)
    requires n <= |text|
    ensures n < next <= |text| || next == n == |text|
  {
    if n == |text| then n
    else if text[n] == '\r' && n + 1 < |text| && text[n + 1] == '\n' then n + 2
    else n + 1
  }

  /** The lines successive readLine calls return for a stream holding
      exactly text and then ending normally. */
  function ReadLines(text: string): (lines: seq<string>)
    ensures forall k :: 0 <= k < |lines| ==> NoLineBreak(lines[k])
    decreases |text|
  {
    if text == [] then []
    else
      var n := LineEnd(text);
      [text[..n]] + ReadLines(text[NextLineStart(text, n)..])
  }

  /** A line without terminators, then '\n', is read back as that line,
      and reading goes on right after the '\n'. */
  lemma {:induction false} ReadLinesCons(l: string, rest: string)
    requires NoLineBreak(l)
    ensures ReadLines(l + "\n" + rest) == [l] + ReadLines(rest)
  {
    var text := l + "\n" + rest;
    assert forall i :: 0 <= i < |l| ==> text[i] == l[i];
    assert text[|l|] == '\n';
    var n := LineEnd(text);
    assert n == |l|;
    assert NextLineStart(text, n) == n + 1;
    assert text[..n] == l;
    assert text[n + 1..] == rest;
  }

  /** A line without terminators, then the pair "\r\n", is read back as
      that line, and both characters of the pair are consumed. */
  lemma {:induction false} ReadLinesCrLf(l: string, rest: string)
    requires NoLineBreak(l)
    ensures ReadLines(l + "\r\n" + rest) == [l] + ReadLines(rest)
  {
    var text := l + "\r\n" + rest;
    assert forall i :: 0 <= i < |l| ==> text[i] == l[i];
    assert text[|l|] == '\r' && text[|l| + 1] == '\n';
    assert LineEnd(text) == |l|;
    assert NextLineStart(text, |l|) == |l| + 2;
    assert text[..|l|] == l;
    assert text[|l| + 2..] == rest;
  }

  /** A line without terminators, then a lone '\r' not followed by '\n',
      is read back as that line, and reading goes on right after the '\r'. */
  lemma {:induction false} ReadLinesCr(l: string, rest: string)
    requires NoLineBreak(l)
    requires rest == [] || rest[0] != '\n'
    ensures ReadLines(l + "\r" + rest) == [l] + ReadLines(rest)
  {
    var text := l + "\r" + rest;
    assert forall i :: 0 <= i < |l| ==> text[i] == l[i];
    assert text[|l|] == '\r';
    assert LineEnd(text) == |l|;
    assert |l| + 1 < |text| ==> text[|l| + 1] == rest[0];
    assert NextLineStart(text, |l|) == |l| + 1;
    assert text[..|l|] == l;
    assert text[|l| + 1..] == rest;
  }

  /** A last line with no terminator is still returned, and nothing
      follows it. */
  lemma {:induction false} ReadLinesLastLine(l: string)
    requires l != [] && NoLineBreak(l)
    ensures ReadLines(l) == [l]
  {
    assert LineEnd(l) == |l|;
    assert l[..|l|] == l;
    assert l[|l|..] == [];
  }
}
