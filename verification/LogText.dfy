/** Reading a log file line by line with any line decoder, whole or torn
    (bufio.Scanner as backend/internal/accounting/spill.go uses it).
 */
module LogText {
  import opened Wrappers

  /** The first position of c, or the length. */
  function IndexOf(s: string, c: char): (i: nat)
    ensures i <= |s| && forall j | 0 <= j < i :: s[j] != c
    ensures i < |s| ==> s[i] == c
  {
    if s == "" || s[0] == c then 0 else IndexOf(s[1..], c) + 1
  }

  predicate Unbroken(s: string) {
    forall i | 0 <= i < |s| :: s[i] != '\n'
  }

  function DropCR(s: string): string {
    if s != "" && s[|s| - 1] == '\r' then s[..|s| - 1] else s
  }

  /** The lines a scanner yields: line ends and one carriage return before them are
      dropped, a last line without an end counts when there is anything in it. */
  function Lines(text: string): seq<string>
    decreases |text|
  {
    if text == "" then []
    else
      var n := IndexOf(text, '\n');
      [DropCR(text[..n])] + (if n == |text| then [] else Lines(text[n + 1..]))
  }

  /** The lines that decode, in order. */
  function Decoded<T>(decode: string -> Option<T>, lines: seq<string>): seq<T> {
    if lines == [] then [] else ToSeq(decode(lines[0])) + Decoded(decode, lines[1..])
  }

  function ReadAll<T>(decode: string -> Option<T>, text: string): seq<T> {
    Decoded(decode, Lines(text))
  }

  predicate Finished(text: string) {
    text == "" || text[|text| - 1] == '\n'
  }

  lemma IndexInPrefix(a: string, b: string)
    requires a != "" && Finished(a)
    ensures IndexOf(a, '\n') < |a| && IndexOf(a + b, '\n') == IndexOf(a, '\n')
  {
    var n := IndexOf(a, '\n');
    assert forall j | 0 <= j < n :: (a + b)[j] == a[j];
    assert (a + b)[n] == a[n];
  }

  lemma CutFirstLine(text: string)
    requires IndexOf(text, '\n') < |text|
    ensures var n := IndexOf(text, '\n'); Lines(text) == [DropCR(text[..n])] + Lines(text[n + 1..])
  {
    hide IndexOf, DropCR;
  }

  lemma SplitConcat(a: string, b: string, n: nat)
    requires n < |a|
    ensures (a + b)[..n] == a[..n] && (a + b)[n + 1..] == a[n + 1..] + b
  {
  }

  lemma {:induction false} LinesConcat(a: string, b: string)
    requires Finished(a)
    ensures Lines(a + b) == Lines(a) + Lines(b)
    decreases |a|
  {
    hide Lines, IndexOf, DropCR;
    if a == "" {
      NoLines();
      assert a + b == b;
    } else {
      IndexInPrefix(a, b);
      var n := IndexOf(a, '\n');
      var rest := a[n + 1..];
      assert Finished(rest);
      LinesConcat(rest, b);
      CutFirstLine(a);
      CutFirstLine(a + b);
      SplitConcat(a, b, n);
    }
  }

  lemma NoLines()
    ensures Lines("") == []
  {
  }

  lemma {:induction false} DecodedConcat<T>(decode: string -> Option<T>, a: seq<string>, b: seq<string>)
    ensures Decoded(decode, a + b) == Decoded(decode, a) + Decoded(decode, b)
  {
    if a == [] {
      assert a + b == b;
    } else {
      assert (a + b)[1..] == a[1..] + b;
      DecodedConcat(decode, a[1..], b);
    }
  }

  lemma ReadAllConcat<T>(decode: string -> Option<T>, a: string, b: string)
    requires Finished(a)
    ensures ReadAll(decode, a + b) == ReadAll(decode, a) + ReadAll(decode, b)
  {
    LinesConcat(a, b);
    DecodedConcat(decode, Lines(a), Lines(b));
  }

  lemma LinesOfOne(line: string)
    requires Unbroken(line)
    ensures Lines(line + "\n") == [DropCR(line)]
    ensures line != "" ==> Lines(line) == [DropCR(line)]
  {
    var s := line + "\n";
    assert s[|line|] == '\n';
    assert forall j | 0 <= j < |line| :: s[j] == line[j];
    assert IndexOf(s, '\n') == |line|;
    assert s[..|line|] == line && s[|line| + 1..] == "";
    if line != "" {
      assert IndexOf(line, '\n') == |line| && line[..|line|] == line;
    }
  }

  lemma OneLine<T>(decode: string -> Option<T>, line: string)
    requires Unbroken(line)
    ensures ReadAll(decode, line + "\n") == ToSeq(decode(DropCR(line)))
    ensures line != "" ==> ReadAll(decode, line) == ToSeq(decode(DropCR(line)))
  {
    LinesOfOne(line);
    var one := [DropCR(line)];
    assert one[1..] == [];
    assert Decoded(decode, one) == ToSeq(decode(DropCR(line)));
  }

  /** One turn of a scanner: the first line, and what is left. */
  function FirstLine(text: string): string {
    DropCR(text[..IndexOf(text, '\n')])
  }

  function AfterFirstLine(text: string): string {
    var n := IndexOf(text, '\n');
    if n == |text| then "" else text[n + 1..]
  }

  lemma ScanOne<T>(decode: string -> Option<T>, text: string)
    requires text != ""
    ensures Lines(text) == [FirstLine(text)] + Lines(AfterFirstLine(text))
    ensures ReadAll(decode, text) == ToSeq(decode(FirstLine(text))) + ReadAll(decode, AfterFirstLine(text))
    ensures |AfterFirstLine(text)| < |text|
  {
    assert Lines(text) == [FirstLine(text)] + Lines(AfterFirstLine(text));
    assert Lines(text)[1..] == Lines(AfterFirstLine(text));
  }

  /** The contents of a log file: whole lines, then an unfinished one. */
  datatype File = File(body: string, tail: string) {
    ghost predicate Valid() {
      Finished(body) && Unbroken(tail)
    }

    function Text(): string {
      body + tail
    }

    /** A line written at the end runs together with the unfinished line, and ends it. */
    function Append(line: string): File {
      File(body + (tail + line + "\n"), "")
    }

    /** Part of a line written at the end only grows the unfinished line. */
    function Torn(piece: string): File {
      File(body, tail + piece)
    }
  }

  /** What is read from the whole lines: no later append can touch it. */
  function Settled<T>(decode: string -> Option<T>, f: File): seq<T> {
    ReadAll(decode, f.body)
  }

  lemma SettledThenTail<T>(decode: string -> Option<T>, f: File)
    requires f.Valid()
    ensures ReadAll(decode, f.Text()) == Settled(decode, f) + ReadAll(decode, f.tail)
    ensures Settled(decode, f) <= ReadAll(decode, f.Text())
  {
    ReadAllConcat(decode, f.body, f.tail);
  }

  lemma EndsWithBreak(body: string, line: string)
    ensures Finished(body + (line + "\n"))
  {
    var s := body + (line + "\n");
    assert s[|s| - 1] == (line + "\n")[|line|];
  }

  lemma GlueReads<T>(decode: string -> Option<T>, body: string, line: string)
    requires Finished(body) && Unbroken(line) && DropCR(line) == line
    ensures ReadAll(decode, body + (line + "\n")) == ReadAll(decode, body) + ToSeq(decode(line))
  {
    ReadAllConcat(decode, body, line + "\n");
    OneLine(decode, line);
  }

  lemma AppendSettles<T>(decode: string -> Option<T>, f: File, line: string)
    requires f.Valid()
    requires Unbroken(line) && line != "" && line[|line| - 1] != '\r'
    ensures f.Append(line).Valid()
    ensures Settled(decode, f.Append(line)) == Settled(decode, f) + ToSeq(decode(f.tail + line))
  {
    EndsWithBreak(f.body, f.tail + line);
    GlueReads(decode, f.body, f.tail + line);
  }

  /** On disk, both are plain writes at the end of the file. */
  lemma WritesAtEnd(f: File, line: string)
    ensures f.Append(line).Text() == f.Text() + (line + "\n")
    ensures f.Torn(line).Text() == f.Text() + line
  {
    assert f.body + (f.tail + line + "\n") + "" == f.body + f.tail + (line + "\n");
  }
}
