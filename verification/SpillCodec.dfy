/** The lines of the disk spill log (backend/internal/accounting/spill.go): one per
    payload, "<crc32>\t<base64>\n". A crash can leave a line without its end, and
    the next append lands right behind it. Everything here holds for every 32-bit
    checksum function; the repository uses CRC-32 (IEEE).
 */
module SpillCodec {
  import opened Wrappers
  import opened LogText
  import opened Spaces
  import Base64
  import Decimal

  type Payload = seq<Base64.byte>

  type uint32 = n: nat | n < Decimal.LIMIT

  type Crc = Payload -> uint32

  /** The line of a payload, without its end. */
  function Line(crc: Crc, p: Payload): string {
    Decimal.Format(crc(p)) + "\t" + Base64.Encode(p)
  }

  function EncodeLine(crc: Crc, p: Payload): string {
    Line(crc, p) + "\n"
  }

  function DecodeParts(crc: Crc, sum: string, data: string): Option<Payload> {
    match Decimal.Parse(sum)
    case None => None
    case Some(n) =>
      match Base64.Decode(data)
      case None => None
      case Some(p) => if crc(p) == n then Some(p) else None
  }

  function DecodeLine(crc: Crc, line: string): Option<Payload> {
    var tab := IndexOf(line, '\t');
    if tab == |line| then None
    else DecodeParts(crc, TrimSpace(line[..tab]), TrimSpace(line[tab + 1..]))
  }

  function Decoder(crc: Crc): string -> Option<Payload> {
    line => DecodeLine(crc, line)
  }

  /** What draining a file pushes. */
  function Payloads(crc: Crc, text: string): seq<Payload> {
    ReadAll(Decoder(crc), text)
  }

  /** The lines a drain reports as corrupt. */
  function BadLines(crc: Crc, lines: seq<string>): nat {
    if lines == [] then 0
    else (if TrimSpace(lines[0]) != "" && DecodeLine(crc, lines[0]).None? then 1 else 0) + BadLines(crc, lines[1..])
  }

  /** The lines a start-up counts as pending. */
  function CountLines(lines: seq<string>): nat {
    if lines == [] then 0
    else (if TrimSpace(lines[0]) != "" then 1 else 0) + CountLines(lines[1..])
  }

  // ---- one line ----

  /** The characters of encoded lines. */
  predicate LineChar(c: char) {
    Base64.IsSymbol(c) || c == '=' || c == '\t'
  }

  predicate LineChars(s: string) {
    forall i | 0 <= i < |s| :: LineChar(s[i])
  }

  lemma CutAtTab(crc: Crc, a: string, b: string)
    requires forall j | 0 <= j < |a| :: a[j] != '\t'
    ensures DecodeLine(crc, a + "\t" + b) == DecodeParts(crc, TrimSpace(a), TrimSpace(b))
  {
    var s := a + "\t" + b;
    assert s[|a|] == '\t';
    assert forall j | 0 <= j < |a| :: s[j] == a[j];
    assert s[..|a|] == a && s[|a| + 1..] == b;
  }

  /** A line the drain skips as blank would not have decoded either. */
  lemma BlankDecodesToNothing(crc: Crc, line: string)
    requires TrimSpace(line) == ""
    ensures DecodeLine(crc, line).None?
  {
    TrimLeftEmpty(line);
    var tab := IndexOf(line, '\t');
    TrimLeftEmpty(line[..tab]);
  }

  /** What the two fields of p's line satisfy. */
  ghost predicate LineOf(crc: Crc, p: Payload, d: string, b: string) {
    && d != "" && Decimal.AllDigits(d) && Decimal.Value(d) == crc(p)
    && Base64.Printable(b) && Base64.Decode(b) == Some(p)
  }

  lemma LineParts(crc: Crc, p: Payload) returns (d: string, b: string)
    ensures LineOf(crc, p, d, b) && Line(crc, p) == d + "\t" + b
  {
    d, b := Decimal.Format(crc(p)), Base64.Encode(p);
    Decimal.FormatValue(crc(p));
    Base64.EncodePrintable(p);
    Base64.RoundTrip(p);
  }

  lemma LineShape(crc: Crc, p: Payload)
    ensures LineChars(Line(crc, p)) && Line(crc, p) != "" && Unbroken(Line(crc, p))
    ensures Line(crc, p)[|Line(crc, p)| - 1] != '\r'
  {
    var d, b := LineParts(crc, p);
  }

  /** Digits, or other base64 text, run together with the checksum field. */
  lemma GluedToSum(crc: Crc, t: string, p: Payload, d: string, b: string)
    requires LineOf(crc, p, d, b)
    requires LineChars(t) && forall j | 0 <= j < |t| :: t[j] != '\t'
    ensures DecodeLine(crc, t + d + "\t" + b) == (if Decimal.AllZeros(t) then Some(p) else None)
  {
    CutAtTab(crc, t + d, b);
    TrimNothing(t + d);
    TrimNothing(b);
    if Decimal.AllDigits(t) {
      Decimal.PrefixValue(t, d);
    } else {
      var i :| 0 <= i < |t| && !('0' <= t[i] <= '9');
      assert (t + d)[i] == t[i];
    }
  }

  /** Decoding inverts encoding: every payload comes back from its own line. */
  lemma LineRoundTrip(crc: Crc, p: Payload)
    ensures DecodeLine(crc, Line(crc, p)) == Some(p)
  {
    hide DecodeLine, Line;
    var d, b := LineParts(crc, p);
    GluedToSum(crc, "", p, d, b);
    assert "" + d + "\t" + b == d + "\t" + b;
  }

  /** Trimming keeps the digits, and the tab when base64 text follows it. */
  lemma TrimKeepsMiddle(w: string, d: string, b: string)
    requires d != "" && Decimal.AllDigits(d) && Base64.Printable(b)
    ensures var s := TrimSpace(w + d + "\t" + b);
            exists v :: s == if b == "" then v + d else v + d + "\t" + b
  {
    assert w + d + "\t" + b == w + (d + "\t" + b);
    var v := TrimLeftKeeps(w, d + "\t" + b);
    var l := v + d + "\t" + b;
    assert v + (d + "\t" + b) == l;
    if b == "" {
      assert l[..|l| - 1] == v + d;
      assert TrimRight(v + d) == v + d;
    }
  }

  /** A fragment that already has its tab swallows the line behind it. */
  lemma GluedToData(crc: Crc, a: string, w: string, p: Payload, d: string, b: string)
    requires LineOf(crc, p, d, b)
    requires forall j | 0 <= j < |a| :: a[j] != '\t'
    ensures DecodeLine(crc, a + "\t" + (w + d + "\t" + b)) != Some(p)
  {
    var rest := w + d + "\t" + b;
    hide DecodeLine, DecodeParts, TrimSpace, IndexOf, Decimal.Parse;
    CutAtTab(crc, a, rest);
    TrimKeepsMiddle(w, d, b);
    var v :| TrimSpace(rest) == if b == "" then v + d else v + d + "\t" + b;
    var s := TrimSpace(rest);
    assert s[|v|] == d[0];
    if b != "" {
      assert s[|v| + |d|] == '\t';
    }
    if Base64.Decode(s) == Some(p) {
      Base64.DecodeOnlyPrintable(s);
    }
    DecodesOnlyItsData(crc, TrimSpace(a), s, p);
  }

  lemma DecodesOnlyItsData(crc: Crc, sum: string, data: string, p: Payload)
    requires Base64.Decode(data) != Some(p)
    ensures DecodeParts(crc, sum, data) != Some(p)
  {
    hide Decimal.Parse, Base64.Decode;
  }

  lemma SplitAtTab(t: string) returns (a: string, w: string)
    requires IndexOf(t, '\t') < |t|
    ensures t == a + "\t" + w && (forall j | 0 <= j < |a| :: a[j] != '\t')
    ensures !Decimal.AllZeros(t)
  {
    var k := IndexOf(t, '\t');
    a, w := t[..k], t[k + 1..];
    assert t[k] == '\t';
  }

  lemma Regroup(t: string, d: string, b: string)
    ensures t + (d + "\t" + b) == t + d + "\t" + b
  {
  }

  lemma RegroupData(a: string, w: string, d: string, b: string)
    ensures a + "\t" + w + (d + "\t" + b) == a + "\t" + (w + d + "\t" + b)
  {
  }

  /** A payload appended behind an unfinished line is read back exactly when that
      line is nothing but zeros (in particular when there is none). */
  lemma GluedExactly(crc: Crc, t: string, p: Payload)
    requires LineChars(t)
    ensures DecodeLine(crc, t + Line(crc, p)) == Some(p) <==> Decimal.AllZeros(t)
  {
    var d, b := LineParts(crc, p);
    if IndexOf(t, '\t') == |t| {
      GluedToSum(crc, t, p, d, b);
      Regroup(t, d, b);
    } else {
      var a, w := SplitAtTab(t);
      GluedToData(crc, a, w, p, d, b);
      RegroupData(a, w, d, b);
    }
  }

  // ---- the file ----

  /** One turn of the drain. */
  lemma ScanLine(crc: Crc, text: string)
    requires text != ""
    ensures var (line, rest) := (FirstLine(text), AfterFirstLine(text));
            && |rest| < |text|
            && Payloads(crc, text) == ToSeq(DecodeLine(crc, line)) + Payloads(crc, rest)
            && BadLines(crc, Lines(text))
               == (if TrimSpace(line) != "" && DecodeLine(crc, line).None? then 1 else 0) + BadLines(crc, Lines(rest))
  {
    ScanOne(Decoder(crc), text);
    hide DecodeLine, TrimSpace, Lines, FirstLine, AfterFirstLine;
    assert Lines(text)[1..] == Lines(AfterFirstLine(text));
  }

  /** What has been read for good: the payloads no later append can touch. */
  function Safe(crc: Crc, f: File): seq<Payload> {
    Settled(Decoder(crc), f)
  }

  /** Appending p adds exactly p to the safe payloads if the file's unfinished line is
      all zeros, and otherwise leaves p out. Payloads already safe stay. */
  lemma AppendExactly(crc: Crc, f: File, p: Payload)
    requires f.Valid() && LineChars(f.tail)
    ensures f.Append(Line(crc, p)).Valid()
    ensures Safe(crc, f.Append(Line(crc, p))) == Safe(crc, f) + [p] <==> Decimal.AllZeros(f.tail)
    ensures p in Safe(crc, f.Append(Line(crc, p))) <==> p in Safe(crc, f) || Decimal.AllZeros(f.tail)
    ensures Safe(crc, f) <= Safe(crc, f.Append(Line(crc, p)))
  {
    LineShape(crc, p);
    AppendSettles(Decoder(crc), f, Line(crc, p));
    GluedExactly(crc, f.tail, p);
    var glued := ToSeq(DecodeLine(crc, f.tail + Line(crc, p)));
    if Safe(crc, f) + glued == Safe(crc, f) + [p] {
      assert (Safe(crc, f) + glued)[|Safe(crc, f)|..] == glued;
      assert (Safe(crc, f) + [p])[|Safe(crc, f)|..] == [p];
    }
  }

  /** What counts as pending is what a drain pushes and what it reports as corrupt. */
  lemma {:induction false} PendingLines(crc: Crc, lines: seq<string>)
    ensures CountLines(lines) == |Decoded(Decoder(crc), lines)| + BadLines(crc, lines)
  {
    hide DecodeLine, TrimSpace;
    if lines != [] {
      PendingLines(crc, lines[1..]);
      if TrimSpace(lines[0]) == "" {
        BlankDecodesToNothing(crc, lines[0]);
      }
    }
  }

  lemma PendingIsDrained(crc: Crc, text: string)
    ensures CountLines(Lines(text)) == |Payloads(crc, text)| + BadLines(crc, Lines(text))
  {
    PendingLines(crc, Lines(text));
  }

  /** Splitting at line ends leaves a carriage return that a scanner drops, but no line is blank for it. */
  lemma BlankWithoutCR(line: string)
    ensures TrimSpace(DropCR(line)) == "" <==> TrimSpace(line) == ""
  {
    hide TrimSpace;
    TrimLeftEmpty(line);
    TrimLeftEmpty(DropCR(line));
  }

  lemma CountCons(line: string, rest: seq<string>)
    ensures CountLines([line] + rest) == (if TrimSpace(line) != "" then 1 else 0) + CountLines(rest)
  {
    hide TrimSpace;
    assert ([line] + rest)[1..] == rest;
  }

  /** One turn of the count. */
  lemma CountFirst(text: string)
    ensures var n := IndexOf(text, '\n');
            CountLines(Lines(text)) == (if TrimSpace(text[..n]) != "" then 1 else 0)
                                       + (if n == |text| then 0 else CountLines(Lines(text[n + 1..])))
  {
    NoLines();
    hide TrimSpace, IndexOf, DropCR, Lines, Decoded;
    var n := IndexOf(text, '\n');
    if text == "" {
      assert text[..n] == "";
      TrimNothing("");
    } else {
      ScanOne(s => Some(s), text);
      CountCons(FirstLine(text), Lines(AfterFirstLine(text)));
      BlankWithoutCR(text[..n]);
    }
  }

  function EncodeAll(crc: Crc, ps: seq<Payload>): string {
    if ps == [] then "" else EncodeAll(crc, ps[..|ps| - 1]) + EncodeLine(crc, ps[|ps| - 1])
  }

  lemma OneMoreLine(crc: Crc, text: string, p: Payload)
    requires Finished(text)
    ensures Finished(text + EncodeLine(crc, p))
    ensures Payloads(crc, text + EncodeLine(crc, p)) == Payloads(crc, text) + [p]
  {
    LineShape(crc, p);
    LineRoundTrip(crc, p);
    EndsWithBreak(text, Line(crc, p));
    GlueReads(Decoder(crc), text, Line(crc, p));
  }

  lemma NothingDrains(crc: Crc)
    ensures Finished("") && Payloads(crc, "") == [] && BadLines(crc, Lines("")) == 0
  {
  }

  lemma {:induction false} WholeLogDrains(crc: Crc, ps: seq<Payload>)
    ensures Finished(EncodeAll(crc, ps)) && Payloads(crc, EncodeAll(crc, ps)) == ps
  {
    hide Line, DecodeLine, Lines, Decoded, EncodeLine, IndexOf;
    if ps == [] {
      NothingDrains(crc);
    } else {
      WholeLogDrains(crc, ps[..|ps| - 1]);
      OneMoreLine(crc, EncodeAll(crc, ps[..|ps| - 1]), ps[|ps| - 1]);
      assert ps == ps[..|ps| - 1] + [ps[|ps| - 1]];
    }
  }

  /** A log of whole lines and a torn piece of another drains to exactly those
      payloads in order, then to whatever the piece itself decodes to. */
  lemma TornLogDrains(crc: Crc, ps: seq<Payload>, q: Payload, k: nat)
    requires k <= |Line(crc, q)|
    ensures var piece := Line(crc, q)[..k];
            Payloads(crc, EncodeAll(crc, ps) + piece) == ps + (if k == 0 then [] else ToSeq(DecodeLine(crc, piece)))
  {
    LineShape(crc, q);
    hide Line, DecodeLine;
    var piece := Line(crc, q)[..k];
    WholeLogDrains(crc, ps);
    ReadAllConcat(Decoder(crc), EncodeAll(crc, ps), piece);
    OneLine(Decoder(crc), piece);
  }
}
