/** The spill log as the process uses it (backend/internal/accounting/spill.go):
    an open file and the number of lines it believes are pending.
 */
module SpillFile {
  import opened Wrappers
  import opened LogText
  import opened Spaces
  import W = SpillCodec

  /** How one append ends. Only Synced is reported as a success. */
  datatype WriteOutcome = Synced | Unsynced | Torn(k: nat) | Untouched

  /** How the truncation at the end of a drain goes: emptied and synced, emptied without the sync, or not at all. */
  datatype Truncation = Truncated | Emptied | Kept

  /** A whole line, or the first characters of one, written at the end of the file. */
  lemma Grows(crc: W.Crc, f: File, p: W.Payload)
    requires f.Valid()
    ensures f.Append(W.Line(crc, p)).Valid()
    ensures f.Append(W.Line(crc, p)).Text() == f.Text() + W.EncodeLine(crc, p)
  {
    W.LineShape(crc, p);
    WritesAtEnd(f, W.Line(crc, p));
    hide W.Line;
    AppendSettles(W.Decoder(crc), f, W.Line(crc, p));
  }

  lemma Tears(crc: W.Crc, f: File, p: W.Payload, k: nat)
    requires f.Valid() && k <= |W.Line(crc, p)|
    ensures k <= |W.EncodeLine(crc, p)|
    ensures var t := f.Torn(W.Line(crc, p)[..k]); t.Valid() && t.Text() == f.Text() + W.EncodeLine(crc, p)[..k]
  {
    W.LineShape(crc, p);
    WritesAtEnd(f, W.Line(crc, p)[..k]);
    hide W.Line;
    assert W.EncodeLine(crc, p)[..k] == W.Line(crc, p)[..k];
  }

  /** countLines: the pieces between line ends that are not blank. */
  method CountPending(text: string) returns (n: nat)
    ensures n == W.CountLines(Lines(text))
  {
    hide W.CountLines, Lines, TrimSpace;
    n := 0;
    var rest := text;
    var cut := IndexOf(rest, '\n');
    while cut < |rest|
      invariant cut == IndexOf(rest, '\n')
      invariant W.CountLines(Lines(text)) == n + W.CountLines(Lines(rest))
      decreases |rest|
    {
      W.CountFirst(rest);
      if TrimSpace(rest[..cut]) != "" {
        n := n + 1;
      }
      rest := rest[cut + 1..];
      cut := IndexOf(rest, '\n');
    }
    W.CountFirst(rest);
    if TrimSpace(rest[..cut]) != "" {
      n := n + 1;
    }
  }

  class SpillLog {
    const crc: W.Crc
    const enabled: bool
    var data: string
    var pending: nat
    ghost var file: File

    ghost predicate Valid()
      reads this
    {
      file.Valid() && data == file.Text()
    }

    /** Opening counts what a full drain would push or report as corrupt. */
    constructor (crc: W.Crc, enabled: bool, contents: File)
      requires contents.Valid()
      ensures Valid() && this.crc == crc && this.enabled == enabled && file == contents
      ensures pending == if enabled then |W.Payloads(crc, data)| + W.BadLines(crc, Lines(data)) else 0
    {
      var text := contents.Text();
      var count := 0;
      if enabled {
        count := CountPending(text);
        W.PendingIsDrained(crc, text);
      }
      this.crc := crc;
      this.enabled := enabled;
      this.data := text;
      this.file := contents;
      this.pending := count;
    }

    /** Appends one line at the end of the file, whatever the end looks like. */
    method Append(p: W.Payload, outcome: WriteOutcome) returns (ok: bool)
      requires Valid()
      requires outcome.Torn? ==> outcome.k <= |W.Line(crc, p)|
      modifies this`data, this`pending, this`file
      ensures Valid()
      ensures ok <==> enabled && outcome.Synced?
      ensures pending == old(pending) + (if ok then 1 else 0)
      ensures file == if !enabled || outcome.Untouched? then old(file)
                      else if outcome.Torn? then old(file).Torn(W.Line(crc, p)[..outcome.k])
                      else old(file).Append(W.Line(crc, p))
    {
      if !enabled || outcome.Untouched? {
        return false;
      }
      hide W.Line, W.EncodeLine, File.Text, File.Append, File.Torn, File.Valid;
      var line := W.EncodeLine(crc, p);
      if outcome.Torn? {
        Tears(crc, file, p, outcome.k);
        data := data + line[..outcome.k];
        file := file.Torn(W.Line(crc, p)[..outcome.k]);
        return false;
      }
      Grows(crc, file, p);
      data := data + line;
      file := file.Append(W.Line(crc, p));
      if outcome.Unsynced? {
        return false;
      }
      pending := pending + 1;
      return true;
    }

    /** Pushes every decodable line; on full success the file is emptied. `accepts` is how many
        pushes succeed before one fails. A truncation that cannot be synced is an error, but the file is empty. */
    method Drain(accepts: nat, truncation: Truncation) returns (pushed: seq<W.Payload>, bad: nat, ok: bool)
      requires Valid()
      modifies this`data, this`pending, this`file
      ensures Valid()
      ensures !enabled ==> pushed == [] && bad == 0 && ok
      ensures enabled ==>
                var all := W.Payloads(crc, old(data));
                && pushed == (if accepts < |all| then all[..accepts] else all)
                && (ok <==> accepts >= |all| && truncation.Truncated?)
                && (accepts >= |all| ==> bad == W.BadLines(crc, Lines(old(data))))
                && (if accepts >= |all| && !truncation.Kept? then data == "" && file == File("", "")
                    else data == old(data) && file == old(file))
      ensures pending == if enabled && ok then 0 else old(pending)
      ensures !enabled ==> data == old(data) && file == old(file)
    {
      hide W.DecodeLine, W.Payloads, W.BadLines, TrimSpace, Lines, FirstLine, AfterFirstLine;
      pushed, bad := [], 0;
      if !enabled {
        return pushed, bad, true;
      }
      var rest := data;
      while rest != ""
        invariant data == old(data) && pending == old(pending) && file == old(file)
        invariant |pushed| <= accepts
        invariant W.Payloads(crc, data) == pushed + W.Payloads(crc, rest)
        invariant W.BadLines(crc, Lines(data)) == bad + W.BadLines(crc, Lines(rest))
        decreases |rest|
      {
        var line := FirstLine(rest);
        W.ScanLine(crc, rest);
        rest := AfterFirstLine(rest);
        if TrimSpace(line) == "" {
          W.BlankDecodesToNothing(crc, line);
        } else {
          match W.DecodeLine(crc, line)
          case None =>
            bad := bad + 1;
          case Some(p) =>
            if |pushed| == accepts {
              assert W.Payloads(crc, data)[..accepts] == pushed;
              return pushed, bad, false;
            }
            pushed := pushed + [p];
        }
      }
      W.NothingDrains(crc);
      if truncation.Kept? {
        return pushed, bad, false;
      }
      data := "";
      file := File("", "");
      if truncation.Emptied? {
        return pushed, bad, false;
      }
      pending := 0;
      return pushed, bad, true;
    }
  }
}
