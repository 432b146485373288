/** Standard base64 with padding (section 4 of RFC 4648), decoded the way Go's
    StdEncoding does: line breaks are ignored, unused trailing bits are not checked.
 */
module Base64 {
  import opened Wrappers

  type byte = b: int | 0 <= b < 256

  type digit = d: int | 0 <= d < 64

  function Symbol(d: digit): char {
    if d < 26 then ('A' as int + d) as char
    else if d < 52 then ('a' as int + (d - 26)) as char
    else if d < 62 then ('0' as int + (d - 52)) as char
    else if d == 62 then '+' else '/'
  }

  predicate IsSymbol(c: char) {
    'A' <= c <= 'Z' || 'a' <= c <= 'z' || '0' <= c <= '9' || c == '+' || c == '/'
  }

  function Digit(c: char): digit
    requires IsSymbol(c)
  {
    if 'A' <= c <= 'Z' then c as int - 'A' as int
    else if 'a' <= c <= 'z' then c as int - 'a' as int + 26
    else if '0' <= c <= '9' then c as int - '0' as int + 52
    else if c == '+' then 62 else 63
  }

  lemma SymbolDigit(d: digit)
    ensures IsSymbol(Symbol(d)) && Digit(Symbol(d)) == d
  {
  }

  /** The four symbols of a full group of three bytes. */
  function Group(a: byte, b: byte, c: byte): string {
    [Symbol(a / 4), Symbol((a % 4) * 16 + b / 16), Symbol((b % 16) * 4 + c / 64), Symbol(c % 64)]
  }

  function Encode(p: seq<byte>): string {
    if |p| == 0 then ""
    else if |p| == 1 then Group(p[0], 0, 0)[..2] + "=="
    else if |p| == 2 then Group(p[0], p[1], 0)[..3] + "="
    else Group(p[0], p[1], p[2]) + Encode(p[3..])
  }

  function First(s: string): byte
    requires |s| >= 2 && IsSymbol(s[0]) && IsSymbol(s[1])
  {
    Digit(s[0]) * 4 + Digit(s[1]) / 16
  }

  function Second(s: string): byte
    requires |s| >= 3 && IsSymbol(s[1]) && IsSymbol(s[2])
  {
    (Digit(s[1]) % 16) * 16 + Digit(s[2]) / 4
  }

  function Third(s: string): byte
    requires |s| >= 4 && IsSymbol(s[2]) && IsSymbol(s[3])
  {
    (Digit(s[2]) % 4) * 64 + Digit(s[3])
  }

  /** Decodes text without line breaks; padding may only end it. */
  function DecodeGroups(s: string): Option<seq<byte>> {
    if s == "" then Some([])
    else if |s| < 4 || !IsSymbol(s[0]) || !IsSymbol(s[1]) then None
    else if s[2..] == "==" then Some([First(s)])
    else if !IsSymbol(s[2]) then None
    else if s[3..] == "=" then Some([First(s), Second(s)])
    else if !IsSymbol(s[3]) then None
    else
      match DecodeGroups(s[4..])
      case None => None
      case Some(rest) => Some([First(s), Second(s), Third(s)] + rest)
  }

  function StripBreaks(s: string): string {
    if s == "" then ""
    else (if s[0] == '\n' || s[0] == '\r' then "" else [s[0]]) + StripBreaks(s[1..])
  }

  function Decode(s: string): Option<seq<byte>> {
    DecodeGroups(StripBreaks(s))
  }

  predicate Printable(s: string) {
    forall i | 0 <= i < |s| :: IsSymbol(s[i]) || s[i] == '='
  }

  lemma GroupSymbols(a: byte, b: byte, c: byte)
    ensures var g := Group(a, b, c);
            |g| == 4 && IsSymbol(g[0]) && IsSymbol(g[1]) && IsSymbol(g[2]) && IsSymbol(g[3])
  {
    hide Symbol, IsSymbol, Digit;
    SymbolDigit(a / 4);
    SymbolDigit((a % 4) * 16 + b / 16);
    SymbolDigit((b % 16) * 4 + c / 64);
    SymbolDigit(c % 64);
  }

  lemma {:induction false} EncodePrintable(p: seq<byte>)
    ensures Printable(Encode(p))
    ensures Encode(p) == "" <==> p == []
  {
    hide Group, IsSymbol;
    if |p| == 1 {
      GroupSymbols(p[0], 0, 0);
    } else if |p| == 2 {
      GroupSymbols(p[0], p[1], 0);
    } else if |p| > 2 {
      GroupSymbols(p[0], p[1], p[2]);
      EncodePrintable(p[3..]);
    }
  }

  lemma {:induction false} StripPrintable(s: string)
    requires Printable(s)
    ensures StripBreaks(s) == s
  {
    if s != "" {
      StripPrintable(s[1..]);
    }
  }

  lemma JoinedDigits(hi: nat, lo: nat, base: nat)
    requires lo < base && (base == 4 || base == 16)
    ensures (hi * base + lo) / base == hi && (hi * base + lo) % base == lo
  {
  }

  lemma GroupBytes(a: byte, b: byte, c: byte)
    ensures var g := Group(a, b, c);
            && IsSymbol(g[0]) && IsSymbol(g[1]) && IsSymbol(g[2]) && IsSymbol(g[3])
            && First(g) == a && Second(g) == b && Third(g) == c && |g| == 4
  {
    hide Symbol, IsSymbol, Digit;
    SymbolDigit(a / 4);
    SymbolDigit((a % 4) * 16 + b / 16);
    SymbolDigit((b % 16) * 4 + c / 64);
    SymbolDigit(c % 64);
    JoinedDigits(a % 4, b / 16, 16);
    JoinedDigits(b % 16, c / 64, 4);
  }

  lemma EqualsIsNoSymbol(c: char)
    requires IsSymbol(c)
    ensures c != '='
  {
  }

  lemma OneByte(a: byte)
    ensures DecodeGroups(Group(a, 0, 0)[..2] + "==") == Some([a])
  {
    var e := Group(a, 0, 0)[..2] + "==";
    GroupBytes(a, 0, 0);
    assert e[2..] == "==";
  }

  lemma TwoBytes(a: byte, b: byte)
    ensures DecodeGroups(Group(a, b, 0)[..3] + "=") == Some([a, b])
  {
    var g := Group(a, b, 0);
    var e := g[..3] + "=";
    GroupBytes(a, b, 0);
    assert e[2..][0] == g[2];
    assert e[3..] == "=";
  }

  lemma FullGroup(s: string)
    requires |s| >= 4 && IsSymbol(s[0]) && IsSymbol(s[1]) && IsSymbol(s[2]) && IsSymbol(s[3])
    requires DecodeGroups(s[4..]).Some?
    ensures DecodeGroups(s) == Some([First(s), Second(s), Third(s)] + DecodeGroups(s[4..]).value)
  {
    hide First, Second, Third, IsSymbol;
    EqualsIsNoSymbol(s[2]);
    EqualsIsNoSymbol(s[3]);
    assert s[2..][0] == s[2] && s[3..][0] == s[3];
  }

  lemma ThreeBytes(a: byte, b: byte, c: byte, text: string)
    requires DecodeGroups(text).Some?
    ensures DecodeGroups(Group(a, b, c) + text) == Some([a, b, c] + DecodeGroups(text).value)
  {
    hide DecodeGroups, Group, IsSymbol, Digit;
    var g := Group(a, b, c);
    var e := g + text;
    GroupBytes(a, b, c);
    assert e[4..] == text;
    FullGroup(e);
  }

  lemma {:induction false} GroupsRoundTrip(p: seq<byte>)
    ensures DecodeGroups(Encode(p)) == Some(p)
  {
    hide Group, First, Second, Third, IsSymbol;
    if |p| == 1 {
      OneByte(p[0]);
      assert p == [p[0]];
    } else if |p| == 2 {
      TwoBytes(p[0], p[1]);
      assert p == [p[0], p[1]];
    } else if |p| > 2 {
      GroupsRoundTrip(p[3..]);
      ThreeBytes(p[0], p[1], p[2], Encode(p[3..]));
      assert p == [p[0], p[1], p[2]] + p[3..];
    }
  }

  /** Decoding inverts encoding, for every payload. */
  lemma RoundTrip(p: seq<byte>)
    ensures Decode(Encode(p)) == Some(p)
  {
    EncodePrintable(p);
    StripPrintable(Encode(p));
    GroupsRoundTrip(p);
  }

  /** Only base64 text decodes, and only the empty text decodes to nothing. */
  lemma {:induction false} GroupsDecodeOnlyPrintable(s: string)
    requires DecodeGroups(s).Some?
    ensures Printable(s)
    ensures DecodeGroups(s) == Some([]) ==> s == ""
  {
    if |s| >= 4 {
      if s[2..] != "==" && s[3..] != "=" {
        GroupsDecodeOnlyPrintable(s[4..]);
        assert forall i | 4 <= i < |s| :: s[i] == s[4..][i - 4];
      } else if s[2..] == "==" {
        assert s[2] == s[2..][0] && s[3] == s[2..][1];
      } else {
        assert s[3] == s[3..][0];
      }
    }
  }

  lemma {:induction false} StripKeeps(s: string, i: nat)
    requires i < |s| && s[i] != '\n' && s[i] != '\r'
    ensures s[i] in StripBreaks(s)
  {
    if i > 0 {
      StripKeeps(s[1..], i - 1);
    }
  }

  lemma DecodeOnlyPrintable(s: string)
    requires Decode(s).Some?
    ensures forall i | 0 <= i < |s| :: IsSymbol(s[i]) || s[i] == '=' || s[i] == '\n' || s[i] == '\r'
    ensures Decode(s) == Some([]) ==> forall i | 0 <= i < |s| :: s[i] == '\n' || s[i] == '\r'
  {
    GroupsDecodeOnlyPrintable(StripBreaks(s));
    forall i | 0 <= i < |s| && s[i] != '\n' && s[i] != '\r'
      ensures IsSymbol(s[i]) || s[i] == '='
      ensures Decode(s) != Some([])
    {
      StripKeeps(s, i);
    }
  }
}
