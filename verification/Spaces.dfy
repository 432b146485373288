/** strings.TrimSpace. Characters are code points; white space beyond U+00FF is left out. */
module Spaces {

  predicate IsSpace(c: char) {
    c == ' ' || '\t' <= c <= '\r' || c == '\U{0085}' || c == '\U{00A0}'
  }

  function TrimLeft(s: string): string {
    if s != "" && IsSpace(s[0]) then TrimLeft(s[1..]) else s
  }

  function TrimRight(s: string): string {
    if s != "" && IsSpace(s[|s| - 1]) then TrimRight(s[..|s| - 1]) else s
  }

  function TrimSpace(s: string): string {
    TrimRight(TrimLeft(s))
  }

  lemma TrimNothing(s: string)
    requires s == "" || (!IsSpace(s[0]) && !IsSpace(s[|s| - 1]))
    ensures TrimSpace(s) == s
  {
  }

  lemma {:induction false} TrimLeftEmpty(s: string)
    ensures TrimSpace(s) == "" <==> forall i | 0 <= i < |s| :: IsSpace(s[i])
  {
    if s != "" && IsSpace(s[0]) {
      TrimLeftEmpty(s[1..]);
      assert forall i | 0 < i < |s| :: s[i] == s[1..][i - 1];
    } else if s != "" {
      TrimRightKeepsFirst(s);
    }
  }

  lemma {:induction false} TrimRightKeepsFirst(s: string)
    requires s != "" && !IsSpace(s[0])
    ensures TrimRight(s) != ""
  {
    if IsSpace(s[|s| - 1]) {
      TrimRightKeepsFirst(s[..|s| - 1]);
    }
  }

  lemma {:induction false} TrimLeftKeeps(w: string, s: string) returns (v: string)
    requires s != "" && !IsSpace(s[0])
    ensures TrimLeft(w + s) == v + s
  {
    if w != "" && IsSpace(w[0]) {
      assert (w + s)[1..] == w[1..] + s;
      v := TrimLeftKeeps(w[1..], s);
    } else {
      v := w;
    }
  }

  /** White space in front changes nothing. */
  lemma {:induction false} TrimSkips(w: string, s: string)
    requires forall i | 0 <= i < |w| :: IsSpace(w[i])
    ensures TrimSpace(w + s) == TrimSpace(s)
  {
    if w == "" {
      assert w + s == s;
    } else {
      assert (w + s)[1..] == w[1..] + s;
      TrimSkips(w[1..], s);
    }
  }

  /** The result has no white space at either end, and trimming it again changes nothing. */
  lemma TrimIsTrimmed(s: string)
    ensures var t := TrimSpace(s); (t != "" ==> !IsSpace(t[0]) && !IsSpace(t[|t| - 1])) && TrimSpace(t) == t
  {
    TrimLeftEnds(s);
    TrimRightEnds(TrimLeft(s));
    TrimNothing(TrimSpace(s));
  }

  lemma {:induction false} TrimLeftEnds(s: string)
    ensures TrimLeft(s) != "" ==> !IsSpace(TrimLeft(s)[0])
  {
    if s != "" && IsSpace(s[0]) {
      TrimLeftEnds(s[1..]);
    }
  }

  lemma {:induction false} TrimRightEnds(s: string)
    requires s != "" ==> !IsSpace(s[0])
    ensures var t := TrimRight(s); t != "" ==> t[0] == s[0] && !IsSpace(t[|t| - 1])
  {
    if s != "" && IsSpace(s[|s| - 1]) {
      TrimRightEnds(s[..|s| - 1]);
    }
  }
}
