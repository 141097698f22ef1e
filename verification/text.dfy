/** Strings as the source's standard library trims them. */
module Text {
  import opened Common

  /** Unicode White_Space, the characters removed by `str::trim`. */
  predicate IsWhite(c: char) {
    var n := c as int;
    || 0x09 <= n <= 0x0D || n == 0x20 || n == 0x85 || n == 0xA0 || n == 0x1680
    || 0x2000 <= n <= 0x200A || n == 0x2028 || n == 0x2029 || n == 0x202F || n == 0x205F || n == 0x3000
  }

  predicate Blank(s: string) {
    forall c :: c in s ==> IsWhite(c)
  }

  function TrimStart(s: string): string {
    if s != [] && IsWhite(s[0]) then TrimStart(s[1..]) else s
  }

  function TrimEnd(s: string): string {
    if s != [] && IsWhite(Last(s)) then TrimEnd(s[..|s| - 1]) else s
  }

  function Trim(s: string): string {
    TrimEnd(TrimStart(s))
  }

  /** The text neither starts nor ends with white space. */
  predicate Trimmed(s: string) {
    s == [] || (!IsWhite(s[0]) && !IsWhite(Last(s)))
  }

  lemma {:induction false} TrimStartParts(s: string) returns (lead: string)
    ensures Blank(lead) && s == lead + TrimStart(s)
    ensures TrimStart(s) == [] || !IsWhite(TrimStart(s)[0])
  {
    if s != [] && IsWhite(s[0]) {
      lead := TrimStartParts(s[1..]);
      lead := [s[0]] + lead;
    } else {
      lead := [];
    }
  }

  lemma {:induction false} TrimEndParts(s: string) returns (tail: string)
    ensures Blank(tail) && s == TrimEnd(s) + tail
    ensures TrimEnd(s) == [] || !IsWhite(Last(TrimEnd(s)))
  {
    if s != [] && IsWhite(Last(s)) {
      tail := TrimEndParts(s[..|s| - 1]);
      tail := tail + [Last(s)];
    } else {
      tail := [];
    }
  }

  /** Trimming takes white space off both ends and nothing else. */
  lemma TrimParts(s: string) returns (lead: string, tail: string)
    ensures Blank(lead) && Blank(tail) && s == lead + Trim(s) + tail && Trimmed(Trim(s))
    ensures Trim(s) == [] <==> Blank(s)
  {
    lead := TrimStartParts(s);
    var rest := TrimStart(s);
    tail := TrimEndParts(rest);
    assert s == lead + Trim(s) + tail;
    if Trim(s) != [] {
      assert Trim(s)[0] == rest[0];
      assert Trim(s)[0] in s;
    }
  }

  /** A trimmed text wrapped in white space is trimmed back to itself. */
  lemma TrimWrapped(lead: string, s: string, tail: string)
    requires Blank(lead) && Blank(tail) && Trimmed(s)
    ensures Trim(lead + s + tail) == s
  {
    if s == [] {
      var a, b := TrimParts(lead + s + tail);
    } else {
      TrimStartWrapped(lead, s + tail);
      assert lead + s + tail == lead + (s + tail);
      TrimEndWrapped(s, tail);
    }
  }

  lemma {:induction false} TrimStartWrapped(lead: string, s: string)
    requires Blank(lead) && s != [] && !IsWhite(s[0])
    ensures TrimStart(lead + s) == s
  {
    if lead == [] {
      assert lead + s == s;
    } else {
      assert (lead + s)[1..] == lead[1..] + s;
      assert lead[0] in lead;
      TrimStartWrapped(lead[1..], s);
    }
  }

  lemma {:induction false} TrimEndWrapped(s: string, tail: string)
    requires Blank(tail) && s != [] && !IsWhite(Last(s))
    ensures TrimEnd(s + tail) == s
  {
    if tail == [] {
      assert s + tail == s;
    } else {
      var all := s + tail;
      assert all[..|all| - 1] == s + tail[..|tail| - 1];
      assert Last(all) == Last(tail) && Last(tail) in tail;
      TrimEndWrapped(s, tail[..|tail| - 1]);
    }
  }
}
