/** Python's whitespace and `str.strip()`. */
module Text {
  predicate IsSpace(c: char) {
    var n := c as int;
    || 0x09 <= n <= 0x0D || 0x1C <= n <= 0x20 || n == 0x85 || n == 0xA0 || n == 0x1680
    || 0x2000 <= n <= 0x200A || n == 0x2028 || n == 0x2029 || n == 0x202F || n == 0x205F || n == 0x3000
  }

  /** Python's 29 whitespace characters. */
  const WHITESPACE: string :=
    "\U{9}\U{A}\U{B}\U{C}\U{D}\U{1C}\U{1D}\U{1E}\U{1F} \U{85}\U{A0}\U{1680}"
    + "\U{2000}\U{2001}\U{2002}\U{2003}\U{2004}\U{2005}\U{2006}\U{2007}\U{2008}\U{2009}\U{200A}"
    + "\U{2028}\U{2029}\U{202F}\U{205F}\U{3000}"

  /** Space, tab and line ends separate; no printing ASCII character does. */
  lemma SpacesAre(c: char)
    ensures IsSpace(' ') && IsSpace('\t') && IsSpace('\n') && IsSpace('\r')
    ensures '!' <= c <= '~' ==> !IsSpace(c)
    ensures IsSpace(c) <==> c in WHITESPACE
  {
    if IsSpace(c) { SpaceIsListed(c); }
    if c in WHITESPACE {
      var k :| 0 <= k < |WHITESPACE| && WHITESPACE[k] == c;
    }
  }

  lemma SpaceIsListed(c: char)
    requires IsSpace(c)
    ensures c in WHITESPACE
  {
    var n := c as int;
    var k := if n <= 0x0D then n - 0x09 else if n <= 0x20 then 5 + n - 0x1C else if n == 0x85 then 10
             else if n == 0xA0 then 11 else if n == 0x1680 then 12 else if n <= 0x200A then 13 + n - 0x2000
             else if n == 0x2028 then 24 else if n == 0x2029 then 25 else if n == 0x202F then 26
             else if n == 0x205F then 27 else 28;
    assert WHITESPACE[k] == c;
  }

  function StripLeft(s: string): (r: string)
    ensures |r| <= |s| && r == s[|s| - |r|..] && forall k | 0 <= k < |s| - |r| :: IsSpace(s[k])
    ensures r != "" ==> !IsSpace(r[0])
  {
    if s != "" && IsSpace(s[0]) then StripLeft(s[1..]) else s
  }

  function StripRight(s: string): (r: string)
    ensures |r| <= |s| && r == s[..|r|] && forall k | |r| <= k < |s| :: IsSpace(s[k])
    ensures r != "" ==> !IsSpace(r[|r| - 1])
  {
    if s != "" && IsSpace(s[|s| - 1]) then StripRight(s[..|s| - 1]) else s
  }

  /** What is left starts and ends with something else than whitespace. */
  function Strip(s: string): (r: string)
    ensures r != "" ==> !IsSpace(r[0]) && !IsSpace(r[|r| - 1])
  {
    StripRight(StripLeft(s))
  }

  /** Only whitespace around the result goes: a text between two runs of whitespace, itself
      without any at its ends, is what strips to it. */
  lemma StripIsExact(before: string, s: string, after: string)
    requires forall c | c in before :: IsSpace(c)
    requires forall c | c in after :: IsSpace(c)
    requires s != "" ==> !IsSpace(s[0]) && !IsSpace(s[|s| - 1])
    ensures Strip(before + s + after) == s
  {
    hide IsSpace, StripLeft, StripRight;
    assert before + (s + after) == before + s + after;
    if s == "" {
      assert s + after == after && before + after == before + after + "";
      forall c | c in before + after ensures IsSpace(c) { }
      LeftIsExact(before + after, "");
      RightIsExact("", "");
    } else {
      assert (s + after)[0] == s[0];
      LeftIsExact(before, s + after);
      RightIsExact(s, after);
    }
  }

  lemma LeftIsExact(before: string, s: string)
    requires forall c | c in before :: IsSpace(c)
    requires s != "" ==> !IsSpace(s[0])
    ensures StripLeft(before + s) == s
  {
    hide IsSpace;
    StripsBefore(before, s);
  }

  lemma RightIsExact(s: string, after: string)
    requires forall c | c in after :: IsSpace(c)
    requires s != "" ==> !IsSpace(s[|s| - 1])
    ensures StripRight(s + after) == s
  {
    hide IsSpace;
    StripsAfter(s, after);
  }

  lemma {:induction false} StripsBefore(before: string, s: string)
    requires forall c | c in before :: IsSpace(c)
    ensures StripLeft(before + s) == StripLeft(s)
  {
    if before == "" {
      assert before + s == s;
    } else {
      assert before[0] in before && (before + s)[1..] == before[1..] + s;
      StripsBefore(before[1..], s);
    }
  }

  lemma {:induction false} StripsAfter(s: string, after: string)
    requires forall c | c in after :: IsSpace(c)
    ensures StripRight(s + after) == StripRight(s)
  {
    if after == "" {
      assert s + after == s;
    } else {
      var rest := after[..|after| - 1];
      assert after[|after| - 1] in after && (s + after)[..|s + after| - 1] == s + rest;
      StripsAfter(s, rest);
    }
  }
}
