/** The string operations the dispatch code relies on: whitespace stripping and prefixes. */
module Text {

  /** The characters `str.strip` removes. */
  predicate IsSpace(c: char) {
    || '\t' <= c <= '\r'
    || '\U{1c}' <= c <= ' '
    || c == '\U{85}' || c == '\U{a0}' || c == '\U{1680}'
    || '\U{2000}' <= c <= '\U{200a}'
    || c == '\U{2028}' || c == '\U{2029}' || c == '\U{202f}' || c == '\U{205f}' || c == '\U{3000}'
  }

  function TrimLeft(s: string): string
    decreases |s|
  {
    if s != "" && IsSpace(s[0]) then TrimLeft(s[1..]) else s
  }

  function TrimRight(s: string): string
    decreases |s|
  {
    if s != "" && IsSpace(s[|s| - 1]) then TrimRight(s[..|s| - 1]) else s
  }

  function Strip(s: string): string {
    TrimRight(TrimLeft(s))
  }

  predicate StartsWith(s: string, prefix: string) {
    |prefix| <= |s| && s[..|prefix|] == prefix
  }

  /** The code points Python counts as whitespace. */
  lemma {:induction false} SpacesExactly(c: char)
    ensures IsSpace(c) <==> c as int in {0x9, 0xa, 0xb, 0xc, 0xd, 0x1c, 0x1d, 0x1e, 0x1f, 0x20, 0x85, 0xa0, 0x1680,
                                         0x2000, 0x2001, 0x2002, 0x2003, 0x2004, 0x2005, 0x2006, 0x2007, 0x2008, 0x2009,
                                         0x200a, 0x2028, 0x2029, 0x202f, 0x205f, 0x3000}
  {
  }

  /** A string starts with a prefix exactly if it is the prefix and something after it, or nothing. */
  lemma {:induction false} StartsWithExactly(s: string, prefix: string)
    ensures StartsWith(s, prefix) <==> exists rest: string :: s == prefix + rest
  {
    if StartsWith(s, prefix) {
      assert s == prefix + s[|prefix|..];
    }
  }

  /** What is trimmed from the right is whitespace, and nothing else is left at the end. */
  lemma {:induction false} TrimRightKeepsHead(s: string)
    ensures var r := TrimRight(s);
            && (r != "" ==> !IsSpace(r[|r| - 1]))
            && |r| <= |s| && r == s[..|r|]
            && forall k :: |r| <= k < |s| ==> IsSpace(s[k])
    decreases |s|
  {
    if s != "" && IsSpace(s[|s| - 1]) {
      TrimRightKeepsHead(s[..|s| - 1]);
    }
  }

  lemma {:induction false} TrimLeftKeepsTail(s: string)
    ensures var r := TrimLeft(s);
            && (r != "" ==> !IsSpace(r[0]))
            && |r| <= |s| && r == s[|s| - |r|..]
            && forall k :: 0 <= k < |s| - |r| ==> IsSpace(s[k])
    decreases |s|
  {
    if s != "" && IsSpace(s[0]) {
      TrimLeftKeepsTail(s[1..]);
      assert forall k :: 1 <= k < |s| ==> s[k] == s[1..][k - 1];
    }
  }

  /** Stripping takes the whitespace from both ends, all of it and nothing else. */
  lemma {:induction false} StripExactly(s: string) returns (i: nat, j: nat)
    ensures i <= j <= |s| && Strip(s) == s[i..j]
    ensures forall k :: (0 <= k < i || j <= k < |s|) ==> IsSpace(s[k])
    ensures i < j ==> !IsSpace(s[i]) && !IsSpace(s[j - 1])
  {
    var t := TrimLeft(s);
    TrimLeftKeepsTail(s);
    TrimRightKeepsHead(t);
    i := |s| - |t|;
    j := i + |Strip(s)|;
    assert forall k :: i <= k < |s| ==> s[k] == t[k - i];
  }

  /** Stripping a stripped string changes nothing. */
  lemma StripIdempotent(s: string)
    ensures Strip(Strip(s)) == Strip(s)
  {
    TrimLeftKeepsTail(s);
    TrimRightKeepsHead(TrimLeft(s));
  }
}
