/** The parts of Go's strings package that the resolver and the client use,
    over strings of characters (Go works on bytes; the model reads one byte as one char). */
module Strings {

  /** strings.HasPrefix */
  predicate HasPrefix(s: string, prefix: string) {
    |prefix| <= |s| && s[..|prefix|] == prefix
  }

  /** sub occurs in s starting at position i. */
  predicate OccursAt(s: string, sub: string, i: nat) {
    i + |sub| <= |s| && s[i..i + |sub|] == sub
  }

  /** When sub does not start s, every occurrence of sub in s is one in s[1..], shifted by one. */
  lemma OccursInTail(s: string, sub: string)
    requires |sub| <= |s| && s[..|sub|] != sub
    ensures forall j: nat :: OccursAt(s, sub, j) ==> j > 0 && OccursAt(s[1..], sub, j - 1)
    ensures forall j: nat :: OccursAt(s[1..], sub, j) ==> OccursAt(s, sub, j + 1)
  {
    forall j: nat | OccursAt(s, sub, j) ensures j > 0 && OccursAt(s[1..], sub, j - 1) {
      assert j != 0 by { assert s[0..|sub|] == s[..|sub|]; }
      assert s[1..][j - 1..j - 1 + |sub|] == s[j..j + |sub|];
    }
    forall j: nat | OccursAt(s[1..], sub, j) ensures OccursAt(s, sub, j + 1) {
      assert s[1..][j..j + |sub|] == s[j + 1..j + 1 + |sub|];
    }
  }

  /** strings.Index: the position of the first occurrence of sub in s, or -1. */
  function Index(s: string, sub: string): (r: int)
    ensures r == -1 || (0 <= r && OccursAt(s, sub, r))
    ensures r >= 0 ==> forall j: nat :: j < r ==> !OccursAt(s, sub, j)
    ensures r == -1 ==> forall j: nat :: !OccursAt(s, sub, j)
    decreases |s|
  {
    if |s| < |sub| then -1
    else if s[..|sub|] == sub then 0
    else
      var k := Index(s[1..], sub);
      OccursInTail(s, sub);
      if k == -1 then -1 else k + 1
  }

  /** Index specialised to a one-character separator. */
  lemma IndexOfChar(s: string, c: char)
    ensures Index(s, [c]) == -1 <==> c !in s
    ensures Index(s, [c]) >= 0 ==>
              Index(s, [c]) < |s| && s[Index(s, [c])] == c && c !in s[..Index(s, [c])]
  {
    forall j: nat | j < |s| ensures OccursAt(s, [c], j) <==> s[j] == c {
      assert s[j..j + 1] == [s[j]];
    }
  }

  /** Behind a prefix free of c, the first c is the first c of the rest, moved by the prefix. */
  lemma IndexOfCharAfter(p: string, s: string, c: char)
    requires c !in p
    ensures Index(p + s, [c]) == if Index(s, [c]) == -1 then -1 else |p| + Index(s, [c])
  {
    var t := p + s;
    IndexOfChar(t, c);
    IndexOfChar(s, c);
    var i := Index(s, [c]);
    if i == -1 {
      forall k | 0 <= k < |t| ensures t[k] != c {
        if k >= |p| { assert t[k] == s[k - |p|]; }
      }
    } else {
      var n := |p| + i;
      assert OccursAt(t, [c], n) by { assert t[n..n + 1] == [c]; }
      forall k | 0 <= k < n ensures t[k] != c {
        if k >= |p| { assert t[k] == s[..i][k - |p|]; }
      }
      forall j: nat | j < n ensures !OccursAt(t, [c], j) {
        assert t[j..j + 1] == [t[j]];
      }
    }
  }

  /** strings.Contains */
  predicate Contains(s: string, sub: string) {
    Index(s, sub) != -1
  }

  /** The first result of strings.Cut: the part of s before the first sep, or all of s. */
  function Before(s: string, sep: string): string {
    var i := Index(s, sep);
    if i == -1 then s else s[..i]
  }

  /** Cutting at a character that does not occur leaves the string whole. */
  lemma BeforeAbsent(s: string, c: char)
    requires c !in s
    ensures Before(s, [c]) == s
  {
    IndexOfChar(s, c);
  }

  /** strings.LastIndex for a one-character separator. */
  function LastIndex(s: string, c: char): (r: int)
    ensures -1 <= r < |s|
    ensures r == -1 <==> c !in s
    ensures r >= 0 ==> r < |s| && s[r] == c && c !in s[r + 1..]
    decreases |s|
  {
    if s == [] then -1
    else if s[|s| - 1] == c then |s| - 1
    else
      var init := s[..|s| - 1];
      var r := LastIndex(init, c);
      assert s == init + [s[|s| - 1]];
      assert c in s <==> c in init;
      assert r >= 0 ==> s[r + 1..] == init[r + 1..] + [s[|s| - 1]];
      r
  }

  function LowerChar(c: char): char {
    if 'A' <= c <= 'Z' then (c as int + 32) as char else c
  }

  /** strings.ToLower, for ASCII letters. */
  function Lower(s: string): (r: string)
    ensures |r| == |s|
    ensures forall i :: 0 <= i < |r| ==> !('A' <= r[i] <= 'Z')
  {
    seq(|s|, i requires 0 <= i < |s| => LowerChar(s[i]))
  }

  predicate IsLowerWord(s: string) {
    forall i :: 0 <= i < |s| ==> 'a' <= s[i] <= 'z'
  }

  /** Lower-casing leaves a lower-case word as it is. */
  lemma LowerOfLowerWord(s: string)
    requires IsLowerWord(s)
    ensures Lower(s) == s
  {
  }

  predicate AllDigits(s: string) {
    forall i :: 0 <= i < |s| ==> '0' <= s[i] <= '9'
  }
}
