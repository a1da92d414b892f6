/** Strings as the source's TypeScript uses them: lower-casing, substring and
    prefix tests, and the decimal rendering of a count. */
module Text {

  /** ASCII lower-casing of one character; every other character is kept. */
  function LowerChar(c: char): (r: char)
    ensures 'A' <= c <= 'Z' ==> r as int == c as int + 32
    ensures !('A' <= c <= 'Z') ==> r == c
    ensures !('A' <= r <= 'Z')
  {
    if 'A' <= c <= 'Z' then (c as int + 32) as char else c
  }

  /** `s.toLowerCase()`, restricted to the ASCII letters. */
  function Lower(s: string): (r: string)
    ensures |r| == |s|
    ensures forall i :: 0 <= i < |s| ==> r[i] == LowerChar(s[i])
  {
    if s == [] then [] else [LowerChar(s[0])] + Lower(s[1..])
  }

  /** `sub` occurs in `s` starting at index `i`. */
  predicate OccursAt(s: string, sub: string, i: nat) {
    i + |sub| <= |s| && s[i..i + |sub|] == sub
  }

  /** `s.includes(sub)`. */
  predicate Contains(s: string, sub: string) {
    exists i: nat | i <= |s| :: OccursAt(s, sub, i)
  }

  /** `s.startsWith(prefix)`. */
  predicate StartsWith(s: string, prefix: string) {
    |prefix| <= |s| && s[..|prefix|] == prefix
  }

  lemma LowerAppend(a: string, b: string)
    ensures Lower(a + b) == Lower(a) + Lower(b)
  {
    var l, r := Lower(a + b), Lower(a) + Lower(b);
    assert |l| == |r|;
    forall i | 0 <= i < |l| ensures l[i] == r[i] {
      if i < |a| { assert (a + b)[i] == a[i]; } else { assert (a + b)[i] == b[i - |a|]; }
    }
  }

  /** Lower-casing twice is lower-casing once. */
  lemma LowerIdempotent(s: string)
    ensures Lower(Lower(s)) == Lower(s)
  {
    var l := Lower(s);
    assert forall i :: 0 <= i < |l| ==> Lower(l)[i] == l[i];
  }

  lemma ContainsInLeft(a: string, b: string, sub: string)
    requires Contains(a, sub)
    ensures Contains(a + b, sub)
  {
    var i: nat :| i <= |a| && OccursAt(a, sub, i);
    assert (a + b)[i..i + |sub|] == a[i..i + |sub|];
    assert OccursAt(a + b, sub, i);
  }

  lemma ContainsInRight(a: string, b: string, sub: string)
    requires Contains(b, sub)
    ensures Contains(a + b, sub)
  {
    var i: nat :| i <= |b| && OccursAt(b, sub, i);
    var j := |a| + i;
    assert (a + b)[j..j + |sub|] == b[i..i + |sub|];
    assert OccursAt(a + b, sub, j);
  }

  /** A text found in the lowercased left part is found in the lowercased whole. */
  lemma LowerContainsLeft(a: string, b: string, sub: string)
    requires Contains(Lower(a), sub)
    ensures Contains(Lower(a + b), sub)
  {
    LowerAppend(a, b);
    ContainsInLeft(Lower(a), Lower(b), sub);
  }

  /** A text found in the lowercased right part is found in the lowercased whole. */
  lemma LowerContainsRight(a: string, b: string, sub: string)
    requires Contains(Lower(b), sub)
    ensures Contains(Lower(a + b), sub)
  {
    LowerAppend(a, b);
    ContainsInRight(Lower(a), Lower(b), sub);
  }

  /** `sub` is found in the lowercased `s` at `i` when the characters there
      lowercase to it. */
  lemma LowerOccurs(s: string, sub: string, i: nat)
    requires i + |sub| <= |s|
    requires forall k | 0 <= k < |sub| :: LowerChar(s[i + k]) == sub[k]
    ensures Contains(Lower(s), sub)
  {
    var l := Lower(s);
    assert l[i..i + |sub|] == sub;
    assert OccursAt(l, sub, i);
  }

  lemma ContainsItself(s: string)
    ensures Contains(s, s)
  {
    assert OccursAt(s, s, 0);
  }

  /** A non-empty text is never found in the empty string. */
  lemma NothingInEmpty(sub: string)
    requires sub != []
    ensures !Contains("", sub)
  {
  }

  /** Two prefixes that differ at some position cannot both start `s`. */
  lemma PrefixClash(s: string, p: string, q: string, k: nat)
    requires StartsWith(s, p) && k < |p| && k < |q| && p[k] != q[k]
    ensures !StartsWith(s, q)
  {
    assert s[k] == s[..|p|][k] == p[k];
  }

  /** Containment is transitive: what `outer` holds at `offset`, any text
      holding `outer` holds too. */
  lemma ContainsWithin(m: string, outer: string, inner: string, offset: nat)
    requires Contains(m, outer)
    requires offset + |inner| <= |outer| && outer[offset..offset + |inner|] == inner
    ensures Contains(m, inner)
  {
    var i: nat :| i <= |m| && OccursAt(m, outer, i);
    forall k | 0 <= k < |inner| ensures m[i + offset + k] == inner[k] {
      assert m[i..i + |outer|][offset + k] == outer[offset + k];
    }
    assert OccursAt(m, inner, i + offset);
  }

  /** A prefix is also a substring. */
  lemma StartsWithContains(s: string, prefix: string)
    requires StartsWith(s, prefix)
    ensures Contains(s, prefix)
  {
    assert OccursAt(s, prefix, 0);
  }

  const Digits := "0123456789"

  /** The decimal rendering of a natural number, as `${n}` gives it. */
  function NatToString(n: nat): (r: string)
    ensures |r| >= 1
    ensures forall i :: 0 <= i < |r| ==> r[i] in Digits
    decreases n
  {
    if n < 10 then [Digits[n]] else NatToString(n / 10) + [Digits[n % 10]]
  }
}
