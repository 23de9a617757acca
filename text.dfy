/**
 * String operations the classifier relies on: ASCII lower-casing
 * (`String.prototype.toLowerCase`) and substring containment
 * (`String.prototype.includes`).
 */
module Text {

  /** An ASCII upper-case letter: the only characters lower-casing changes. */
  predicate IsUpper(c: char) {
    'A' <= c <= 'Z'
  }

  /** ASCII lower-casing of one character. */
  function Lower(c: char): (r: char)
    ensures !IsUpper(r)
    ensures IsUpper(c) ==> 'a' <= r <= 'z' && r as int - 'a' as int == c as int - 'A' as int
    ensures !IsUpper(c) ==> r == c
  {
    if IsUpper(c) then (c as int - 'A' as int + 'a' as int) as char else c
  }

  /** ASCII lower-casing of a string, character by character. */
  function LowerStr(s: string): (r: string)
    ensures |r| == |s|
    ensures forall i :: 0 <= i < |s| ==> r[i] == Lower(s[i])
  {
    seq(|s|, i requires 0 <= i < |s| => Lower(s[i]))
  }

  /** A string with no ASCII upper-case letter. */
  predicate IsLowerCase(s: string) {
    forall i :: 0 <= i < |s| ==> !IsUpper(s[i])
  }

  /** Lower-casing yields a lower-case string and leaves lower-case strings alone. */
  lemma LowerStrNormalizes(s: string)
    ensures IsLowerCase(LowerStr(s))
    ensures LowerStr(LowerStr(s)) == LowerStr(s)
    ensures IsLowerCase(s) ==> LowerStr(s) == s
  {
  }

  /** `sub` occurs in `s` starting at index `i`. */
  predicate OccursAt(sub: string, s: string, i: int) {
    0 <= i && i + |sub| <= |s| && s[i..i + |sub|] == sub
  }

  /** Specification of containment: `sub` occurs somewhere in `s`. */
  ghost predicate IsSubstring(sub: string, s: string) {
    exists i :: OccursAt(sub, s, i)
  }

  /** Once the first position is ruled out, `sub` occurs in `s` iff it occurs in `s[1..]`. */
  lemma {:induction false} SubstringOfTail(sub: string, s: string)
    requires 0 < |s| && !OccursAt(sub, s, 0)
    ensures IsSubstring(sub, s) <==> IsSubstring(sub, s[1..])
  {
    if IsSubstring(sub, s) {
      var i :| OccursAt(sub, s, i);
      assert 0 < i;
      assert s[1..][i - 1..i - 1 + |sub|] == s[i..i + |sub|];
      assert OccursAt(sub, s[1..], i - 1);
    }
    if IsSubstring(sub, s[1..]) {
      var i :| OccursAt(sub, s[1..], i);
      assert s[1..][i..i + |sub|] == s[i + 1..i + 1 + |sub|];
      assert OccursAt(sub, s, i + 1);
    }
  }

  /** `s.includes(sub)`: scans `s` left to right for an occurrence of `sub`. */
  function Includes(s: string, sub: string): (r: bool)
    ensures r <==> IsSubstring(sub, s)
    decreases |s|
  {
    if |sub| > |s| then
      false
    else if s[..|sub|] == sub then
      assert OccursAt(sub, s, 0);
      true
    else
      SubstringOfTail(sub, s);
      Includes(s[1..], sub)
  }

  /** Containment is transitive: an occurrence inside an occurrence is an occurrence. */
  lemma {:induction false} SubstringTransitive(a: string, b: string, s: string)
    requires IsSubstring(a, b) && IsSubstring(b, s)
    ensures IsSubstring(a, s)
  {
    var i :| OccursAt(a, b, i);
    var j :| OccursAt(b, s, j);
    forall k | 0 <= k < |a| ensures s[j + i + k] == a[k] {
      assert b[i + k] == a[k];
      assert s[j + (i + k)] == b[i + k];
    }
    assert s[j + i..j + i + |a|] == a;
    assert OccursAt(a, s, j + i);
  }

  /** A string lacking the first character of `sub` does not contain `sub`. */
  lemma NotSubstringWithoutFirstChar(sub: string, s: string)
    requires sub != [] && forall i :: 0 <= i < |s| ==> s[i] != sub[0]
    ensures !IsSubstring(sub, s)
  {
    forall i | 0 <= i && i + |sub| <= |s| ensures !OccursAt(sub, s, i) {
      assert s[i..i + |sub|][0] == s[i];
    }
  }
}
