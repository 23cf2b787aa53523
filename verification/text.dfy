/** The two string operations the search filter uses: `toLowerCase` and `includes`. */
module Text {

  predicate IsUpper(c: char) {
    'A' <= c <= 'Z'
  }

  /** Lower-cases one character; only the ASCII letters A-Z are mapped. */
  function LowerChar(c: char): char {
    if IsUpper(c) then (c as int + 32) as char else c
  }

  /** `String.prototype.toLowerCase` restricted to ASCII: one character in, one character out. */
  function Lower(s: string): (r: string)
    ensures |r| == |s|
    ensures forall i :: 0 <= i < |s| ==> r[i] == LowerChar(s[i])
    ensures forall i :: 0 <= i < |r| ==> !IsUpper(r[i])
    decreases |s|
  {
    if |s| == 0 then "" else [LowerChar(s[0])] + Lower(s[1..])
  }

  /** `sub` sits in `s` starting at index `i`. */
  predicate OccursAt(s: string, sub: string, i: int) {
    0 <= i && i + |sub| <= |s| && s[i..i + |sub|] == sub
  }

  /** `String.prototype.includes`: `sub` occurs somewhere in `s`; the empty string
      occurs in every string. */
  function Includes(s: string, sub: string): (r: bool)
    ensures r <==> exists i :: OccursAt(s, sub, i)
    decreases |s|
  {
    if |sub| > |s| then false
    else if s[..|sub|] == sub then
      assert OccursAt(s, sub, 0);
      true
    else
      var found := Includes(s[1..], sub);
      OccursShift(s, sub);
      found
  }

  /** An occurrence in `s` other than at index 0 is an occurrence in `s[1..]`, one place earlier. */
  lemma OccursShift(s: string, sub: string)
    requires |s| > 0
    requires !OccursAt(s, sub, 0)
    ensures (exists i :: OccursAt(s, sub, i)) <==> (exists i :: OccursAt(s[1..], sub, i))
  {
    if i :| OccursAt(s, sub, i) {
      assert s[1..][i - 1..i - 1 + |sub|] == s[i..i + |sub|];
      assert OccursAt(s[1..], sub, i - 1);
    }
    if i :| OccursAt(s[1..], sub, i) {
      assert s[1..][i..i + |sub|] == s[i + 1..i + 1 + |sub|];
      assert OccursAt(s, sub, i + 1);
    }
  }

  /** Lower-casing twice is lower-casing once. */
  lemma LowerIdempotent(s: string)
    ensures Lower(Lower(s)) == Lower(s)
  {
  }

  /** Lower-casing commutes with taking a slice. */
  lemma LowerSlice(s: string, i: int, j: int)
    requires 0 <= i <= j <= |s|
    ensures Lower(s)[i..j] == Lower(s[i..j])
  {
  }

  /** A case-sensitive occurrence is also an occurrence once both sides are lower-cased. */
  lemma OccursLower(s: string, sub: string, i: int)
    requires OccursAt(s, sub, i)
    ensures OccursAt(Lower(s), Lower(sub), i)
  {
    LowerSlice(s, i, i + |sub|);
  }

  /** The empty string is included in every string. */
  lemma IncludesEmpty(s: string)
    ensures Includes(s, "")
  {
    assert OccursAt(s, "", 0);
  }
}
