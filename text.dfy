/** String helpers with the meaning of the Python built-ins the guards use:
    `str.lower()`/`str.upper()` (restricted to ASCII letters), the substring
    test `sub in s`, and the position of the first occurrence (`str.find`). */
module Text {

  import opened Values

  function LowerChar(c: char): (r: char)
    ensures 'A' <= c <= 'Z' ==> r as int == c as int + 32
    ensures !('A' <= c <= 'Z') ==> r == c
  {
    if 'A' <= c <= 'Z' then (c as int + 32) as char else c
  }

  function UpperChar(c: char): (r: char)
    ensures 'a' <= c <= 'z' ==> r as int == c as int - 32
    ensures !('a' <= c <= 'z') ==> r == c
  {
    if 'a' <= c <= 'z' then (c as int - 32) as char else c
  }

  /** `s.lower()` on ASCII letters. */
  function Lower(s: string): (r: string)
    ensures |r| == |s|
    ensures forall i :: 0 <= i < |s| ==> r[i] == LowerChar(s[i])
  {
    seq(|s|, i requires 0 <= i < |s| => LowerChar(s[i]))
  }

  /** `s.upper()` on ASCII letters. */
  function Upper(s: string): (r: string)
    ensures |r| == |s|
    ensures forall i :: 0 <= i < |s| ==> r[i] == UpperChar(s[i])
  {
    seq(|s|, i requires 0 <= i < |s| => UpperChar(s[i]))
  }

  /** `sub` occurs in `s` starting at position `i`. */
  predicate OccursAt(s: string, sub: string, i: int)
  {
    0 <= i && i + |sub| <= |s| && s[i..i + |sub|] == sub
  }

  /** The first position at or after `from` where `sub` occurs in `s`. */
  function FindFrom(s: string, sub: string, from: nat): (r: Option<nat>)
    ensures r.Some? ==> from <= r.value && OccursAt(s, sub, r.value)
    ensures r.Some? ==> forall j :: from <= j < r.value ==> !OccursAt(s, sub, j)
    ensures r.None? ==> forall j :: from <= j ==> !OccursAt(s, sub, j)
    decreases |s| - from
  {
    if from + |sub| > |s| then None
    else if s[from..from + |sub|] == sub then Some(from)
    else FindFrom(s, sub, from + 1)
  }

  /** `s.find(sub)`: the first occurrence of `sub` in `s`, if any. */
  function Find(s: string, sub: string): (r: Option<nat>)
    ensures r.Some? ==> OccursAt(s, sub, r.value) && forall j :: 0 <= j < r.value ==> !OccursAt(s, sub, j)
    ensures r.None? <==> forall j :: !OccursAt(s, sub, j)
  {
    FindFrom(s, sub, 0)
  }

  /** Python's `sub in s`. */
  predicate Contains(s: string, sub: string)
  {
    Find(s, sub).Some?
  }

  lemma ContainsWitness(s: string, sub: string, i: int)
    requires OccursAt(s, sub, i)
    ensures Contains(s, sub)
  {
  }

  /** A character of `sub` that does not occur in `s` rules out every occurrence. */
  lemma MissingCharNotContained(s: string, sub: string, k: int)
    requires 0 <= k < |sub| && sub[k] !in s
    ensures !Contains(s, sub)
  {
    forall j ensures !OccursAt(s, sub, j) {
      if 0 <= j && j + |sub| <= |s| {
        assert s[j..j + |sub|][k] == s[j + k];
      }
    }
  }

  /** Lowering commutes with concatenation. */
  lemma LowerConcat(a: string, b: string)
    ensures Lower(a + b) == Lower(a) + Lower(b)
  {
  }

  /** A string contains whatever sits in its middle. */
  lemma ContainsMiddle(a: string, sub: string, c: string)
    ensures Contains(a + sub + c, sub)
  {
    assert (a + sub + c)[|a|..|a| + |sub|] == sub;
    ContainsWitness(a + sub + c, sub, |a|);
  }

  /** A character that is not an upper-case letter occurs in `s.lower()` only
      where it, or its upper-case form, occurs in `s`. */
  lemma LowerOmits(s: string, c: char)
    requires !('A' <= c <= 'Z')
    requires c !in s && UpperChar(c) !in s
    ensures c !in Lower(s)
  {
    forall i | 0 <= i < |s| ensures Lower(s)[i] != c {
      assert s[i] != c && s[i] != UpperChar(c);
    }
  }

  /** An occurrence survives text added on either side. */
  lemma ContainsExtend(s: string, sub: string, t: string)
    requires Contains(s, sub)
    ensures Contains(s + t, sub) && Contains(t + s, sub)
  {
    var i := Find(s, sub).value;
    assert (s + t)[i..i + |sub|] == s[i..i + |sub|];
    ContainsWitness(s + t, sub, i);
    assert (t + s)[|t| + i..|t| + i + |sub|] == s[i..i + |sub|];
    ContainsWitness(t + s, sub, |t| + i);
  }

  /** `s.split(c)[0]`: everything before the first `c`, or all of `s`. */
  function FirstSegment(s: string, c: char): (r: string)
    ensures c !in r
    ensures c !in s ==> r == s
    ensures c in s ==> |r| < |s| && s[|r|] == c
    ensures r == s[..|r|]
  {
    if s == [] then []
    else if s[0] == c then []
    else [s[0]] + FirstSegment(s[1..], c)
  }

  /** A segment without `c`, followed by `c`, is the first segment. */
  lemma {:induction false} FirstSegmentOf(a: string, c: char, b: string)
    requires c !in a
    ensures FirstSegment(a + [c] + b, c) == a
  {
    if a != [] {
      assert (a + [c] + b)[0] == a[0];
      assert (a + [c] + b)[1..] == a[1..] + [c] + b;
      FirstSegmentOf(a[1..], c, b);
    } else {
      assert a + [c] + b == [c] + b;
    }
  }
}
