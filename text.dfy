/** Substring containment on strings: the meaning of Python's `needle in hay`
    when both operands are `str`. Every gate and filter of the service is built
    on this one test. */
module Text {

  /** `needle` occurs in `hay` starting at position `i`. */
  ghost predicate OccursAt(needle: string, hay: string, i: int)
  {
    0 <= i && i + |needle| <= |hay| && hay[i..i + |needle|] == needle
  }

  /** The declarative meaning of substring containment. */
  ghost predicate IsSubstring(needle: string, hay: string)
  {
    exists i :: OccursAt(needle, hay, i)
  }

  /** An occurrence after the first position of `hay` is an occurrence in its tail. */
  lemma OccursInTail(needle: string, hay: string)
    requires |hay| > 0
    ensures IsSubstring(needle, hay[1..]) ==> IsSubstring(needle, hay)
    ensures IsSubstring(needle, hay) && !OccursAt(needle, hay, 0) ==> IsSubstring(needle, hay[1..])
  {
    if IsSubstring(needle, hay[1..]) {
      var i :| OccursAt(needle, hay[1..], i);
      assert hay[i + 1..i + 1 + |needle|] == hay[1..][i..i + |needle|];
      assert OccursAt(needle, hay, i + 1);
    }
    if IsSubstring(needle, hay) && !OccursAt(needle, hay, 0) {
      var i :| OccursAt(needle, hay, i);
      assert i >= 1;
      assert hay[1..][i - 1..i - 1 + |needle|] == hay[i..i + |needle|];
      assert OccursAt(needle, hay[1..], i - 1);
    }
  }

  /** Python's `needle in hay`: scans `hay` left to right for an occurrence. */
  function Contains(needle: string, hay: string): (b: bool)
    ensures b <==> IsSubstring(needle, hay)
    ensures b ==> |needle| <= |hay|
    ensures needle == [] ==> b
    decreases |hay|
  {
    if |needle| <= |hay| && hay[..|needle|] == needle then
      assert OccursAt(needle, hay, 0);
      true
    else if |hay| <= |needle| then
      assert !IsSubstring(needle, hay) by {
        if i :| OccursAt(needle, hay, i) {
          assert i == 0;
        }
      }
      false
    else
      OccursInTail(needle, hay);
      Contains(needle, hay[1..])
  }

  /** Every string contains itself. */
  lemma ContainsSelf(s: string)
    ensures Contains(s, s)
  {
    assert s[..|s|] == s;
  }

  /** Containment is transitive: an occurrence inside an occurrence is an occurrence. */
  lemma ContainsTransitive(a: string, b: string, c: string)
    requires Contains(a, b) && Contains(b, c)
    ensures Contains(a, c)
  {
    var i :| OccursAt(a, b, i);
    var j :| OccursAt(b, c, j);
    forall k | 0 <= k < |a|
      ensures c[j + i..j + i + |a|][k] == a[k]
    {
      assert a[k] == b[i + k] == c[j + i + k];
    }
    assert OccursAt(a, c, j + i);
  }

  /** A string of the same length as `hay` occurs in it only if it is `hay`. */
  lemma ContainsSameLength(needle: string, hay: string)
    requires |needle| == |hay|
    ensures Contains(needle, hay) <==> needle == hay
  {
    if Contains(needle, hay) {
      var i :| OccursAt(needle, hay, i);
      assert i == 0;
      assert hay[..|hay|] == hay;
    } else {
      assert hay[..|hay|] == hay;
    }
  }
}
