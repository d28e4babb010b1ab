/** Byte strings and substring containment: the `needle in haystack` test that
    the doctor applies to captured stderr bytes and to exception text. */
module Substring {
  import opened Wrappers

  /** One element of a Python `bytes` value. */
  type Byte = b: int | 0 <= b < 0x100

  /** The bytes of a `b'...'` literal. The doctor's literals are ASCII, whose
      characters are single bytes equal to their code points; any other
      character is cut to its low byte. */
  function AsciiBytes(s: string): (r: seq<Byte>)
    ensures |r| == |s|
    ensures forall i | 0 <= i < |s| && s[i] < 128 as char :: r[i] == s[i] as int
  {
    seq(|s|, i requires 0 <= i < |s| => s[i] as int % 0x100)
  }

  /** `needle` appears in `hay` starting at position `i`. */
  predicate OccursAt<T(==)>(hay: seq<T>, needle: seq<T>, i: nat) {
    i + |needle| <= |hay| && hay[i..i + |needle|] == needle
  }

  /** Python's `needle in hay` for `bytes` and for `str`. */
  predicate Contains<T(==)>(hay: seq<T>, needle: seq<T>) {
    exists i: nat | i <= |hay| :: OccursAt(hay, needle, i)
  }

  /** A needle is found wherever it is written between two other strings. */
  lemma ContainsInfix<T>(prefix: seq<T>, needle: seq<T>, suffix: seq<T>)
    ensures Contains(prefix + needle + suffix, needle)
  {
    var hay := prefix + needle + suffix;
    assert hay[|prefix|..|prefix| + |needle|] == needle;
    assert OccursAt(hay, needle, |prefix|);
  }

  /** Whatever is found in `s` is still found once text is added on either
      side of `s`. */
  lemma {:induction false} ContainsExtended<T>(left: seq<T>, s: seq<T>, right: seq<T>, needle: seq<T>)
    requires Contains(s, needle)
    ensures Contains(left + s, needle)
    ensures Contains(s + right, needle)
    ensures Contains(left + s + right, needle)
  {
    var i: nat :| i <= |s| && OccursAt(s, needle, i);
    var j := |left| + i;
    assert (left + s)[j..j + |needle|] == s[i..i + |needle|];
    assert OccursAt(left + s, needle, j);
    assert (s + right)[i..i + |needle|] == s[i..i + |needle|];
    assert OccursAt(s + right, needle, i);
    assert (left + s + right)[j..j + |needle|] == s[i..i + |needle|];
    assert OccursAt(left + s + right, needle, j);
  }

  /** A naive left-to-right search: the position of the first occurrence of
      `needle` in `hay`, or None when `needle in hay` is false. */
  method Find<T(==)>(hay: seq<T>, needle: seq<T>) returns (at: Option<nat>)
    ensures at.None? <==> !Contains(hay, needle)
    ensures at.Some? ==> OccursAt(hay, needle, at.value)
    ensures at.Some? ==> forall j: nat | j < at.value :: !OccursAt(hay, needle, j)
  {
    var i: nat := 0;
    while i + |needle| <= |hay|
      invariant forall j: nat | j < i :: !OccursAt(hay, needle, j)
      decreases |hay| - i
    {
      var k := 0;
      while k < |needle| && hay[i + k] == needle[k]
        invariant 0 <= k <= |needle|
        invariant hay[i..i + k] == needle[..k]
      {
        assert hay[i..i + k + 1] == hay[i..i + k] + [hay[i + k]];
        assert needle[..k + 1] == needle[..k] + [needle[k]];
        k := k + 1;
      }
      if k == |needle| {
        assert needle[..k] == needle;
        assert OccursAt(hay, needle, i);
        return Some(i);
      }
      assert hay[i..i + |needle|][k] != needle[k];
      i := i + 1;
    }
    assert forall j: nat | i <= j :: !OccursAt(hay, needle, j);
    return None;
  }
}
