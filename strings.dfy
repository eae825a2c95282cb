/** Text helpers shared by the prompt builders: substring occurrence, character
    repetition (Python's `c * n`) and separator joining (Python's `sep.join(parts)`). */
module Strings {

  /** `needle` occurs in `hay` starting at position `k`. */
  predicate OccursAt(needle: string, hay: string, k: int)
  {
    0 <= k && k + |needle| <= |hay| && hay[k..k + |needle|] == needle
  }

  /** `needle` occurs somewhere in `hay` (Python's `needle in hay`). */
  predicate Contains(hay: string, needle: string)
  {
    exists k :: 0 <= k <= |hay| && OccursAt(needle, hay, k)
  }

  lemma InfixOccurs(a: string, n: string, b: string)
    ensures OccursAt(n, a + n + b, |a|)
  {
    assert (a + n + b)[|a|..|a| + |n|] == n;
  }

  lemma AppendAssoc4(a: string, b: string, c: string, d: string)
    ensures a + (b + (c + d)) == a + b + c + d
  {
  }

  /** Where the three inserted texts sit in a text built from fixed pieces
      around them: each right after the pieces and texts before it. */
  lemma InsertedAt(p0: string, x: string, p1: string, y: string, p2: string, z: string, p3: string)
    ensures var t := p0 + x + p1 + y + p2 + z + p3;
            var i := |p0|;
            var j := i + |x| + |p1|;
            var k := j + |y| + |p2|;
            OccursAt(x, t, i) && OccursAt(y, t, j) && OccursAt(z, t, k)
  {
    var t := p0 + x + p1 + y + p2 + z + p3;
    assert t == p0 + x + (p1 + y + p2 + z + p3);
    InfixOccurs(p0, x, p1 + y + p2 + z + p3);
    assert t == (p0 + x + p1) + y + (p2 + z + p3);
    InfixOccurs(p0 + x + p1, y, p2 + z + p3);
    InfixOccurs(p0 + x + p1 + y + p2, z, p3);
  }

  /** Each of the three inserted texts occurs in a text built from fixed
      pieces around them. */
  lemma ContainsInserted(p0: string, x: string, p1: string, y: string, p2: string, z: string, p3: string)
    ensures var t := p0 + x + p1 + y + p2 + z + p3;
            Contains(t, x) && Contains(t, y) && Contains(t, z)
  {
    InsertedAt(p0, x, p1, y, p2, z, p3);
  }

  /** The text inserted first sits right after the first fixed piece; the
      text inserted last, with only a fixed piece before it, is the suffix
      of the result. */
  lemma EndsWithInserted(p0: string, x: string, p1: string, y: string)
    ensures var t := p0 + x + p1 + y;
            OccursAt(x, t, |p0|) && Contains(t, x)
            && |t| - |y| == |p0| + |x| + |p1| && OccursAt(y, t, |t| - |y|)
  {
    var t := p0 + x + p1 + y;
    assert t == p0 + x + (p1 + y);
    InfixOccurs(p0, x, p1 + y);
    InfixOccurs(p0 + x + p1, y, "");
    assert p0 + x + p1 + y + "" == t;
  }

  /** `c * n` in Python: the string of `n` copies of `c`. */
  function Repeat(c: char, n: nat): (r: string)
    ensures |r| == n
    ensures forall i :: 0 <= i < n ==> r[i] == c
  {
    if n == 0 then "" else [c] + Repeat(c, n - 1)
  }

  /** `sep.join(parts)` in Python. */
  function Join(sep: string, parts: seq<string>): string
  {
    if |parts| == 0 then ""
    else if |parts| == 1 then parts[0]
    else Join(sep, parts[..|parts| - 1]) + sep + parts[|parts| - 1]
  }

  /** Where the `i`-th part starts in `Join(sep, parts)`: every earlier part
      followed by one separator. */
  function JoinOffset(sep: string, parts: seq<string>, i: nat): nat
    requires i <= |parts|
  {
    if i == 0 then 0 else JoinOffset(sep, parts, i - 1) + |parts[i - 1]| + |sep|
  }

  lemma {:induction false} JoinOffsetPrefix(sep: string, parts: seq<string>, n: nat, i: nat)
    requires i <= n <= |parts|
    ensures JoinOffset(sep, parts[..n], i) == JoinOffset(sep, parts, i)
  {
    if i > 0 {
      JoinOffsetPrefix(sep, parts, n, i - 1);
    }
  }

  /** The joined text is exactly as long as the parts with one separator
      between each neighbouring pair. */
  lemma {:induction false} JoinLength(sep: string, parts: seq<string>)
    requires |parts| > 0
    ensures |Join(sep, parts)| + |sep| == JoinOffset(sep, parts, |parts|)
  {
    var n := |parts|;
    if n > 1 {
      var init := parts[..n - 1];
      JoinLength(sep, init);
      JoinOffsetPrefix(sep, parts, n - 1, n - 1);
    }
  }

  /** Every part appears verbatim in the joined text at its offset, the parts
      appear in their given order, and one separator follows every part but
      the last. */
  lemma {:induction false} JoinLayout(sep: string, parts: seq<string>, i: nat)
    requires i < |parts|
    ensures OccursAt(parts[i], Join(sep, parts), JoinOffset(sep, parts, i))
    ensures i + 1 < |parts| ==>
              OccursAt(sep, Join(sep, parts), JoinOffset(sep, parts, i) + |parts[i]|)
    ensures JoinOffset(sep, parts, i) + |parts[i]| <= JoinOffset(sep, parts, i + 1)
  {
    var n := |parts|;
    if n == 1 {
      assert Join(sep, parts)[0..|parts[0]|] == parts[0];
    } else if i == n - 1 {
      JoinLayoutLast(sep, parts);
    } else {
      JoinLayout(sep, parts[..n - 1], i);
      JoinLayoutExtend(sep, parts, i);
    }
  }

  /** The last part sits at the end of the joined text. */
  lemma JoinLayoutLast(sep: string, parts: seq<string>)
    requires |parts| > 1
    ensures OccursAt(parts[|parts| - 1], Join(sep, parts), JoinOffset(sep, parts, |parts| - 1))
  {
    var n := |parts|;
    var init, last := parts[..n - 1], parts[n - 1];
    JoinLength(sep, init);
    JoinOffsetPrefix(sep, parts, n - 1, n - 1);
    InfixOccurs(Join(sep, init) + sep, last, "");
    assert Join(sep, init) + sep + last + "" == Join(sep, parts);
  }

  /** Appending the last part: the join of the others, a separator, the part. */
  lemma JoinSnoc(sep: string, parts: seq<string>)
    requires |parts| > 1
    ensures Join(sep, parts) == Join(sep, parts[..|parts| - 1]) + (sep + parts[|parts| - 1])
  {
  }

  /** An occurrence survives appending text after it. */
  lemma OccursAtAppend(n: string, a: string, k: int, post: string)
    requires OccursAt(n, a, k)
    ensures OccursAt(n, a + post, k)
  {
    assert (a + post)[k..k + |n|] == a[k..k + |n|];
  }

  /** What holds of a part in the join of all parts but the last still holds
      once the last part is appended. */
  lemma JoinLayoutExtend(sep: string, parts: seq<string>, i: nat)
    requires i + 1 < |parts|
    requires var init := parts[..|parts| - 1];
             OccursAt(init[i], Join(sep, init), JoinOffset(sep, init, i))
             && (i + 1 < |init| ==> OccursAt(sep, Join(sep, init), JoinOffset(sep, init, i) + |init[i]|))
    ensures OccursAt(parts[i], Join(sep, parts), JoinOffset(sep, parts, i))
    ensures OccursAt(sep, Join(sep, parts), JoinOffset(sep, parts, i) + |parts[i]|)
  {
    var n := |parts|;
    var init, last := parts[..n - 1], parts[n - 1];
    var joined := Join(sep, init);
    JoinSnoc(sep, parts);
    JoinOffsetPrefix(sep, parts, n - 1, i);
    assert init[i] == parts[i];
    OccursAtAppend(parts[i], joined, JoinOffset(sep, parts, i), sep + last);
    if i + 1 < n - 1 {
      OccursAtAppend(sep, joined, JoinOffset(sep, parts, i) + |parts[i]|, sep + last);
    } else {
      JoinSeparatorBeforeLast(sep, parts);
    }
  }

  /** The separator before the last part follows the part before it. */
  lemma JoinSeparatorBeforeLast(sep: string, parts: seq<string>)
    requires |parts| > 1
    ensures OccursAt(sep, Join(sep, parts), JoinOffset(sep, parts, |parts| - 2) + |parts[|parts| - 2]|)
  {
    var n := |parts|;
    var init := parts[..n - 1];
    JoinSnoc(sep, parts);
    JoinLength(sep, init);
    JoinOffsetPrefix(sep, parts, n - 1, n - 1);
    InfixOccurs(Join(sep, init), sep, parts[n - 1]);
  }
}
