/** Small building blocks shared by the model of the bot: an optional value and
    searching a string for a character. */
module Basics {

  datatype Option<T> = None | Some(value: T)

  /** Position of the first `c` in `s`, or `|s|` when `s` has none. */
  function IndexOf(s: string, c: char): (i: nat)
    ensures i <= |s|
    ensures c !in s[..i]
    ensures i < |s| ==> s[i] == c
  {
    if s == [] then 0
    else if s[0] == c then 0
    else
      var j := IndexOf(s[1..], c);
      assert s[..j + 1] == [s[0]] + s[1..][..j];
      1 + j
  }

  /** Skipping a stretch without `c` moves the first `c` by exactly that stretch. */
  lemma {:induction false} IndexOfAfter(a: string, b: string, c: char)
    requires c !in a
    ensures IndexOf(a + b, c) == |a| + IndexOf(b, c)
  {
    if a == [] {
      assert a + b == b;
    } else {
      assert (a + b)[0] == a[0];
      assert (a + b)[1..] == a[1..] + b;
      IndexOfAfter(a[1..], b, c);
    }
  }

  /** The first `c` of `a + [c] + b`, when `a` holds none, is the one right after `a`. */
  lemma IndexOfDelimiter(a: string, b: string, c: char)
    requires c !in a
    ensures IndexOf(a + [c] + b, c) == |a|
  {
    assert a + [c] + b == a + ([c] + b);
    IndexOfAfter(a, [c] + b, c);
  }
}
