/** Facts about sequences, sets and products that several modules share. */
module Basics {
  const U64_MAX: nat := 0xffff_ffff_ffff_ffff

  lemma ConcatAssoc<T>(a: seq<T>, b: seq<T>, c: seq<T>)
    ensures (a + b) + c == a + (b + c)
  {
  }

  lemma SomeMember<T>(s: set<T>) returns (x: T)
    requires s != {}
    ensures x in s
  {
    x :| x in s;
  }

  /** A larger factor is larger by at least one whole step. */
  lemma MulStep(a: int, b: int, w: nat)
    requires a < b
    ensures a * w + w <= b * w
  {
    assert (b - a - 1) * w >= 0;
    assert (b - a - 1) * w == b * w - a * w - w;
  }
}
