/** Facts about sequence concatenation used to combine call logs. */
module Sequences {

  lemma AppendAssoc<T>(a: seq<T>, b: seq<T>, c: seq<T>)
    ensures a + b + c == a + (b + c)
  {
  }

  /** A log that starts empty and grows by `x1`, `x2`, `x3` and `x4` ends as their concatenation. */
  lemma GrownByFour<T>(b0: seq<T>, b1: seq<T>, b2: seq<T>, b3: seq<T>, b4: seq<T>,
                       x1: seq<T>, x2: seq<T>, x3: seq<T>, x4: seq<T>)
    requires b0 == [] && b1 == b0 + x1 && b2 == b1 + x2 && b3 == b2 + x3 && b4 == b3 + x4
    ensures b4 == x1 + x2 + x3 + x4
  {
    assert b1 == x1;
  }

  /** A log equal to `prefix` that then grows by `x` ends as `prefix + x`. */
  lemma GrownFrom<T>(before: seq<T>, after: seq<T>, prefix: seq<T>, x: seq<T>)
    requires before == prefix && after == before + x
    ensures after == prefix + x
  {
  }
}
