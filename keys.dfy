/**
 * String keys of the form `${a}-${b}`, which both challenge tables use to
 * look up a pair of names in a string-keyed record.
 */
module PairKeys {
  /** The template string `${a}-${b}`. */
  function PairKey(a: string, b: string): (k: string)
    ensures |k| == |a| + |b| + 1
    ensures k[|a|] == '-'
  {
    a + "-" + b
  }

  /**
   * When x and y contain no dash, the key of x and y is made only from x and
   * y: whatever a and b are (dashes and all), their key equals it exactly
   * when a is x and b is y.
   */
  lemma {:induction false} PairKeyInjective(a: string, b: string, x: string, y: string)
    requires '-' !in x && '-' !in y
    ensures PairKey(a, b) == PairKey(x, y) <==> a == x && b == y
  {
    if PairKey(a, b) == PairKey(x, y) {
      // The only dash of the key of x and y is the one at |x|, and the key of
      // a and b has a dash at |a|; so |a| == |x| and both halves coincide.
      var k := PairKey(x, y);
      assert |a| == |x|;
      assert a == k[..|a|] == x;
      assert b == k[|a| + 1..] == y;
    }
  }
}
