/** Small shared vocabulary. */
module Prelude {
  datatype Option<+T> = None | Some(value: T)

  /** The sequence `s` with its last element removed. */
  function Front<T>(s: seq<T>): seq<T>
    requires s != []
  {
    s[..|s| - 1]
  }

  function Last<T>(s: seq<T>): T
    requires s != []
  {
    s[|s| - 1]
  }

  lemma NoMultipleBetween(x: int, k: int, d: int)
    requires x == k * d && -d < x < d
    ensures k == 0
  {
    assert k >= 1 ==> k * d >= d by {
      assert k >= 1 ==> (k - 1) * d >= 0;
    }
    assert k <= -1 ==> k * d <= -d by {
      assert k <= -1 ==> (k + 1) * d <= 0;
    }
  }

  /** Quotient and remainder are unique. */
  lemma QuotientIs(n: int, d: int, q: int, r: int)
    requires n == q * d + r && 0 <= r < d
    ensures n / d == q && n % d == r
  {
    assert n % d - r == (q - n / d) * d;
    NoMultipleBetween(n % d - r, q - n / d, d);
  }
}
