/** The two library extensions at the top of main.swift: `String.times`
    and `Collection.randomElement`, together with the model of the
    system's random source. */
module Extensions {

  datatype Option<+T> = None | Some(value: T)

  /** `arc4random_uniform(upper)`: a value in `0 ..< upper`. The random
      source is an oracle: `draw` is whatever it produced, and the model
      reduces it into range. A draw already in range is taken as it is,
      so every index can be produced. */
  function Uniform(upper: nat, draw: nat): (k: nat)
    requires 0 < upper
    ensures k < upper
    ensures draw < upper ==> k == draw
  {
    draw % upper
  }

  /** `randomElement()`: nil exactly when the collection is empty,
      otherwise the element at the index the random source picked. */
  function RandomElement<T>(s: seq<T>, draw: nat): (r: Option<T>)
    ensures r.None? <==> |s| == 0
    ensures r.Some? ==> r.value in s
    ensures r.Some? ==> r.value == s[Uniform(|s|, draw)]
  {
    if |s| == 0 then None else Some(s[Uniform(|s|, draw)])
  }

  /** Every element of a non-empty collection can be picked. */
  lemma RandomElementOnto<T>(s: seq<T>, i: nat)
    requires i < |s|
    ensures RandomElement(s, i) == Some(s[i])
  {
  }

  /** `s.times(n)`: the string repeated `n` times. The closed range
      `1...n` traps for `n < 1`, so callers must pass at least 1. */
  function Times(s: string, n: int): (r: string)
    requires 1 <= n
    ensures |r| == n * |s|
    decreases n
  {
    if n == 1 then s else s + Times(s, n - 1)
  }

  /** Character `i` of the repetition is character `i mod |s|` of `s`. */
  lemma {:induction false} TimesAt(s: string, n: int, i: nat)
    requires 1 <= n && i < n * |s|
    ensures Times(s, n)[i] == s[i % |s|]
    decreases n
  {
    if n == 1 || i < |s| {
      ModUnique(i, |s|, 0, i);
    } else {
      MulStep(n, |s|);
      TimesAt(s, n - 1, i - |s|);
      ModUnique(i, |s|, (i - |s|) / |s| + 1, (i - |s|) % |s|);
    }
  }

  /** Euclidean remainder is fixed by any quotient-remainder split. */
  lemma ModUnique(x: int, m: int, q: int, r: int)
    requires 0 < m && 0 <= r < m && x == q * m + r
    ensures x % m == r
  {
    var q2, r2 := x / m, x % m;
    assert (q2 - q) * m == r - r2;
    MulBound(q2 - q, m);
  }

  lemma MulBound(d: int, m: int)
    requires 0 < m
    ensures d == 0 || d * m <= -m || d * m >= m
  {
  }

  lemma MulStep(n: int, m: int)
    ensures n * m == m + (n - 1) * m
  {
  }

  /** Repeating `a` times and then `b` times is repeating `a + b` times. */
  lemma {:induction false} TimesAdd(s: string, a: int, b: int)
    requires 1 <= a && 1 <= b
    ensures Times(s, a) + Times(s, b) == Times(s, a + b)
    decreases a
  {
    if a > 1 {
      TimesAdd(s, a - 1, b);
      calc {
        Times(s, a) + Times(s, b);
        (s + Times(s, a - 1)) + Times(s, b);
        s + (Times(s, a - 1) + Times(s, b));
        s + Times(s, a - 1 + b);
      }
    }
  }
}
