/** Cosine similarity over real numbers. */
module Similarity {

  /** The part of a product of two vectors that their first `n` places contribute. */
  function Dot(a: seq<real>, b: seq<real>, n: nat): real
    requires n <= |a| && n <= |b|
  {
    if n == 0 then 0.0 else Dot(a, b, n - 1) + a[n - 1] * b[n - 1]
  }

  /** `root` stands for math.Sqrt. */
  ghost predicate IsRoot(root: real -> real) { forall x | x >= 0.0 :: root(x) >= 0.0 && root(x) * root(x) == x }

  function Cosine(root: real -> real, a: seq<real>, b: seq<real>): real
    requires IsRoot(root)
  {
    if a == [] || b == [] || |a| != |b| then 0.0
    else
      var normA, normB := Dot(a, a, |a|), Dot(b, b, |b|);
      if normA == 0.0 || normB == 0.0 then 0.0
      else
        NormNonNegative(a, |a|);
        NormNonNegative(b, |b|);
        RootsPositive(root, normA, normB);
        Dot(a, b, |a|) / (root(normA) * root(normB))
  }

  lemma {:induction false} NormNonNegative(a: seq<real>, n: nat)
    requires n <= |a|
    ensures Dot(a, a, n) >= 0.0
  {
    if n > 0 {
      NormNonNegative(a, n - 1);
      Square(a[n - 1]);
    }
  }

  lemma Square(x: real)
    ensures x * x >= 0.0
  {
  }

  lemma PositiveProduct(u: real, v: real)
    requires u > 0.0 && v > 0.0
    ensures u * v > 0.0
  {
  }

  lemma RootsPositive(root: real -> real, x: real, y: real)
    requires IsRoot(root) && x > 0.0 && y > 0.0
    ensures root(x) > 0.0 && root(y) > 0.0 && root(x) * root(y) > 0.0
  {
    assert root(x) * root(x) == x && root(y) * root(y) == y;
    PositiveProduct(root(x), root(y));
  }

  lemma SquareGrows(s: real, t: real)
    requires s > t >= 0.0
    ensures s * s > t * t
  {
    PositiveProduct(s - t, s + t);
    assert (s - t) * (s + t) == s * s - t * t;
  }

  lemma Between(s: real, t: real)
    requires s * s <= t * t && t >= 0.0
    ensures -t <= s <= t
  {
    assert (-s) * (-s) == s * s;
    if s > t {
      SquareGrows(s, t);
    } else if -s > t {
      SquareGrows(-s, t);
    }
  }

  /** Twice the product of two roots is at most the sum of their squares, without roots. */
  lemma MeanBound(d: real, p: real, q: real)
    requires p >= 0.0 && q >= 0.0 && d * d <= p * q
    ensures 2.0 * d <= p + q
  {
    Square(p - q);
    assert (p + q) * (p + q) == (p - q) * (p - q) + 4.0 * (p * q);
    assert (2.0 * d) * (2.0 * d) == 4.0 * (d * d);
    Between(2.0 * d, p + q);
  }

  lemma Product(a: real, b: real)
    requires a >= 0.0 && b >= 0.0
    ensures a * b >= 0.0
  {
  }

  /** One more place of two vectors with product `d` and squared lengths `p` and `q` so far. */
  lemma OneMorePlace(d: real, p: real, q: real, x: real, y: real)
    requires p >= 0.0 && q >= 0.0 && d * d <= p * q
    ensures (d + x * y) * (d + x * y) <= (p + x * x) * (q + y * y)
  {
    Square(x);
    Square(y);
    Product(p, y * y);
    Product(q, x * x);
    var s := d * (x * y);
    Square(x * y);
    Scale(d * d, p * q, (x * y) * (x * y));
    assert s * s == (d * d) * ((x * y) * (x * y));
    assert (p * (y * y)) * (q * (x * x)) == (p * q) * ((x * y) * (x * y));
    MeanBound(s, p * (y * y), q * (x * x));
    assert (d + x * y) * (d + x * y) == d * d + 2.0 * s + (x * y) * (x * y);
    assert (p + x * x) * (q + y * y) == p * q + p * (y * y) + q * (x * x) + (x * x) * (y * y);
    assert (x * x) * (y * y) == (x * y) * (x * y);
  }

  lemma Scale(a: real, b: real, c: real)
    requires a <= b && c >= 0.0
    ensures a * c <= b * c
  {
    Product(b - a, c);
    assert (b - a) * c == b * c - a * c;
  }

  /** The Cauchy-Schwarz inequality. */
  lemma {:induction false} CauchySchwarz(a: seq<real>, b: seq<real>, n: nat)
    requires n <= |a| && n <= |b|
    ensures Dot(a, b, n) * Dot(a, b, n) <= Dot(a, a, n) * Dot(b, b, n)
  {
    if n > 0 {
      CauchySchwarz(a, b, n - 1);
      NormNonNegative(a, n - 1);
      NormNonNegative(b, n - 1);
      OneMorePlace(Dot(a, b, n - 1), Dot(a, a, n - 1), Dot(b, b, n - 1), a[n - 1], b[n - 1]);
    }
  }

  lemma RatioOfRoots(dot: real, p: real, q: real, u: real, v: real)
    requires u > 0.0 && v > 0.0 && u * u == p && v * v == q && dot * dot <= p * q && u * v > 0.0
    ensures -1.0 <= dot / (u * v) <= 1.0
  {
    assert (u * v) * (u * v) == (u * u) * (v * v);
    Between(dot, u * v);
    Ratio(dot, u * v);
  }

  lemma Ratio(s: real, t: real)
    requires t > 0.0 && -t <= s <= t
    ensures -1.0 <= s / t <= 1.0
  {
    var r := s / t;
    assert r * t == s;
    assert (r - 1.0) * t == r * t - t && (-1.0 - r) * t == -t - r * t;
    if r > 1.0 {
      PositiveProduct(r - 1.0, t);
    } else if r < -1.0 {
      PositiveProduct(-1.0 - r, t);
    }
  }

  /** The product is additive in each place of a vector. */
  lemma {:induction false} DotAdds(a: seq<real>, b: seq<real>, c: seq<real>, d: seq<real>, n: nat)
    requires n <= |a| && n <= |b| && n <= |c| && n <= |d| && forall i | 0 <= i < n :: d[i] == b[i] + c[i]
    ensures Dot(a, d, n) == Dot(a, b, n) + Dot(a, c, n)
  {
    if n > 0 {
      DotAdds(a, b, c, d, n - 1);
      assert a[n - 1] * d[n - 1] == a[n - 1] * b[n - 1] + a[n - 1] * c[n - 1];
    }
  }

  /** A vector with one place that is not zero picks that place of the other. With additivity this determines
      the product. */
  lemma {:induction false} DotPicks(a: seq<real>, b: seq<real>, n: nat, k: nat)
    requires k < |b| && n <= |a| && n <= |b| && forall i | 0 <= i < |b| && i != k :: b[i] == 0.0
    ensures Dot(a, b, n) == if k < n then a[k] * b[k] else 0.0
  {
    if n > 0 {
      DotPicks(a, b, n - 1, k);
    }
  }

  /** The score times both lengths is the product; without a direction to compare, the score is zero. */
  lemma CosineLaw(root: real -> real, a: seq<real>, b: seq<real>)
    requires IsRoot(root)
    ensures |a| == |b| ==>
              var p, q := Dot(a, a, |a|), Dot(b, b, |b|);
              p >= 0.0 && q >= 0.0
              && Cosine(root, a, b) * (root(p) * root(q)) == if p == 0.0 || q == 0.0 then 0.0 else Dot(a, b, |a|)
    ensures |a| != |b| || Dot(a, a, |a|) == 0.0 || Dot(b, b, |b|) == 0.0 ==> Cosine(root, a, b) == 0.0
  {
    NormNonNegative(a, |a|);
    NormNonNegative(b, |b|);
    if |a| == |b| && Dot(a, a, |a|) != 0.0 && Dot(b, b, |b|) != 0.0 {
      RootsPositive(root, Dot(a, a, |a|), Dot(b, b, |b|));
    }
  }

  /** Every score lies between -1 and 1. */
  lemma ScoreRange(root: real -> real, a: seq<real>, b: seq<real>)
    requires IsRoot(root)
    ensures -1.0 <= Cosine(root, a, b) <= 1.0
  {
    if a != [] && |a| == |b| && Dot(a, a, |a|) != 0.0 && Dot(b, b, |b|) != 0.0 {
      var p, q := Dot(a, a, |a|), Dot(b, b, |b|);
      NormNonNegative(a, |a|);
      NormNonNegative(b, |b|);
      CauchySchwarz(a, b, |a|);
      RootsPositive(root, p, q);
      RatioOfRoots(Dot(a, b, |a|), p, q, root(p), root(q));
    }
  }

  /** A vector that is not zero scores 1 against itself. */
  lemma SelfScore(root: real -> real, a: seq<real>)
    requires IsRoot(root) && a != [] && Dot(a, a, |a|) != 0.0
    ensures Cosine(root, a, a) == 1.0
  {
    var x := Dot(a, a, |a|);
    NormNonNegative(a, |a|);
    assert root(x) * root(x) == x;
    SelfRatio(x, root(x) * root(x));
  }

  lemma SelfRatio(x: real, y: real)
    requires x == y > 0.0
    ensures x / y == 1.0
  {
  }

  method CosineSimilarity(root: real -> real, a: seq<real>, b: seq<real>) returns (score: real)
    requires IsRoot(root)
    ensures score == Cosine(root, a, b)
  {
    if |a| == 0 || |b| == 0 || |a| != |b| {
      return 0.0;
    }
    var dot, normA, normB := 0.0, 0.0, 0.0;
    for i := 0 to |a|
      invariant dot == Dot(a, b, i) && normA == Dot(a, a, i) && normB == Dot(b, b, i)
    {
      dot := dot + a[i] * b[i];
      normA := normA + a[i] * a[i];
      normB := normB + b[i] * b[i];
    }
    if normA == 0.0 || normB == 0.0 {
      return 0.0;
    }
    NormNonNegative(a, |a|);
    NormNonNegative(b, |b|);
    RootsPositive(root, normA, normB);
    return dot / (root(normA) * root(normB));
  }
}
