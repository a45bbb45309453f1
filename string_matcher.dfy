/** `utils/stringUtils.js`: the dynamic-programming Levenshtein distance and the
    "did you mean" lookup of the product whose name is nearest to a term. */
module StringMatcher {
  import opened Options
  import opened Text
  import opened Catalog

  function Min3(x: nat, y: nat, z: nat): (m: nat)
    ensures m <= x && m <= y && m <= z
    ensures m == x || m == y || m == z
  {
    if x <= y && x <= z then x else if y <= z then y else z
  }

  /** The unit-cost edit distance between `s[..i]` and `t[..j]`, by the
      recurrence the table of `levenshtein` follows: a matching last character
      costs nothing, otherwise the cheapest of substitution, insertion and
      deletion plus one. */
  function Dist(s: string, t: string, i: nat, j: nat): nat
    requires i <= |s| && j <= |t|
    decreases i + j
  {
    if i == 0 then j
    else if j == 0 then i
    else if s[i - 1] == t[j - 1] then Dist(s, t, i - 1, j - 1)
    else Min3(Dist(s, t, i - 1, j - 1), Dist(s, t, i, j - 1), Dist(s, t, i - 1, j)) + 1
  }

  function EditDistance(a: string, b: string): nat {
    Dist(a, b, |a|, |b|)
  }

  lemma {:induction false} DistSymmetric(s: string, t: string, i: nat, j: nat)
    requires i <= |s| && j <= |t|
    ensures Dist(s, t, i, j) == Dist(t, s, j, i)
    decreases i + j
  {
    if i == 0 || j == 0 {
    } else if s[i - 1] == t[j - 1] {
      DistSymmetric(s, t, i - 1, j - 1);
      assert Dist(t, s, j, i) == Dist(t, s, j - 1, i - 1);
    } else {
      DistSymmetric(s, t, i - 1, j - 1);
      DistSymmetric(s, t, i, j - 1);
      DistSymmetric(s, t, i - 1, j);
      MismatchSymmetric(s, t, i, j);
    }
  }

  /** The mismatch step of the recurrence commutes once its three smaller
      distances do: deleting on one side is inserting on the other. */
  lemma MismatchSymmetric(s: string, t: string, i: nat, j: nat)
    requires 0 < i <= |s| && 0 < j <= |t| && s[i - 1] != t[j - 1]
    requires Dist(s, t, i - 1, j - 1) == Dist(t, s, j - 1, i - 1)
    requires Dist(s, t, i, j - 1) == Dist(t, s, j - 1, i)
    requires Dist(s, t, i - 1, j) == Dist(t, s, j, i - 1)
    ensures Dist(s, t, i, j) == Dist(t, s, j, i)
  {
    var x, y, z := Dist(s, t, i - 1, j - 1), Dist(s, t, i, j - 1), Dist(s, t, i - 1, j);
    assert Dist(t, s, j, i) == Min3(x, z, y) + 1;
  }

  /** The distance does not depend on the order of its arguments. */
  lemma EditDistanceSymmetric(a: string, b: string)
    ensures EditDistance(a, b) == EditDistance(b, a)
  {
    DistSymmetric(a, b, |a|, |b|);
  }

  lemma {:induction false} DistSelf(s: string, i: nat)
    requires i <= |s|
    ensures Dist(s, s, i, i) == 0
  {
    if i > 0 {
      DistSelf(s, i - 1);
    }
  }

  /** A string is at distance 0 from itself, and the empty string is as far
      from any string as that string is long. */
  lemma EditDistanceBaseCases(a: string, b: string)
    ensures EditDistance(a, a) == 0
    ensures EditDistance("", b) == |b| && EditDistance(a, "") == |a|
  {
    DistSelf(a, |a|);
  }

  lemma {:induction false} DistLowerBound(s: string, t: string, i: nat, j: nat)
    requires i <= |s| && j <= |t|
    ensures i - j <= Dist(s, t, i, j) && j - i <= Dist(s, t, i, j)
    decreases i + j
  {
    if i > 0 && j > 0 {
      DistLowerBound(s, t, i - 1, j - 1);
      if s[i - 1] != t[j - 1] {
        DistLowerBound(s, t, i, j - 1);
        DistLowerBound(s, t, i - 1, j);
      }
    }
  }

  lemma {:induction false} DistUpperBound(s: string, t: string, i: nat, j: nat)
    requires i <= |s| && j <= |t|
    ensures Dist(s, t, i, j) <= (if i <= j then j else i)
    decreases i + j
  {
    if i > 0 && j > 0 {
      DistUpperBound(s, t, i - 1, j - 1);
    }
  }

  /** The distance lies between the difference of the lengths and the larger length. */
  lemma EditDistanceBounds(a: string, b: string)
    ensures (if |a| <= |b| then |b| - |a| else |a| - |b|) <= EditDistance(a, b)
    ensures EditDistance(a, b) <= (if |a| <= |b| then |b| else |a|)
  {
    DistLowerBound(a, b, |a|, |b|);
    DistUpperBound(a, b, |a|, |b|);
  }

  /** A cost of one added to each option adds one to the cheapest. */
  lemma Min3Succ(x: nat, y: nat, z: nat)
    ensures Min3(x + 1, y + 1, z + 1) == Min3(x, y, z) + 1
  {
  }

  /** `levenshtein(a, b)`: row `i`, column `j` of the table holds the distance
      between `b[..i]` and `a[..j]`, so the last cell is the edit distance. */
  method Levenshtein(a: string, b: string) returns (d: nat)
    ensures d == EditDistance(a, b)
  {
    if a == b {
      DistSelf(a, |a|);
      return 0;
    }
    if |a| == 0 {
      return |b|;
    }
    if |b| == 0 {
      return |a|;
    }
    var matrix := new nat[|b| + 1, |a| + 1];
    for i := 0 to |b| + 1
      invariant forall r :: 0 <= r < i ==> matrix[r, 0] == r
    {
      matrix[i, 0] := i;
    }
    for j := 0 to |a| + 1
      invariant forall r :: 0 <= r <= |b| ==> matrix[r, 0] == r
      invariant forall c :: 0 <= c < j ==> matrix[0, c] == c
    {
      matrix[0, j] := j;
    }
    for i := 1 to |b| + 1
      invariant forall r, c {:trigger matrix[r, c]} :: 0 <= r < i && 0 <= c <= |a| ==> matrix[r, c] == Dist(b, a, r, c)
      invariant forall r :: i <= r <= |b| ==> matrix[r, 0] == r
    {
      for j := 1 to |a| + 1
        invariant forall r, c {:trigger matrix[r, c]} :: 0 <= r < i && 0 <= c <= |a| ==> matrix[r, c] == Dist(b, a, r, c)
        invariant forall c {:trigger matrix[i, c]} :: 0 <= c < j ==> matrix[i, c] == Dist(b, a, i, c)
        invariant forall r :: i < r <= |b| ==> matrix[r, 0] == r
      {
        if b[i - 1] == a[j - 1] {
          matrix[i, j] := matrix[i - 1, j - 1];
        } else {
          Min3Succ(matrix[i - 1, j - 1], matrix[i, j - 1], matrix[i - 1, j]);
          matrix[i, j] := Min3(matrix[i - 1, j - 1] + 1, matrix[i, j - 1] + 1, matrix[i - 1, j] + 1);
        }
      }
    }
    d := matrix[|b|, |a|];
    DistSymmetric(b, a, |b|, |a|);
  }

  /** The distance `findClosestProduct` ranks a product by. */
  function NameDistance(term: string, p: Product): nat {
    EditDistance(Lower(term), Lower(p.nombre))
  }

  /** `products[k]` has the smallest distance to `term`, and no earlier product
      has the same distance. */
  ghost predicate IsClosestAt(products: seq<Product>, term: string, k: int) {
    && 0 <= k < |products|
    && (forall j :: 0 <= j < |products| ==> NameDistance(term, products[k]) <= NameDistance(term, products[j]))
    && (forall j :: 0 <= j < k ==> NameDistance(term, products[k]) < NameDistance(term, products[j]))
  }

  /** `findClosestProduct`: nothing for an empty term or an empty list; otherwise
      the first product with the least distance from the lowered term to its
      lowered name. */
  method FindClosestProduct(products: seq<Product>, term: string) returns (closest: Option<Product>)
    ensures closest.None? <==> term == "" || products == []
    ensures closest.Some? ==> exists k :: IsClosestAt(products, term, k) && closest.value == products[k]
  {
    if term == "" || |products| == 0 {
      return None;
    }
    var minDist: Option<nat> := None;  // None stands for Infinity
    closest := None;
    ghost var best := 0;
    var lowerTerm := Lower(term);
    for idx := 0 to |products|
      invariant closest.None? <==> idx == 0
      invariant minDist.None? <==> idx == 0
      invariant idx > 0 ==> 0 <= best < idx && closest == Some(products[best])
      invariant idx > 0 ==> minDist.value == NameDistance(term, products[best])
      invariant idx > 0 ==> forall j :: 0 <= j < idx ==> minDist.value <= NameDistance(term, products[j])
      invariant idx > 0 ==> forall j :: 0 <= j < best ==> minDist.value < NameDistance(term, products[j])
    {
      var name := Lower(products[idx].nombre);
      var dist := Levenshtein(lowerTerm, name);
      if minDist.None? || dist < minDist.value {
        minDist := Some(dist);
        closest := Some(products[idx]);
        best := idx;
      }
    }
    assert IsClosestAt(products, term, best);
  }
}
