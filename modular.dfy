/**
 * Shift reduction shared by both programs: a signed shift amount is brought
 * into [0, m) for an alphabet of size m.  Dafny's `%` on `int` is Euclidean,
 * which is exactly the floor-style reduction both programs compute.
 */
module Modular {

  /** Multiplying a positive factor by a whole number of at least one does not shrink it. */
  lemma {:induction false} MulAtLeast(d: int, m: int)
    requires d >= 1 && m > 0
    ensures d * m >= m
    decreases d
  {
    if d > 1 {
      MulAtLeast(d - 1, m);
      assert d * m == (d - 1) * m + m;
    }
  }

  /** Quotient and remainder are unique: any decomposition a == q * m + r with 0 <= r < m is Euclid's. */
  lemma ModUnique(a: int, m: int, q: int, r: int)
    requires m > 0 && 0 <= r < m && a == q * m + r
    ensures a % m == r && a / m == q
  {
    var q0, r0 := a / m, a % m;
    assert a == q0 * m + r0;
    if q0 < q {
      MulAtLeast(q - q0, m);
      assert false;
    } else if q < q0 {
      MulAtLeast(q0 - q, m);
      assert false;
    }
  }

  /** The reduced shift for an alphabet of size m: in range and congruent to k. */
  function ReducedShift(k: int, m: int): (r: int)
    requires m > 0
    ensures 0 <= r < m
    ensures (k - r) % m == 0
  {
    ModUnique(k - k % m, m, k / m, 0);
    k % m
  }

  /** Shifting by whole turns of the alphabet does not change the reduced shift. */
  lemma ReducedShiftPeriodic(k: int, j: int, m: int)
    requires m > 0
    ensures ReducedShift(k + j * m, m) == ReducedShift(k, m)
  {
    ModUnique(k, m, k / m, k % m);
    assert k + j * m == (k / m + j) * m + k % m;
    ModUnique(k + j * m, m, k / m + j, k % m);
  }

  /** Any value in range that is congruent to k is the reduced shift. */
  lemma ReducedShiftUnique(k: int, m: int, r: int)
    requires m > 0 && 0 <= r < m
    requires (k - r) % m == 0
    ensures r == ReducedShift(k, m)
  {
    var q := (k - r) / m;
    ModUnique(k - r, m, (k - r) / m, (k - r) % m);
    assert k == q * m + r;
    ModUnique(k, m, q, r);
  }

  /**
   * calcReducedShift of the decipherer, and calculateEffectiveShift of the
   * encipherer, which is the same code: a negative shift is raised by
   * mod_size until it is no longer negative, a non-negative one is reduced
   * with `%`.
   */
  method CalcReducedShift(originalShift: int, modSize: int) returns (reducedShift: int)
    requires modSize > 0
    ensures 0 <= reducedShift < modSize
    ensures reducedShift == ReducedShift(originalShift, modSize)
  {
    reducedShift := 0;
    if originalShift < 0 {
      reducedShift := originalShift;
      ghost var turns := 0;
      while reducedShift < 0
        invariant reducedShift == originalShift + turns * modSize
        invariant reducedShift < modSize
        decreases -reducedShift
      {
        reducedShift := reducedShift + modSize;
        turns := turns + 1;
      }
      ModUnique(originalShift - reducedShift, modSize, -turns, 0);
      ReducedShiftUnique(originalShift, modSize, reducedShift);
    } else if originalShift >= 0 {
      reducedShift := originalShift % modSize;
    }
  }
}
