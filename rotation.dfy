/**
 * The two library operations the dictionary construction rests on:
 * `std::valarray::cshift`, a circular rotation of a sequence, and the
 * in-order insertion of key/value pairs into a `std::map<char,char>`.
 */
module Rotation {
  import opened Modular
  import opened Alphabets

  /**
   * valarray::cshift(k): element i of the result is element (i + k) mod n of
   * the original ([valarray.members] of the C++ standard).
   */
  function Cshift(v: seq<char>, k: int): (r: seq<char>)
    ensures |r| == |v|
    ensures forall i :: 0 <= i < |v| ==> r[i] == v[(i + k) % |v|]
  {
    seq(|v|, i requires 0 <= i < |v| => v[(i + k) % |v|])
  }

  /** Every index is reached by the rotation: index (i + k) mod n comes from index i. */
  lemma CshiftSource(v: seq<char>, k: int, t: int) returns (i: int)
    requires 0 <= t < |v|
    ensures 0 <= i < |v| && (i + k) % |v| == t
  {
    var m := |v|;
    var q := (t - k) / m;
    i := (t - k) % m;
    ModUnique(t - k, m, q, i);
    assert i + k == (-q) * m + t;
    ModUnique(i + k, m, -q, t);
  }

  /** A rotation holds the same symbols. */
  lemma CshiftMembers(v: seq<char>, k: int)
    ensures forall c :: c in Cshift(v, k) <==> c in v
  {
    var r := Cshift(v, k);
    forall c | c in v ensures c in r {
      var t :| 0 <= t < |v| && v[t] == c;
      var i := CshiftSource(v, k, t);
      assert r[i] == c;
    }
  }

  /** Two indices that the rotation sends to the same place are equal. */
  lemma CshiftIndexInjective(m: int, k: int, a: int, b: int)
    requires 0 <= a < m && 0 <= b < m && (a + k) % m == (b + k) % m
    ensures a == b
  {
    var qa, qb := (a + k) / m, (b + k) / m;
    ModUnique(a + k, m, qa, (a + k) % m);
    ModUnique(b + k, m, qb, (b + k) % m);
    // a - b == (qa - qb) * m with |a - b| < m forces qa == qb
    if qa > qb {
      MulAtLeast(qa - qb, m);
      assert false;
    } else if qb > qa {
      MulAtLeast(qb - qa, m);
      assert false;
    }
  }

  /** A rotation of a sequence without repeats has no repeats. */
  lemma CshiftDistinct(v: seq<char>, k: int)
    requires Distinct(v)
    ensures Distinct(Cshift(v, k))
  {
    var m := |v|;
    var r := Cshift(v, k);
    forall a, b | 0 <= a < m && 0 <= b < m && a != b
      ensures r[a] != r[b]
    {
      if (a + k) % m == (b + k) % m {
        CshiftIndexInjective(m, k, a, b);
      }
    }
  }

  /** Rotating by no positions changes nothing. */
  lemma CshiftZero(v: seq<char>)
    ensures Cshift(v, 0) == v
  {
    forall i | 0 <= i < |v| ensures Cshift(v, 0)[i] == v[i] {
      ModUnique(i, |v|, 0, i);
    }
  }

  /**
   * The map obtained from d by inserting keys[n] := vals[n] for n = 0, 1, ...
   * in turn; a later insertion under the same key overwrites.
   */
  function Inserted(d: map<char, char>, keys: seq<char>, vals: seq<char>): map<char, char>
    requires |keys| == |vals|
    decreases |keys|
  {
    if |keys| == 0 then d
    else Inserted(d, keys[..|keys| - 1], vals[..|vals| - 1])[keys[|keys| - 1] := vals[|vals| - 1]]
  }

  /** The keys after the insertions are the old keys and the inserted ones. */
  lemma {:induction false} InsertedKeys(d: map<char, char>, keys: seq<char>, vals: seq<char>)
    requires |keys| == |vals|
    ensures forall c :: c in Inserted(d, keys, vals) <==> c in d || c in keys
    decreases |keys|
  {
    if |keys| > 0 {
      var n := |keys| - 1;
      InsertedKeys(d, keys[..n], vals[..n]);
      assert keys == keys[..n] + [keys[n]];
    }
  }

  /** With distinct keys, every inserted key is bound to the value at its own position. */
  lemma {:induction false} InsertedAt(d: map<char, char>, keys: seq<char>, vals: seq<char>, i: int)
    requires |keys| == |vals| && Distinct(keys) && 0 <= i < |keys|
    ensures keys[i] in Inserted(d, keys, vals) && Inserted(d, keys, vals)[keys[i]] == vals[i]
    decreases |keys|
  {
    var n := |keys| - 1;
    if i < n {
      assert keys[..n][i] == keys[i];
      InsertedAt(d, keys[..n], vals[..n], i);
    }
  }

  /** Inserting one batch of pairs and then another is inserting their concatenation. */
  lemma {:induction false} InsertedAppend(d: map<char, char>, k1: seq<char>, v1: seq<char>, k2: seq<char>, v2: seq<char>)
    requires |k1| == |v1| && |k2| == |v2|
    ensures Inserted(Inserted(d, k1, v1), k2, v2) == Inserted(d, k1 + k2, v1 + v2)
    decreases |k2|
  {
    if |k2| == 0 {
      assert k1 + k2 == k1 && v1 + v2 == v1;
    } else {
      var n := |k2| - 1;
      assert (k1 + k2)[..|k1| + n] == k1 + k2[..n];
      assert (v1 + v2)[..|v1| + n] == v1 + v2[..n];
      InsertedAppend(d, k1, v1, k2[..n], v2[..n]);
    }
  }

  /** Four batches inserted one after the other. */
  lemma InsertedAppend4(d: map<char, char>, k1: seq<char>, v1: seq<char>, k2: seq<char>, v2: seq<char>,
                        k3: seq<char>, v3: seq<char>, k4: seq<char>, v4: seq<char>)
    requires |k1| == |v1| && |k2| == |v2| && |k3| == |v3| && |k4| == |v4|
    ensures Inserted(Inserted(Inserted(Inserted(d, k1, v1), k2, v2), k3, v3), k4, v4)
         == Inserted(d, k1 + k2 + k3 + k4, v1 + v2 + v3 + v4)
  {
    InsertedAppend(d, k1, v1, k2, v2);
    InsertedAppend(d, k1 + k2, v1 + v2, k3, v3);
    InsertedAppend(d, k1 + k2 + k3, v1 + v2 + v3, k4, v4);
  }

  /**
   * The insertion loop of generateCipherDict in either program:
   * `dict[keys[n]] = vals[n]` for n = 0 .. |keys| - 1.
   */
  method InsertPairs(dict: map<char, char>, keys: seq<char>, vals: seq<char>) returns (d: map<char, char>)
    requires |keys| == |vals|
    ensures d == Inserted(dict, keys, vals)
  {
    d := dict;
    var n := 0;
    while n < |keys|
      invariant 0 <= n <= |keys|
      invariant d == Inserted(dict, keys[..n], vals[..n])
    {
      assert keys[..n + 1][..n] == keys[..n] && vals[..n + 1][..n] == vals[..n];
      d := d[keys[n] := vals[n]];
      n := n + 1;
    }
    assert keys[..n] == keys && vals[..n] == vals;
  }
}
