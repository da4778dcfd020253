/** `ComparableTuple`: an immutable tuple of values of one type, ordered
    lexicographically by the order of its elements.  The element order
    (Java's `Comparable.compareTo` of `T`) is a parameter `cmp`. */
module Tuples {
  import opened Base

  /** The tuple; its `length` is the number of values given to the constructor. */
  datatype ComparableTuple<T> = ComparableTuple(values: seq<T>)

  function Length<T>(t: ComparableTuple<T>): nat {
    |t.values|
  }

  function GetValue<T>(t: ComparableTuple<T>, i: nat): T
    requires i < Length(t)
  {
    t.values[i]
  }

  datatype TupleError = IllegalArgument

  function Sign(x: int): int {
    if x < 0 then -1 else if x > 0 then 1 else 0
  }

  /** The contract Java places on `Comparable.compareTo`. */
  ghost predicate ComparableContract<T(!new)>(cmp: (T, T) -> int) {
    && (forall x, y :: Sign(cmp(x, y)) == -Sign(cmp(y, x)))
    && (forall x, y, z :: cmp(x, y) > 0 && cmp(y, z) > 0 ==> cmp(x, z) > 0)
    && (forall x, y, z :: cmp(x, y) == 0 ==> Sign(cmp(x, z)) == Sign(cmp(y, z)))
  }

  /** The loop of `compareTo`: walk both tuples and stop at the first
      element comparison that is not zero. */
  function Lexicographic<T>(a: seq<T>, b: seq<T>, cmp: (T, T) -> int): int
    requires |a| == |b|
    decreases |a|
  {
    if |a| == 0 then 0
    else if cmp(a[0], b[0]) != 0 then cmp(a[0], b[0])
    else Lexicographic(a[1..], b[1..], cmp)
  }

  /** The result of the walk is 0 when every element comparison is 0, and
      otherwise the comparison at the first position where one is not. */
  lemma {:induction false} LexicographicIsFirstDifference<T>(a: seq<T>, b: seq<T>, cmp: (T, T) -> int)
    requires |a| == |b|
    ensures Lexicographic(a, b, cmp) == 0 <==> forall i :: 0 <= i < |a| ==> cmp(a[i], b[i]) == 0
    ensures Lexicographic(a, b, cmp) != 0 ==>
      exists k :: 0 <= k < |a| && Lexicographic(a, b, cmp) == cmp(a[k], b[k])
                  && forall i :: 0 <= i < k ==> cmp(a[i], b[i]) == 0
    decreases |a|
  {
    if |a| != 0 && cmp(a[0], b[0]) == 0 {
      LexicographicIsFirstDifference(a[1..], b[1..], cmp);
      assert forall i :: 1 <= i < |a| ==> a[i] == a[1..][i - 1] && b[i] == b[1..][i - 1];
      if Lexicographic(a, b, cmp) != 0 {
        var k :| 0 <= k < |a| - 1 && Lexicographic(a[1..], b[1..], cmp) == cmp(a[1..][k], b[1..][k])
                 && forall i :: 0 <= i < k ==> cmp(a[1..][i], b[1..][i]) == 0;
        assert forall i :: 0 <= i < k + 1 ==> cmp(a[i], b[i]) == 0;
      }
    }
  }

  /** `compareTo`: tuples of different lengths cannot be compared
      (`IllegalArgumentException`); otherwise the result is that of the
      first element comparison that is not zero, or 0 when there is none. */
  function CompareTo<T>(t: ComparableTuple<T>, other: ComparableTuple<T>, cmp: (T, T) -> int): (r: Result<int, TupleError>)
    ensures r.Err? <==> Length(t) != Length(other)
    ensures Length(t) == 0 && Length(other) == 0 ==> r == Ok(0)
    ensures r.Ok? ==> (r.value == 0 <==> forall i :: 0 <= i < Length(t) ==> cmp(t.values[i], other.values[i]) == 0)
    ensures r.Ok? && r.value != 0 ==>
      exists k :: 0 <= k < Length(t) && r.value == cmp(t.values[k], other.values[k])
                  && forall i :: 0 <= i < k ==> cmp(t.values[i], other.values[i]) == 0
  {
    if Length(t) != Length(other) then Err(IllegalArgument)
    else
      LexicographicIsFirstDifference(t.values, other.values, cmp);
      Ok(Lexicographic(t.values, other.values, cmp))
  }

  /** A tuple compared with itself gives 0. */
  lemma {:induction false} LexicographicReflexive<T(!new)>(a: seq<T>, cmp: (T, T) -> int)
    requires ComparableContract(cmp)
    ensures Lexicographic(a, a, cmp) == 0
    decreases |a|
  {
    if |a| != 0 {
      assert Sign(cmp(a[0], a[0])) == -Sign(cmp(a[0], a[0]));
      LexicographicReflexive(a[1..], cmp);
    }
  }

  /** Swapping the operands negates the sign of the comparison. */
  lemma {:induction false} LexicographicAntisymmetric<T(!new)>(a: seq<T>, b: seq<T>, cmp: (T, T) -> int)
    requires ComparableContract(cmp) && |a| == |b|
    ensures Sign(Lexicographic(a, b, cmp)) == -Sign(Lexicographic(b, a, cmp))
    decreases |a|
  {
    if |a| != 0 {
      assert Sign(cmp(a[0], b[0])) == -Sign(cmp(b[0], a[0]));
      if cmp(a[0], b[0]) == 0 {
        LexicographicAntisymmetric(a[1..], b[1..], cmp);
      }
    }
  }

  /** Tuples that compare as 0 compare alike with every third tuple. */
  lemma {:induction false} LexicographicConsistent<T(!new)>(a: seq<T>, b: seq<T>, c: seq<T>, cmp: (T, T) -> int)
    requires ComparableContract(cmp) && |a| == |b| == |c|
    requires Lexicographic(a, b, cmp) == 0
    ensures Sign(Lexicographic(a, c, cmp)) == Sign(Lexicographic(b, c, cmp))
    decreases |a|
  {
    if |a| != 0 {
      assert cmp(a[0], b[0]) == 0;
      assert Sign(cmp(a[0], c[0])) == Sign(cmp(b[0], c[0]));
      if cmp(a[0], c[0]) == 0 {
        LexicographicConsistent(a[1..], b[1..], c[1..], cmp);
      }
    }
  }

  /** The lexicographic order is transitive. */
  lemma {:induction false} LexicographicTransitive<T(!new)>(a: seq<T>, b: seq<T>, c: seq<T>, cmp: (T, T) -> int)
    requires ComparableContract(cmp) && |a| == |b| == |c|
    requires Lexicographic(a, b, cmp) > 0 && Lexicographic(b, c, cmp) > 0
    ensures Lexicographic(a, c, cmp) > 0
    decreases |a|
  {
    var x, y, z := a[0], b[0], c[0];
    if cmp(x, y) > 0 && cmp(y, z) > 0 {
      assert cmp(x, z) > 0;
    } else if cmp(x, y) > 0 {
      assert cmp(y, z) == 0;
      assert Sign(cmp(y, x)) == Sign(cmp(z, x));
      assert Sign(cmp(x, z)) == -Sign(cmp(z, x));
    } else if cmp(y, z) > 0 {
      assert cmp(x, y) == 0;
      assert Sign(cmp(x, z)) == Sign(cmp(y, z));
    } else {
      assert cmp(x, y) == 0 && cmp(y, z) == 0;
      assert Sign(cmp(x, z)) == Sign(cmp(y, z));
      LexicographicTransitive(a[1..], b[1..], c[1..], cmp);
    }
  }

  /** `compareTo` on tuples of one length inherits Java's `Comparable`
      contract from the element order: sign antisymmetry (so a tuple compared
      with itself gives 0), transitivity, and consistency of equal tuples. */
  lemma CompareToIsComparable<T(!new)>(t: ComparableTuple<T>, u: ComparableTuple<T>, v: ComparableTuple<T>, cmp: (T, T) -> int)
    requires ComparableContract(cmp)
    requires Length(t) == Length(u) == Length(v)
    ensures CompareTo(t, t, cmp) == Ok(0)
    ensures Sign(CompareTo(t, u, cmp).value) == -Sign(CompareTo(u, t, cmp).value)
    ensures CompareTo(t, u, cmp).value > 0 && CompareTo(u, v, cmp).value > 0 ==> CompareTo(t, v, cmp).value > 0
    ensures CompareTo(t, u, cmp).value == 0 ==> Sign(CompareTo(t, v, cmp).value) == Sign(CompareTo(u, v, cmp).value)
  {
    LexicographicReflexive(t.values, cmp);
    LexicographicAntisymmetric(t.values, u.values, cmp);
    if CompareTo(t, u, cmp).value > 0 && CompareTo(u, v, cmp).value > 0 {
      LexicographicTransitive(t.values, u.values, v.values, cmp);
    }
    if CompareTo(t, u, cmp).value == 0 {
      LexicographicConsistent(t.values, u.values, v.values, cmp);
    }
  }
}
