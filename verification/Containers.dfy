/** Small things shared by the model: options, results, the fixed-capacity vectors of the realtime
    engine, duplicate-free sequences, and the bound of 64-bit words. */
module Containers {
  const U64: nat := 0x1_0000_0000_0000_0000

  datatype Option<+T> = None | Some(value: T)

  datatype Result<+T, +E> = Ok(value: T) | Err(error: E)

  /** `push` on a full vector hands the element back and leaves the vector alone. */
  function Push<T>(v: seq<T>, capacity: nat, x: T): seq<T> {
    if |v| < capacity then v + [x] else v
  }

  function RemoveAt<T>(v: seq<T>, i: nat): seq<T>
    requires i < |v|
  {
    v[..i] + v[i + 1..]
  }

  function InsertAt<T>(v: seq<T>, i: nat, x: T): seq<T>
    requires i <= |v|
  {
    v[..i] + [x] + v[i..]
  }

  /** The last element takes the place of the removed one; an index out of range removes nothing. */
  function SwapRemove<T>(v: seq<T>, i: nat): seq<T> {
    if i < |v| then v[i := v[|v| - 1]][..|v| - 1] else v
  }

  ghost predicate NoDup<T>(s: seq<T>) {
    forall i, j :: 0 <= i < j < |s| ==> s[i] != s[j]
  }

  /** A duplicate-free sequence has as many elements as the set of its elements. */
  lemma {:induction false} NoDupCardinality<T>(s: seq<T>)
    requires NoDup(s)
    ensures |set x | x in s| == |s|
  {
    if s == [] {
      assert (set x | x in s) == {};
    } else {
      var init := s[..|s| - 1];
      NoDupCardinality(init);
      assert (set x | x in s) == (set x | x in init) + {s[|s| - 1]};
    }
  }
}
