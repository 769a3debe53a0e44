/** Small vocabulary shared by every module: optional values and fail-closed results. */
module Common {
  datatype Option<+T> = None | Some(value: T)

  /** A Python call that either returns or raises; the error is the raised code. */
  datatype Result<+T, +E> = Ok(value: T) | Err(error: E)
  {
    predicate IsFailure() {
      Err?
    }

    function PropagateFailure<U>(): Result<U, E>
      requires Err?
    {
      Err(error)
    }

    function Extract(): T
      requires Ok?
    {
      value
    }
  }

  /** Text that Python's `strip` empties. */
  predicate Blank(s: string) {
    forall c :: c in s ==> c in " \t\n\r"
  }

  function Min(x: real, y: real): real {
    if x <= y then x else y
  }

  function Max(x: real, y: real): real {
    if x <= y then y else x
  }

  lemma {:induction false} SubsetSize<T>(a: set<T>, b: set<T>)
    requires a <= b
    ensures |a| <= |b|
    decreases |a|
  {
    if a != {} {
      var x :| x in a;
      SubsetSize(a - {x}, b - {x});
    }
  }

  /** A map that only grew, and gained no key, did not change. */
  lemma SameMap<K, V>(a: map<K, V>, b: map<K, V>)
    requires forall k :: k in a ==> k in b && b[k] == a[k]
    requires b.Keys <= a.Keys
    ensures b == a
  {
    assert b.Keys == a.Keys;
  }

  function Elements<T>(ids: seq<T>): set<T> {
    set x | x in ids
  }

  lemma ElementsOfSnoc<T>(ids: seq<T>)
    requires ids != []
    ensures Elements(ids) == Elements(ids[..|ids| - 1]) + {ids[|ids| - 1]}
  {
    assert ids == ids[..|ids| - 1] + [ids[|ids| - 1]];
  }

  lemma {:induction false} ElementCount<T>(ids: seq<T>)
    ensures |Elements(ids)| <= |ids|
  {
    if ids != [] {
      ElementCount(ids[..|ids| - 1]);
      ElementsOfSnoc(ids);
    }
  }

  ghost predicate Distinct<T>(ids: seq<T>) {
    forall i, j :: 0 <= i < j < |ids| ==> ids[i] != ids[j]
  }

  lemma {:induction false} NoRepeats<T>(ids: seq<T>)
    requires |Elements(ids)| == |ids|
    ensures Distinct(ids)
  {
    if ids != [] {
      var init, last := ids[..|ids| - 1], ids[|ids| - 1];
      ElementsOfSnoc(ids);
      ElementCount(init);
      assert last in Elements(init) ==> Elements(ids) == Elements(init);
      NoRepeats(init);
      forall i | 0 <= i < |init| ensures ids[i] != last {
        assert init[i] in Elements(init);
      }
    }
  }

  lemma {:induction false} DistinctCount<T>(ids: seq<T>)
    requires Distinct(ids)
    ensures |Elements(ids)| == |ids|
  {
    if ids != [] {
      DistinctCount(ids[..|ids| - 1]);
      ElementsOfSnoc(ids);
    }
  }
}
