/** Sequence helpers mirroring Python's filtering comprehensions and `max`. */
module Lists {

  /** The elements of `xs` that satisfy `p`, in order (a list comprehension with a condition). */
  function Filter<T(!new)>(xs: seq<T>, p: T -> bool): (r: seq<T>)
    ensures |r| <= |xs|
    ensures forall i :: 0 <= i < |r| ==> p(r[i])
    ensures forall x :: x in r <==> x in xs && p(x)
  {
    if xs == [] then []
    else (if p(xs[0]) then [xs[0]] else []) + Filter(xs[1..], p)
  }

  /** Filtering a concatenation filters each part: the kept elements keep their order. */
  lemma {:induction false} FilterAppend<T(!new)>(a: seq<T>, b: seq<T>, p: T -> bool)
    ensures Filter(a + b, p) == Filter(a, p) + Filter(b, p)
  {
    if a != [] {
      var head := if p(a[0]) then [a[0]] else [];
      calc {
        Filter(a + b, p);
        { assert (a + b)[0] == a[0] && (a + b)[1..] == a[1..] + b; }
        head + Filter(a[1..] + b, p);
        { FilterAppend(a[1..], b, p); }
        head + (Filter(a[1..], p) + Filter(b, p));
        (head + Filter(a[1..], p)) + Filter(b, p);
        Filter(a, p) + Filter(b, p);
      }
    } else {
      assert a + b == b;
    }
  }

  /** Removing an element the condition rejects does not change the filtered list. */
  lemma FilterSkips<T(!new)>(a: seq<T>, x: T, b: seq<T>, p: T -> bool)
    requires !p(x)
    ensures Filter(a + [x] + b, p) == Filter(a + b, p)
  {
    assert Filter([x], p) == [];
    calc {
      Filter(a + [x] + b, p);
      { FilterAppend(a + [x], b, p); }
      Filter(a + [x], p) + Filter(b, p);
      { FilterAppend(a, [x], p); }
      Filter(a, p) + Filter(b, p);
      { FilterAppend(a, b, p); }
      Filter(a + b, p);
    }
  }

  /**
   * The index `max(range(len(keys)), key=keys.__getitem__)` returns: the
   * first position holding the largest key. Like Python's `max`, the scan
   * replaces its candidate only when a later key is strictly greater.
   */
  function FirstMaxIndex(keys: seq<int>): (k: nat)
    requires |keys| > 0
    ensures k < |keys|
    ensures forall j :: 0 <= j < |keys| ==> keys[j] <= keys[k]
    ensures forall j :: 0 <= j < k ==> keys[j] < keys[k]
  {
    if |keys| == 1 then 0
    else
      var b := FirstMaxIndex(keys[..|keys| - 1]);
      if keys[|keys| - 1] > keys[b] then |keys| - 1 else b
  }

  /** The two properties of `FirstMaxIndex` pin the index down. */
  lemma FirstMaxUnique(keys: seq<int>, k: nat)
    requires k < |keys|
    requires forall j :: 0 <= j < |keys| ==> keys[j] <= keys[k]
    requires forall j :: 0 <= j < k ==> keys[j] < keys[k]
    ensures FirstMaxIndex(keys) == k
  {
  }

}
