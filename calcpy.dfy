/** The Python reference implementation (calc.py) where it differs from the
    JavaScript one: Python's own `%` and `floor`, the memoised inverse of
    xemmify, and `hostify_order`, which inserts into its argument in place.
    Its rank lookup, order builders, weight functions, expected value and
    edge compute what the shared members of Orders, Weights and Expectation
    state. */
module CalcPy {
  import opened Transform
  import opened Orders

  /** `xemmify` as calc.py computes it. Python's `%` and `floor` both round
      towards minus infinity, which for a positive base is Dafny's `%` and
      `/`. */
  function PyXemmify(value: int, base: int): (r: int)
    requires base >= 1
    ensures 0 <= r < base
  {
    ((value % base) + value / base) % base
  }

  /** On the non-negative raw values the two implementations agree. */
  lemma XemmifyAgrees(value: int, base: int)
    requires value >= 0 && base >= 1
    ensures PyXemmify(value, base) == Xemmify(value, base)
  {
  }

  /** Below zero they do not: JavaScript's `%` keeps the sign of -1. */
  lemma XemmifyNegativeDiffers()
    ensures Xemmify(-1, BASE) == -2
    ensures PyXemmify(-1, BASE) == 8
  {
  }

  /** What calc.py's `inverse_xemmify` returns: the raw values below
      `bound` whose xemmify under the default base 10 is `value`. The base
      it is given only enters the cache key. */
  function PyPreimage(value: int, bound: int): (r: set<int>)
    ensures forall x :: x in r <==> 0 <= x < bound && PyXemmify(x, BASE) == value
  {
    set x | 0 <= x < bound && PyXemmify(x, BASE) == value
  }

  /** With base 10 the Python inverse is the intended one. */
  lemma PyPreimageBaseTen(value: int, bound: int)
    ensures PyPreimage(value, bound) == XemmifyPreimage(value, bound, BASE)
  {
    forall x | x in PyPreimage(value, bound)
      ensures x in XemmifyPreimage(value, bound, BASE)
    {
      XemmifyAgrees(x, BASE);
    }
    forall x | x in XemmifyPreimage(value, bound, BASE)
      ensures x in PyPreimage(value, bound)
    {
      XemmifyAgrees(x, BASE);
    }
  }

  /** The same holds for the union `inverse_xemmify_multi` builds. */
  lemma {:induction false} PyPreimageMultiBaseTen(ds: seq<int>, bound: int)
    ensures (set x | 0 <= x < bound && PyXemmify(x, BASE) in ds) == XemmifyPreimageOf(ds, bound, BASE)
  {
    var py := set x | 0 <= x < bound && PyXemmify(x, BASE) in ds;
    forall x | x in py
      ensures x in XemmifyPreimageOf(ds, bound, BASE)
    {
      XemmifyAgrees(x, BASE);
    }
    forall x | x in XemmifyPreimageOf(ds, bound, BASE)
      ensures x in py
    {
      XemmifyAgrees(x, BASE);
    }
  }

  /** With any other base it can miss values: 5 xemmifies to 1 in base 5,
      yet the Python inverse of 1 in base 5 leaves it out. */
  lemma BaseIgnored()
    ensures 5 in XemmifyPreimage(1, BOUND, 5)
    ensures 5 !in PyPreimage(1, BOUND)
  {
  }

  /** The module-level cache of calc.py, keyed by (value, bound, base). */
  class InverseCache {
    var entries: map<(int, int, int), set<int>>

    /** Every cached set is what `inverse_xemmify` computes for its key. */
    ghost predicate Valid()
      reads this
    {
      forall key :: key in entries ==> entries[key] == PyPreimage(key.0, key.1)
    }

    constructor ()
      ensures entries == map[]
      ensures Valid()
    {
      entries := map[];
    }

    /** A cached key returns its set and leaves the cache alone; a new key
        is computed by brute force and stored. */
    method InverseXemmify(value: int, bound: int, base: int) returns (out: set<int>)
      requires Valid()
      modifies this
      ensures Valid()
      ensures out == PyPreimage(value, bound)
      ensures (value, bound, base) in old(entries) ==> entries == old(entries)
      ensures entries == old(entries)[(value, bound, base) := out]
    {
      var key := (value, bound, base);
      if key in entries {
        out := entries[key];
        assert entries == entries[key := out];
        return;
      }
      out := {};
      var x := 0;
      while x < bound
        invariant 0 <= x
        invariant forall y :: y in out <==> 0 <= y < x && y < bound && PyXemmify(y, BASE) == value
      {
        if value == PyXemmify(x, BASE) {
          out := out + {x};
        }
        x := x + 1;
      }
      assert out == PyPreimage(value, bound);
      entries := entries[key := out];
    }

    /** The union of the inverse images of `values`, through the cache. */
    method InverseXemmifyMulti(values: seq<int>, bound: int, base: int) returns (out: set<int>)
      requires Valid()
      modifies this
      ensures Valid()
      ensures forall x :: x in out <==> 0 <= x < bound && PyXemmify(x, BASE) in values
      ensures forall key :: key in old(entries) ==> key in entries && entries[key] == old(entries)[key]
      ensures entries.Keys == old(entries).Keys + (set v | v in values :: (v, bound, base))
    {
      out := {};
      for i := 0 to |values|
        invariant Valid()
        invariant forall x :: x in out <==> 0 <= x < bound && PyXemmify(x, BASE) in values[..i]
        invariant forall key :: key in old(entries) ==> key in entries && entries[key] == old(entries)[key]
        invariant entries.Keys == old(entries).Keys + (set v | v in values[..i] :: (v, bound, base))
      {
        var image := InverseXemmify(values[i], bound, base);
        out := out + image;
      }
      assert values[..|values|] == values;
    }
  }

  /** A Python list of tiers, which `hostify_order` changes in place. */
  class OrderList {
    var tiers: Order

    constructor (tiers: Order)
      ensures this.tiers == tiers
    {
      this.tiers := tiers;
    }

    /** Inserts an empty tier at the front and returns the same list
        object, not a copy. */
    method HostifyOrder() returns (result: OrderList)
      modifies this
      ensures tiers == Hostify(old(tiers))
      ensures result == this
      ensures |tiers| == |old(tiers)| + 1 && tiers[0] == {}
      ensures forall i :: 0 <= i < |old(tiers)| ==> tiers[i + 1] == old(tiers)[i]
    {
      tiers := [{}] + tiers;
      result := this;
    }
  }
}
