/** The value transforms of the xeme calculator and their inverse images.

    A raw value is a roulette number in [0, bound). A transform maps it to
    a display value: `xemmify` folds the quotient by the base back into the
    remainder, the "qq" transform keeps the last decimal digit, and the raw
    transform is the identity. The inverse images are found by brute force
    over [0, bound), exactly as calculator.js does. */
module Transform {

  /** The fixed base and bound of calculator.js. */
  const BASE: int := 10
  const BOUND: int := 37

  /** JavaScript's `%` on integers: the remainder takes the sign of the
      dividend (Dafny's own `%` never returns a negative number). */
  function JsRem(a: int, b: int): (r: int)
    requires b >= 1
    ensures a >= 0 ==> r == a % b
    ensures a < 0 ==> -b < r <= 0
  {
    if a >= 0 then a % b else -((-a) % b)
  }

  /** `xemmify` as calculator.js computes it: `value % base` truncates and
      `Math.floor(value / base)` rounds down, which for a positive base is
      Dafny's `/`. */
  function Xemmify(value: int, base: int): (r: int)
    requires base >= 1
    ensures value >= 0 ==> 0 <= r < base
  {
    JsRem(JsRem(value, base) + value / base, base)
  }

  /** The "qq" transform of calculator.js: the last decimal digit. */
  function QQTransform(value: int): (r: int)
    ensures value >= 0 ==> 0 <= r < BASE
  {
    JsRem(value, BASE)
  }

  /** The transform kinds the calculator offers; calculator.js selects them
      by the strings 'xeme', 'qq' and 'raw'. */
  datatype TransformType = Xeme | QQ | Raw

  function TransformValue(value: int, t: TransformType): int
  {
    match t
    case Xeme => Xemmify(value, BASE)
    case QQ => QQTransform(value)
    case Raw => value
  }

  /** Every raw value in [0, bound) whose xemmify under `base` is `d`. */
  function XemmifyPreimage(d: int, bound: int, base: int): set<int>
    requires base >= 1
  {
    set x | 0 <= x < bound && Xemmify(x, base) == d
  }

  /** Every raw value in [0, bound) whose xemmify under `base` is one of `ds`. */
  function XemmifyPreimageOf(ds: seq<int>, bound: int, base: int): set<int>
    requires base >= 1
  {
    set x | 0 <= x < bound && Xemmify(x, base) in ds
  }

  /** The inverse image of `d` under a transform: brute force over [0, bound)
      for xemmify and qq, the singleton {d} for the raw transform. */
  function TransformPreimage(t: TransformType, d: int, bound: int): set<int>
  {
    match t
    case Raw => {d}
    case _ => set x | 0 <= x < bound && TransformValue(x, t) == d
  }

  lemma TransformRange(value: int, t: TransformType)
    requires value >= 0
    requires t != Raw
    ensures 0 <= TransformValue(value, t) < BASE
  {
  }

  /** Transforming a raw value and taking the inverse image gets it back. */
  lemma PreimageContainsSource(t: TransformType, x: int, bound: int)
    requires 0 <= x < bound
    ensures x in TransformPreimage(t, TransformValue(x, t), bound)
  {
  }

  method InverseXemmify(d: int, bound: int, base: int) returns (result: set<int>)
    requires base >= 1
    ensures forall x :: x in result <==> 0 <= x < bound && Xemmify(x, base) == d
    ensures result == XemmifyPreimage(d, bound, base)
  {
    result := {};
    var x := 0;
    while x < bound
      invariant 0 <= x
      invariant forall y :: y in result <==> 0 <= y < x && y < bound && Xemmify(y, base) == d
    {
      if d == Xemmify(x, base) {
        result := result + {x};
      }
      x := x + 1;
    }
  }

  method InverseXemmifyMulti(ds: seq<int>, bound: int, base: int) returns (result: set<int>)
    requires base >= 1
    ensures forall x :: x in result <==> 0 <= x < bound && Xemmify(x, base) in ds
    ensures result == XemmifyPreimageOf(ds, bound, base)
  {
    result := {};
    for i := 0 to |ds|
      invariant forall x :: x in result <==> 0 <= x < bound && Xemmify(x, base) in ds[..i]
    {
      var image := InverseXemmify(ds[i], bound, base);
      result := result + image;
    }
    assert ds[..|ds|] == ds;
  }

  method InverseQQTransform(d: int, bound: int) returns (result: set<int>)
    ensures forall x :: x in result <==> 0 <= x < bound && QQTransform(x) == d
  {
    result := {};
    var x := 0;
    while x < bound
      invariant 0 <= x
      invariant forall y :: y in result <==> 0 <= y < x && y < bound && QQTransform(y) == d
    {
      if d == QQTransform(x) {
        result := result + {x};
      }
      x := x + 1;
    }
  }

  method InverseQQTransformMulti(ds: seq<int>, bound: int) returns (result: set<int>)
    ensures forall x :: x in result <==> 0 <= x < bound && QQTransform(x) in ds
  {
    result := {};
    for i := 0 to |ds|
      invariant forall x :: x in result <==> 0 <= x < bound && QQTransform(x) in ds[..i]
    {
      var image := InverseQQTransform(ds[i], bound);
      result := result + image;
    }
    assert ds[..|ds|] == ds;
  }

  method InverseTransform(d: int, bound: int, t: TransformType) returns (result: set<int>)
    ensures result == TransformPreimage(t, d, bound)
    ensures t != Raw ==> forall x :: x in result <==> 0 <= x < bound && TransformValue(x, t) == d
    ensures t == Raw ==> result == {d}
  {
    match t
    case Xeme =>
      result := InverseXemmify(d, bound, BASE);
    case QQ =>
      result := InverseQQTransform(d, bound);
    case Raw =>
      result := {d};
  }
}
