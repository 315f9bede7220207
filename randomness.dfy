/**
 * The random draws of the scene, with `Math.random()` replaced by an injected
 * real `r` in [0, 1).
 */
module Randomness {

  /** The integers that `Math.floor(r * span)` can produce for some `0 <= r < 1`. */
  predicate IsDraw(span: int, d: int)
  {
    if span > 0 then 0 <= d < span else span <= d <= 0
  }

  /** `Math.floor(r * span)`. */
  function Scaled(r: real, span: int): (d: int)
    requires 0.0 <= r < 1.0
    ensures IsDraw(span, d)
  {
    ScaledBounds(r, span);
    (r * span as real).Floor
  }

  lemma ScaledBounds(r: real, span: int)
    requires 0.0 <= r < 1.0
    ensures span > 0 ==> 0.0 <= r * span as real < span as real
    ensures span <= 0 ==> span as real <= r * span as real <= 0.0
    ensures span < 0 ==> span as real < r * span as real
  {
  }

  /** Every integer that `IsDraw` admits is produced by some `r`: the characterisation is exact. */
  lemma DrawReachable(span: int, d: int)
    requires IsDraw(span, d)
    ensures exists r: real :: 0.0 <= r < 1.0 && Scaled(r, span) == d
  {
    var s := span as real;
    if span == 0 {
      assert Scaled(0.0, span) == d;
    } else if span > 0 || d > span {
      var r := d as real / s;
      assert r * s == d as real;
      assert 0.0 <= r < 1.0;
      assert Scaled(r, span) == d;
    } else {
      // d == span < 0: any r * span in (span, span + 1) floors to span
      var r := (s + 0.5) / s;
      assert r * s == s + 0.5;
      assert (1.0 - r) * s == -0.5;
      assert (1.0 - r) * (-s) == 0.5;
      assert r * (-s) == -s - 0.5;
      assert -s - 0.5 > 0.0;
      SignOfFactor(1.0 - r, -s);
      SignOfFactor(r, -s);
      assert 0.0 <= r < 1.0;
      assert Scaled(r, span) == d;
    }
  }

  lemma SignOfFactor(a: real, b: real)
    requires b > 0.0 && a * b > 0.0
    ensures a > 0.0
  {
  }

  /** `Phaser.Math.Between(min, max)`, which is `Math.floor(Math.random() * (max - min + 1) + min)`. */
  function Between(min: int, max: int, r: real): (n: int)
    requires 0.0 <= r < 1.0
    ensures min <= max ==> min <= n <= max
    ensures max < min ==> max + 1 <= n <= min
  {
    min + Scaled(r, max - min + 1)
  }
}
