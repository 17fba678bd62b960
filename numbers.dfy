/**
 * Numeric helpers shared by the game model: the optional value that stands
 * for JavaScript's `undefined`, `Math.pow` with a natural exponent,
 * `Math.floor(Math.sqrt(...))`, and the decimal rendering of a level that
 * generated ids such as `free-12` use.
 */
module Numbers {

  datatype Option<T> = None | Some(value: T) {
    function GetOr(default: T): T {
      match this
      case Some(v) => v
      case None => default
    }
  }

  /** `Math.pow(b, n)` for a natural exponent. */
  function Pow(b: real, n: nat): real {
    if n == 0 then 1.0 else b * Pow(b, n - 1)
  }

  function MinR(a: real, b: real): (r: real)
    ensures r <= a && r <= b && (r == a || r == b)
  {
    if a <= b then a else b
  }

  function MaxR(a: real, b: real): (r: real)
    ensures r >= a && r >= b && (r == a || r == b)
  {
    if a >= b then a else b
  }

  lemma {:induction false} PowAtLeastOne(b: real, n: nat)
    requires b >= 1.0
    ensures Pow(b, n) >= 1.0
  {
    if n > 0 {
      PowAtLeastOne(b, n - 1);
    }
  }

  lemma {:induction false} PowPositive(b: real, n: nat)
    requires b > 0.0
    ensures Pow(b, n) > 0.0
  {
    if n > 0 {
      PowPositive(b, n - 1);
    }
  }

  /** For a base above one, raising the exponent strictly raises the power. */
  lemma {:induction false} PowStrictlyIncreasing(b: real, m: nat, n: nat)
    requires b > 1.0 && m < n
    ensures Pow(b, m) < Pow(b, n)
  {
    PowAtLeastOne(b, n - 1);
    if m < n - 1 {
      PowStrictlyIncreasing(b, m, n - 1);
    }
  }

  /** The floor of a real that is at least one larger is strictly larger. */
  lemma FloorStrict(x: real, y: real)
    requires x + 1.0 <= y
    ensures x.Floor < y.Floor
  {
  }

  /**
   * A price curve `Math.floor(c * Math.pow(b, n))` with b > 1 and c*(b-1) >= 1
   * gains at least one coin per step, so its floor strictly increases.
   */
  lemma {:induction false} FloorPowStrictlyIncreasing(c: real, b: real, m: nat, n: nat)
    requires b > 1.0 && c * (b - 1.0) >= 1.0 && m < n
    ensures (c * Pow(b, m)).Floor < (c * Pow(b, n)).Floor
  {
    var p := Pow(b, n - 1);
    PowAtLeastOne(b, n - 1);
    assert c > 0.0;
    assert c * p * (b - 1.0) >= c * (b - 1.0) by {
      assert c * (b - 1.0) * p >= c * (b - 1.0) * 1.0;
    }
    assert c * Pow(b, n) == c * p + c * p * (b - 1.0);
    FloorStrict(c * p, c * Pow(b, n));
    if m < n - 1 {
      FloorPowStrictlyIncreasing(c, b, m, n - 1);
    }
  }

  /** `Math.floor(Math.random() * n)` for a draw in [0, 1): an index below n. */
  function PickIndex(draw: real, n: nat): (i: nat)
    requires 0.0 <= draw < 1.0 && n > 0
    ensures i < n
    ensures i as real <= draw * n as real < (i + 1) as real
  {
    var x := n as real;
    assert 0.0 <= draw * x by { assert draw >= 0.0 && x > 0.0; }
    assert draw * x < x by { assert (1.0 - draw) * x > 0.0; }
    (draw * x).Floor
  }

  /** `Math.floor(Math.sqrt(k))` for a natural k: the largest r with r*r <= k. */
  function ISqrt(k: nat): (r: nat)
    ensures r * r <= k < (r + 1) * (r + 1)
  {
    if k == 0 then 0
    else
      var s := ISqrt(k - 1);
      if (s + 1) * (s + 1) <= k then s + 1 else s
  }

  /** The decimal digits of n, as JavaScript's template literals print it. */
  function NatToString(n: nat): (s: string)
    ensures |s| >= 1
    ensures forall i :: 0 <= i < |s| ==> '0' <= s[i] <= '9'
    decreases n
  {
    if n < 10 then [DigitChar(n)] else NatToString(n / 10) + [DigitChar(n % 10)]
  }

  function DigitChar(d: nat): (c: char)
    requires d < 10
    ensures '0' <= c <= '9' && c as int - '0' as int == d
  {
    ['0', '1', '2', '3', '4', '5', '6', '7', '8', '9'][d]
  }

  /** Different numbers print differently, so ids built from them are distinct. */
  lemma {:induction false} NatToStringInjective(a: nat, b: nat)
    requires NatToString(a) == NatToString(b)
    ensures a == b
    decreases a
  {
    var sa, sb := NatToString(a), NatToString(b);
    if a < 10 || b < 10 {
      assert a < 10 && b < 10;
      assert DigitChar(a) == sa[0] == DigitChar(b);
    } else {
      var pa, pb := NatToString(a / 10), NatToString(b / 10);
      assert sa == pa + [DigitChar(a % 10)] && sb == pb + [DigitChar(b % 10)];
      assert DigitChar(a % 10) == sa[|sa| - 1] == DigitChar(b % 10);
      assert pa == sa[..|sa| - 1] == pb;
      NatToStringInjective(a / 10, b / 10);
    }
  }
}
