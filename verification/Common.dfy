/**
  Shared vocabulary: optional values, the service layer's (value, error) results,
  and 64-bit integers whose addition, subtraction and multiplication wrap around
  silently, as they do in the billing services.
 */
module Common {

  datatype Option<+T> = None | Some(value: T)

  datatype Result<+T> = Ok(value: T) | Err

  /** Instants and durations, in nanoseconds. */
  type Time = int

  const TWO_63: int := 0x8000_0000_0000_0000
  const TWO_64: int := 0x1_0000_0000_0000_0000

  type int64 = x: int | -TWO_63 <= x < TWO_63

  /** The int64 congruent to x modulo 2^64: what a wrapping operation leaves of x. */
  function Wrap64(x: int): (r: int64)
    ensures InRange64(x) ==> r == x
  {
    (x + TWO_63) % TWO_64 - TWO_63
  }

  predicate InRange64(x: int) {
    -TWO_63 <= x < TWO_63
  }

  /** A wrapped operand contributes to a wrapped sum or difference as the unwrapped one would. */
  lemma WrapAbsorbs(a: int, b: int)
    ensures Wrap64(Wrap64(a) + b) == Wrap64(a + b)
    ensures Wrap64(a + Wrap64(b)) == Wrap64(a + b)
    ensures Wrap64(Wrap64(a) - b) == Wrap64(a - b)
    ensures Wrap64(a - Wrap64(b)) == Wrap64(a - b)
  {
    var k := WrapShift(a);
    var l := WrapShift(b);
    WrapPeriod(a + b, -k);
    WrapPeriod(a + b, -l);
    WrapPeriod(a - b, -k);
    WrapPeriod(a - b, l);
  }

  lemma WrapsAdd(a: int, b: int)
    ensures Wrap64(Wrap64(a) + Wrap64(b)) == Wrap64(a + b)
  {
    hide Wrap64;
    WrapAbsorbs(a, Wrap64(b));
    WrapAbsorbs(a, b);
  }

  lemma WrapShift(a: int) returns (k: int)
    ensures Wrap64(a) == a - k * TWO_64
  {
    k := (a + TWO_63) / TWO_64;
  }

  lemma WrapPeriod(a: int, k: int)
    ensures Wrap64(a + k * TWO_64) == Wrap64(a)
  {
  }

  lemma ProductGrows(a: nat, b: nat, p: nat, q: nat)
    requires a <= b && p <= q
    ensures a * p <= b * q
  {
    assert a * p <= b * p <= b * q;
  }

  lemma WrapsNegative(x: int)
    requires TWO_63 <= x < TWO_64
    ensures Wrap64(x) == x - TWO_64 < 0
  {
    WrapPeriod(x, -1);
  }

  /** Wrapping undoes no more of a larger number's growth than of a smaller one's. */
  lemma WrapGrowth(x: int, y: int, d: int)
    requires x <= y <= x + d
    ensures Wrap64(y) <= Wrap64(x) + d
  {
    var k := WrapShift(x);
    var l := WrapShift(y);
  }
}
