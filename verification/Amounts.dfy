/**
 * The 64-bit arithmetic of prices and units: the signed `Amount`, the unsigned
 * protocol-buffer fields, the casts between them, and the total price.
 */
module Amounts {
  import opened Wrappers

  const TWO_63 := 0x8000_0000_0000_0000
  const TWO_64 := 0x1_0000_0000_0000_0000

  type Int64 = x: int | -TWO_63 <= x < TWO_63
  type UInt64 = x: int | 0 <= x < TWO_64

  /** The cast of an unsigned field to `Amount`. */
  function ToInt64(x: UInt64): Int64 {
    if x < TWO_63 then x else x - TWO_64
  }

  /** The cast of an `Amount` to an unsigned field. */
  function ToUInt64(x: Int64): UInt64 {
    if x < 0 then x + TWO_64 else x
  }

  /** Two's complement wrap-around of a mathematical result. */
  function Wrap(x: int): Int64 {
    var r := x % TWO_64;
    if r < TWO_63 then r else r - TWO_64
  }

  /** Division that rounds toward zero. */
  function TruncDiv(a: int, b: int): int
    requires b > 0
  {
    if a >= 0 then a / b else -((-a) / b)
  }

  /**
   * The outcome of computing a total: the process dies (a failed CHECK), the
   * total does not fit, or it is known.
   */
  datatype Total = Dies | Overflow | Fits(sat: Int64)

  function GetTotalSat(price: Int64, units: Int64): Total {
    var total := Wrap(price * units);
    if units <= 0 then Dies
    else if TruncDiv(total, units) != price then Overflow
    else Fits(total)
  }

  lemma TruncDivBounds(a: int, b: int)
    requires b > 0
    ensures -b < a - b * TruncDiv(a, b) < b
  {
    if a >= 0 {
      assert a == b * (a / b) + a % b;
    } else {
      assert -a == b * ((-a) / b) + (-a) % b;
      assert b * TruncDiv(a, b) == -(b * ((-a) / b));
    }
  }

  lemma TruncDivExact(q: int, b: int)
    requires b > 0
    ensures TruncDiv(q * b, b) == q
  {
    TruncDivBounds(q * b, b);
    var d := TruncDiv(q * b, b);
    assert q * b - b * d == b * (q - d);
    assert -b < b * (q - d) < b;
    NoSmallMultiple(b, q - d);
  }

  lemma NoSmallMultiple(b: int, k: int)
    requires b > 0 && -b < b * k < b
    ensures k == 0
  {
    assert k >= 1 ==> b * k >= b;
    assert k <= -1 ==> b * k <= -b;
  }

  /**
   * The division test is exact: with at least one unit, a total is returned
   * precisely when the mathematical product fits, and it is that product.
   */
  lemma TotalIsExact(price: Int64, units: Int64)
    ensures GetTotalSat(price, units).Dies? <==> units <= 0
    ensures GetTotalSat(price, units).Fits? <==> units > 0 && -TWO_63 <= price * units < TWO_63
    ensures GetTotalSat(price, units).Fits? ==> GetTotalSat(price, units).sat == price * units
  {
    if units > 0 {
      var product := price * units;
      var total := Wrap(product);
      if -TWO_63 <= product < TWO_63 {
        assert total == product;
        TruncDivExact(price, units);
      } else {
        TruncDivBounds(total, units);
        WrapDistance(product);
      }
    }
  }

  lemma WrapDistance(x: int)
    requires !(-TWO_63 <= x < TWO_63)
    ensures Wrap(x) - x >= TWO_64 || x - Wrap(x) >= TWO_64
  {
  }

  /** The bounds test of an order on the units somebody asks for. */
  predicate UnitsAccepted(units: Int64, minUnits: UInt64, maxUnits: UInt64) {
    !(units > ToInt64(maxUnits) || units < ToInt64(minUnits))
  }

  /** The unsigned subtraction that computes the units left on an order. */
  function Remaining(maxUnits: UInt64, units: UInt64): UInt64 {
    (maxUnits - units) % TWO_64
  }

  /**
   * Despite the signed casts, no accepted amount makes the remaining units
   * wrap around, exactly when it is not the case that only the minimum needs the top bit.
   */
  lemma RemainingNeverWraps(minUnits: UInt64, maxUnits: UInt64)
    ensures (forall units: Int64 :: UnitsAccepted(units, minUnits, maxUnits) ==>
                                      ToUInt64(units) <= maxUnits
                                      && Remaining(maxUnits, ToUInt64(units)) == maxUnits - ToUInt64(units))
            <==> !(maxUnits < TWO_63 <= minUnits)
    ensures minUnits <= maxUnits ==> !(maxUnits < TWO_63 <= minUnits)
  {
    if maxUnits < TWO_63 <= minUnits {
      assert UnitsAccepted(-1, minUnits, maxUnits) && ToUInt64(-1) > maxUnits;
    }
  }
}
