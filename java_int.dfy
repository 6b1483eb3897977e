/** Java's fixed-width integers and the bit-field expressions the source
    applies to them.  Dafny's `int` is unbounded, so widths, wrap-around and
    casts are written out here. */
module JavaInt {
  const TWO_32: int := 0x1_0000_0000

  /** A Java `int`. */
  type Int32 = x: int | -0x8000_0000 <= x < 0x8000_0000
  /** A Java `byte`: signed, -128..127. */
  type Int8 = x: int | -0x80 <= x < 0x80
  /** Unsigned values as the stream readers return them. */
  type UInt8 = x: int | 0 <= x < 0x100
  type UInt16 = x: int | 0 <= x < 0x1_0000
  type UInt32 = x: int | 0 <= x < 0x1_0000_0000

  /** Integer.toUnsignedLong: the unsigned value with the same 32 bits. */
  function ToUnsigned(x: Int32): (r: UInt32)
    ensures (r - x) % TWO_32 == 0
    ensures 0 <= x ==> r == x
  {
    if x < 0 then x + TWO_32 else x
  }

  /** The int whose 32 bits are `u` (what readInt returns for four bytes). */
  function ToSigned(u: UInt32): (r: Int32)
    ensures ToUnsigned(r) == u
  {
    if u < 0x8000_0000 then u else u - TWO_32
  }

  /** The Java cast `(byte) x`: the low eight bits, sign-extended. */
  function ByteCast(x: int): (r: Int8)
    ensures (r - x) % 0x100 == 0
  {
    var low := x % 0x100;
    if low < 0x80 then low else low - 0x100
  }

  /** Java `int` arithmetic: the result of `+` or `-` wraps to 32 bits. */
  function Wrap32(x: int): (r: Int32)
    ensures (r - x) % TWO_32 == 0
    ensures -0x8000_0000 <= x < 0x8000_0000 ==> r == x
  {
    (x + 0x8000_0000) % TWO_32 - 0x8000_0000
  }

  /** `(v >>> k) & (size - 1)` with `unit` = 2^k: the bit field of width
      log2(size) starting at bit k of the int `v`. */
  function Field(v: Int32, unit: nat, size: nat): (r: nat)
    requires unit > 0 && size > 0
    ensures r < size
  {
    (ToUnsigned(v) / unit) % size
  }

  /** `((v >>> k) & 1) == 1`: bit k of `v`, with `unit` = 2^k. */
  predicate Bit(v: Int32, unit: nat)
    requires unit > 0
  {
    Field(v, unit, 2) == 1
  }

  lemma MulAtLeast(b: int, d: int)
    requires b > 0 && d >= 1
    ensures b * d >= b
  {
    var e := d - 1;
    assert b * d == b + b * e;
    assert b * e >= 0;
  }

  /** Euclidean division is determined by quotient and remainder. */
  lemma DivModUnique(a: int, b: int, q: int, r: int)
    requires b > 0 && 0 <= r < b && a == b * q + r
    ensures a / b == q && a % b == r
  {
    var q', r' := a / b, a % b;
    assert a == b * q' + r';
    assert b * q - b * q' == r' - r;
    assert b * (q - q') == r' - r;
    if q > q' {
      MulAtLeast(b, q - q');
    } else if q < q' {
      MulAtLeast(b, q' - q);
    }
  }

  lemma DivAddMultiple(a: int, b: int, k: int)
    requires b > 0
    ensures (a + b * k) / b == a / b + k
  {
    var q, r := a / b, a % b;
    assert a + b * k == b * (q + k) + r;
    DivModUnique(a + b * k, b, q + k, r);
  }

  lemma ModAddMultiple(a: int, b: int, k: int)
    requires b > 0
    ensures (a + b * k) % b == a % b
  {
    var q, r := a / b, a % b;
    assert a + b * k == b * (q + k) + r;
    DivModUnique(a + b * k, b, q + k, r);
  }

  /** A bit field that lies within the low eight bits does not see the sign
      extension of a `byte` cast: it reads the same bits as the unsigned
      byte `x & 0xff`. */
  lemma FieldOfByteCast(x: int, unit: nat, size: nat, spare: nat)
    requires unit > 0 && size > 0 && unit * size * spare == 0x100
    ensures Field(ByteCast(x), unit, size) == Field(x % 0x100, unit, size)
  {
    var b := ByteCast(x);
    var low := x % 0x100;
    if b < 0 {
      var m := 0xFF_FFFF * spare;
      assert ToUnsigned(b) == low + unit * (size * m) by {
        assert ToUnsigned(b) == low + 0xFF_FFFF * 0x100;
        assert unit * (size * m) == (unit * size * spare) * 0xFF_FFFF;
      }
      DivAddMultiple(low, unit, size * m);
      ModAddMultiple(low / unit, size, m);
    }
  }

  /** Two adjacent bit fields read back the low bits they cover: the field
      at `unit` of width log2(size) above the field below `unit` gives the
      value modulo `unit * size`. */
  lemma FieldsJoin(x: Int32, unit: nat, size: nat)
    requires unit > 0 && size > 0
    ensures Field(x, unit, size) * unit + Field(x, 1, unit) == ToUnsigned(x) % (unit * size)
  {
    var u := ToUnsigned(x);
    assert u / 1 == u;
    DigitsJoin(u, unit, size);
  }

  lemma DigitsJoin(u: nat, unit: nat, size: nat)
    requires unit > 0 && size > 0
    ensures (u / unit) % size * unit + u % unit == u % (unit * size)
  {
    var n := unit * size;
    var q, r := u / n, u % n;
    var hi, lo := r / unit, r % unit;
    assert r == unit * hi + lo && 0 <= lo < unit && 0 <= r < n;
    assert hi < size by {
      if hi >= size {
        MulMonotone(unit, hi, size);
        assert false;
      }
    }
    assert u == unit * (size * q + hi) + lo by {
      assert u == n * q + r;
      Regroup(unit, size, q, hi);
    }
    DivModUnique(u, unit, size * q + hi, lo);
    DivModUnique(u / unit, size, q, hi);
    assert hi * unit == unit * hi;
  }

  lemma MulMonotone(b: int, x: int, y: int)
    requires b > 0 && x >= y
    ensures b * x >= b * y
  {
    assert b * x - b * y == b * (x - y);
  }

  lemma Regroup(a: int, b: int, q: int, h: int)
    ensures (a * b) * q + a * h == a * (b * q + h)
  {
    assert (a * b) * q == a * (b * q);
  }

  /** The field at `unit` of a value assembled from a part below `unit`, a
      `field` below `size` and anything above: that field. */
  lemma FieldOfPacked(p: Int32, unit: nat, size: nat, above: nat, field: nat, below: nat)
    requires unit > 0 && size > 0 && below < unit && field < size
    requires p == (above * size + field) * unit + below
    ensures Field(p, unit, size) == field
  {
    assert p == unit * (above * size + field) + below;
    DivModUnique(p, unit, above * size + field, below);
    assert p / unit == size * above + field;
    DivModUnique(p / unit, size, above, field);
  }
}
