/** Bytes and little-endian integers. */
module ByteTypes {

  type Byte = b: int | 0 <= b < 256

  function Zeros(n: nat): (r: seq<Byte>)
    ensures |r| == n
  {
    seq(n, i => 0)
  }

  /** The number of values n bytes can hold. */
  function Range(n: nat): nat {
    if n == 0 then 1 else 256 * Range(n - 1)
  }

  lemma Ranges()
    ensures Range(1) == 0x100 && Range(2) == 0x1_0000 && Range(8) == 0x1_0000_0000_0000_0000
  {
    assert Range(2) == 256 * Range(1);
    assert Range(4) == 256 * (256 * Range(2));
    assert Range(6) == 256 * (256 * Range(4));
    assert Range(8) == 256 * (256 * Range(6));
  }

  /** The memory of an unsigned integer of n bytes on a little-endian machine. */
  function ToBytes(v: nat, n: nat): (r: seq<Byte>)
    ensures |r| == n
  {
    if n == 0 then [] else [v % 256] + ToBytes(v / 256, n - 1)
  }

  function FromBytes(bytes: seq<Byte>): nat {
    if bytes == [] then 0 else bytes[0] + 256 * FromBytes(bytes[1..])
  }

  lemma {:induction false} FromToBytes(v: nat, n: nat)
    requires v < Range(n)
    ensures FromBytes(ToBytes(v, n)) == v
  {
    if n > 0 {
      FromToBytes(v / 256, n - 1);
      assert ToBytes(v, n)[1..] == ToBytes(v / 256, n - 1);
    }
  }

  lemma {:induction false} ToFromBytes(bytes: seq<Byte>)
    ensures ToBytes(FromBytes(bytes), |bytes|) == bytes
    ensures FromBytes(bytes) < Range(|bytes|)
  {
    if bytes != [] {
      ToFromBytes(bytes[1..]);
      assert FromBytes(bytes) % 256 == bytes[0] && FromBytes(bytes) / 256 == FromBytes(bytes[1..]);
    }
  }

  // ----- Which byte is where -----

  lemma {:induction false} MultipleAtLeast(d: int, k: nat)
    requires d > 0
    ensures d * k >= 0 && (k > 0 ==> d * k >= d)
  {
    if k > 0 {
      MultipleAtLeast(d, k - 1);
      assert d * k == d * (k - 1) + d;
    }
  }

  lemma DivisionIs(x: int, d: int, q: int, r: int)
    requires d > 0 && x == d * q + r && 0 <= r < d
    ensures x / d == q
  {
    var k := x / d - q;
    assert d * k == d * (x / d) - d * q == r - x % d;
    if k > 0 {
      MultipleAtLeast(d, k);
    }
  }

  /** A digit of a higher place and one of a lower. */
  lemma TwoDigits(a: int, b: int, e: int, f: int)
    requires a > 0 && b > 0 && 0 <= e < b && 0 <= f < a
    ensures a * b > 0 && 0 <= a * e + f < a * b
  {
    MultipleAtLeast(a, b);
    MultipleAtLeast(a, e);
    MultipleAtLeast(a, b - 1 - e);
    assert a * (b - 1 - e) == a * b - a - a * e;
  }

  lemma Regroup(a: int, b: int, q: int, e: int)
    ensures a * (b * q + e) == (a * b) * q + a * e
  {
  }

  lemma DivideTwice(x: int, a: int, b: int)
    requires a > 0 && b > 0
    ensures a * b > 0 && x / a / b == x / (a * b)
  {
    var y, f := x / a, x % a;
    var q, e := y / b, y % b;
    TwoDigits(a, b, e, f);
    Regroup(a, b, q, e);
    DivisionIs(x, a * b, q, a * e + f);
  }

  lemma {:induction false} RangePositive(n: nat)
    ensures Range(n) > 0
  {
    if n > 0 {
      RangePositive(n - 1);
    }
  }

  /** The i-th byte of an integer, lowest first; for a negative one, that of its two's complement. */
  function ByteOf(v: int, i: nat): Byte {
    RangePositive(i);
    v / Range(i) % 256
  }

  /** Little-endian: the i-th byte in memory is the i-th of the integer. */
  lemma {:induction false} ByteAt(v: nat, n: nat, i: nat)
    requires i < n
    ensures ToBytes(v, n)[i] == ByteOf(v, i)
  {
    if i > 0 {
      ByteAt(v / 256, n - 1, i - 1);
      RangePositive(i - 1);
      DivideTwice(v, 256, Range(i - 1));
    }
  }

  lemma FromBytesAt(bytes: seq<Byte>, i: nat)
    requires i < |bytes|
    ensures ByteOf(FromBytes(bytes), i) == bytes[i]
  {
    ToFromBytes(bytes);
    ByteAt(FromBytes(bytes), |bytes|, i);
  }

  lemma Reassociate(a: int, b: int)
    ensures 256 * (a * b) == (256 * a) * b
  {
  }

  lemma {:induction false} RangeSplits(i: nat, n: nat)
    requires i <= n
    ensures Range(n) == Range(i) * Range(n - i)
  {
    if i > 0 {
      RangeSplits(i - 1, n - 1);
      Reassociate(Range(i - 1), Range(n - i));
    }
  }

  /** The bytes of a negative integer are those of the unsigned one it is stored as. */
  lemma UnsignedByte(v: int, n: nat, i: nat)
    requires i < n
    ensures ByteOf(Unsigned(v, n), i) == ByteOf(v, i)
  {
    if v < 0 {
      var d, m := Range(i), Range(n - i - 1);
      RangePositive(i);
      RangeSplits(i, n);
      assert Range(n - i) == 256 * m;
      assert v == d * (v / d) + v % d;
      assert v + d * (256 * m) == d * (v / d + 256 * m) + v % d;
      DivisionIs(v + d * (256 * m), d, v / d + 256 * m, v % d);
      ModuloMore(v / d, m);
    }
  }

  lemma ModuloMore(x: int, m: int)
    ensures (x + 256 * m) % 256 == x % 256
  {
  }

  /** Two's complement: the unsigned integer with the same bytes. */
  function Unsigned(v: int, n: nat): int {
    if v < 0 then v + Range(n) else v
  }

  function Signed(u: nat, n: nat): int {
    if 2 * u < Range(n) then u else u - Range(n)
  }

  predicate IsSigned(v: int, n: nat) {
    -(Range(n) as int) <= 2 * v < Range(n)
  }

  lemma SignedRoundTrip(v: int, n: nat)
    requires IsSigned(v, n)
    ensures 0 <= Unsigned(v, n) < Range(n) && Signed(Unsigned(v, n), n) == v
  {
  }

  lemma UnsignedRoundTrip(u: nat, n: nat)
    requires u < Range(n) && Range(n) % 2 == 0
    ensures IsSigned(Signed(u, n), n) && Unsigned(Signed(u, n), n) == u
  {
  }
}
