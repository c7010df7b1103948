/** Little-endian fields and length-prefixed buffers, as written by `Data::write_fixed` and read
    back by `DataOwnedReader::read_fixed` or by the stream reader. */
module Wire {
  import opened Outcomes

  newtype byte = x: int | 0 <= x < 256
  type bytes = seq<byte>

  lemma Assoc<T>(a: seq<T>, b: seq<T>, c: seq<T>)
    ensures (a + b) + c == a + (b + c)
  {
  }

  lemma SplitAppend<T>(a: seq<T>, b: seq<T>)
    ensures (a + b)[..|a|] == a && (a + b)[|a|..] == b
  {
  }

  lemma HeadTail<T>(a: seq<T>)
    requires a != []
    ensures a == [a[0]] + a[1..]
  {
  }

  const TWO_32: nat := 0x1_0000_0000
  const TWO_64: nat := 0x1_0000_0000_0000_0000

  function Pow256(k: nat): (p: nat)
    ensures p > 0
  {
    if k == 0 then 1 else 256 * Pow256(k - 1)
  }

  lemma Pow256Widths()
    ensures Pow256(1) == 256 && Pow256(4) == TWO_32 && Pow256(8) == TWO_64
  {
    assert Pow256(2) == 0x1_0000;
    assert Pow256(4) == 256 * Pow256(3) && Pow256(3) == 256 * Pow256(2);
    assert Pow256(8) == 256 * Pow256(7) && Pow256(7) == 256 * Pow256(6);
    assert Pow256(6) == 256 * Pow256(5) && Pow256(5) == 256 * Pow256(4);
  }

  /** The `k` low-order bytes of `n`, least significant first. */
  function LE(n: nat, k: nat): (b: bytes)
    ensures |b| == k
  {
    if k == 0 then [] else [(n % 256) as byte] + LE(n / 256, k - 1)
  }

  function FromLE(b: bytes): (n: nat)
    ensures n < Pow256(|b|)
  {
    if b == [] then 0 else b[0] as int + 256 * FromLE(b[1..])
  }

  lemma {:induction false} FromLEOfLE(n: nat, k: nat)
    requires n < Pow256(k)
    ensures FromLE(LE(n, k)) == n
  {
    if k > 0 {
      FromLEOfLE(n / 256, k - 1);
      assert LE(n, k)[1..] == LE(n / 256, k - 1);
    }
  }

  lemma LowAndHigh(low: nat, high: nat)
    requires low < 256
    ensures (low + 256 * high) % 256 == low && (low + 256 * high) / 256 == high
  {
  }

  lemma LEUnfolds(n: nat, k: nat)
    requires k > 0
    ensures LE(n, k) == [(n % 256) as byte] + LE(n / 256, k - 1)
  {
  }

  lemma {:induction false} LEOfFromLE(b: bytes)
    ensures LE(FromLE(b), |b|) == b
  {
    if b != [] {
      var low, high := b[0] as int, FromLE(b[1..]);
      assert FromLE(b) == low + 256 * high;
      hide LE, FromLE;
      LowAndHigh(low, high);
      LEUnfolds(low + 256 * high, |b|);
      LEOfFromLE(b[1..]);
      HeadTail(b);
    } else {
      assert LE(0, 0) == [];
    }
  }

  /** Least significant first: the i-th byte of a field is the i-th digit to the base 256. */
  lemma {:induction false} LEDigits(n: nat, k: nat, i: nat)
    requires i < k
    ensures LE(n, k)[i] as int == (n / Pow256(i)) % 256
  {
    if i > 0 {
      LEDigits(n / 256, k - 1, i - 1);
      DivDiv(n, Pow256(i - 1));
    }
  }

  lemma DivDiv(n: nat, p: nat)
    requires p > 0
    ensures n / 256 / p == n / (256 * p)
  {
    var q, r := n / 256, n % 256;
    var a, b := q / p, q % p;
    assert n == 256 * (p * a + b) + r;
    assert n == (256 * p) * a + (256 * b + r);
    assert 0 <= 256 * b + r < 256 * p;
    DivUnique(n, 256 * p, a, 256 * b + r);
  }

  lemma DivUnique(n: nat, d: nat, q: nat, r: nat)
    requires d > 0 && n == d * q + r && r < d
    ensures n / d == q
  {
    if n / d < q {
      MulStep(d, n / d, q);
    } else if q < n / d {
      MulStep(d, q, n / d);
    }
  }

  lemma MulStep(d: nat, a: nat, b: nat)
    requires a < b
    ensures d * a + d <= d * b
  {
    if a + 1 < b {
      MulStep(d, a, b - 1);
    }
    assert d * ((b - 1) + 1) == d * (b - 1) + d;
  }

  /** Two's complement: -1 is all ones, and the bytes of a non-negative value are its digits. */
  lemma SignedBytes()
    ensures PutI32(-1) == [255, 255, 255, 255]
    ensures PutI32(1000) == [0xE8, 3, 0, 0] && PutI32(2000) == [0xD0, 7, 0, 0]
    ensures PutI32(2400) == [0x60, 9, 0, 0] && PutI32(2500) == [0xC4, 9, 0, 0]
  {
    Pow256Widths();
    FourBytes(0xFFFF_FFFF);
    FourBytes(1000);
    FourBytes(2000);
    FourBytes(2400);
    FourBytes(2500);
  }

  lemma FourBytes(n: nat)
    ensures LE(n, 4) == [(n % 256) as byte, (n / 256 % 256) as byte, (n / 256 / 256 % 256) as byte,
                         (n / 256 / 256 / 256 % 256) as byte]
  {
    assert LE(n / 256 / 256 / 256, 1) == [(n / 256 / 256 / 256 % 256) as byte] + LE(n / 256 / 256 / 256 / 256, 0);
    assert LE(n / 256 / 256, 2) == [(n / 256 / 256 % 256) as byte] + LE(n / 256 / 256 / 256, 1);
    assert LE(n / 256, 3) == [(n / 256 % 256) as byte] + LE(n / 256 / 256, 2);
    assert LE(n, 4) == [(n % 256) as byte] + LE(n / 256, 3);
  }

  /** `as u32` on a length. */
  function U32(n: nat): (r: nat)
    ensures r < TWO_32
  {
    n % 0x1_0000_0000
  }

  /** The two's complement image of a signed value in `k` bytes, and its inverse. */
  function Unsigned(v: int, k: nat): (n: nat)
    requires 0 <= 2 * v + Pow256(k) < 2 * Pow256(k)
    ensures n < Pow256(k)
  {
    if v < 0 then v + Pow256(k) else v
  }

  function Signed(n: nat, k: nat): (v: int)
    requires n < Pow256(k)
    ensures 0 <= 2 * v + Pow256(k) < 2 * Pow256(k)
  {
    if 2 * n < Pow256(k) then n else n - Pow256(k)
  }

  type i32 = v: int | -0x8000_0000 <= v < 0x8000_0000
  type i64 = v: int | -0x8000_0000_0000_0000 <= v < 0x8000_0000_0000_0000

  function PutU8(n: byte): bytes { [n] }

  function PutBool(b: bool): bytes { [if b then 1 else 0] }

  function PutU32(n: nat): bytes { LE(n, 4) }

  function PutI32(v: i32): bytes {
    Pow256Widths(); LE(Unsigned(v, 4), 4)
  }

  function PutI64(v: i64): bytes {
    Pow256Widths(); LE(Unsigned(v, 8), 8)
  }

  /** A string or buffer: its length as `u32`, then its bytes. */
  function PutBuf(b: bytes): bytes { PutU32(U32(|b|)) + b }

  /** Reading consumes a prefix and leaves the rest; a short reader is an error. */
  function TakeRaw(b: bytes, k: nat): (r: Result<(bytes, bytes)>)
    ensures r.Ok? <==> |b| >= k
    ensures r.Ok? ==> r.value.0 + r.value.1 == b && |r.value.0| == k
  {
    if |b| < k then Err(Eof) else Ok((b[..k], b[k..]))
  }

  function TakeU8(b: bytes): Result<(byte, bytes)> {
    var (h, t) :- TakeRaw(b, 1);
    Ok((h[0], t))
  }

  function TakeBool(b: bytes): Result<(bool, bytes)> {
    var (h, t) :- TakeRaw(b, 1);
    Ok((h[0] != 0, t))
  }

  function TakeU32(b: bytes): (r: Result<(nat, bytes)>)
    ensures r.Ok? ==> r.value.0 < TWO_32 && |r.value.1| + 4 == |b|
  {
    Pow256Widths();
    var (h, t) :- TakeRaw(b, 4);
    Ok((FromLE(h), t))
  }

  function AsI32(h: bytes): i32
    requires |h| == 4
  {
    Pow256Widths(); Signed(FromLE(h), 4)
  }

  function AsI64(h: bytes): i64
    requires |h| == 8
  {
    Pow256Widths(); Signed(FromLE(h), 8)
  }

  function TakeI32(b: bytes): Result<(i32, bytes)> {
    var (h, t) :- TakeRaw(b, 4);
    Ok((AsI32(h), t))
  }

  function TakeI64(b: bytes): Result<(i64, bytes)> {
    var (h, t) :- TakeRaw(b, 8);
    Ok((AsI64(h), t))
  }

  function TakeBuf(b: bytes): (r: Result<(bytes, bytes)>)
    ensures r.Ok? ==> |r.value.1| < |b|
  {
    var (n, t) :- TakeU32(b);
    TakeRaw(t, n)
  }

  lemma TakeRawOfAppend(h: bytes, t: bytes)
    ensures TakeRaw(h + t, |h|) == Ok((h, t))
  {
    SplitAppend(h, t);
  }

  /** Every field reads back as written and leaves exactly what follows it. */
  lemma FieldsRoundTrip(t: bytes)
    ensures forall n: byte :: TakeU8(PutU8(n) + t) == Ok((n, t))
    ensures forall b: bool :: TakeBool(PutBool(b) + t) == Ok((b, t))
  {
    forall n: byte ensures TakeU8(PutU8(n) + t) == Ok((n, t)) { TakeRawOfAppend([n], t); }
    forall b: bool ensures TakeBool(PutBool(b) + t) == Ok((b, t)) { TakeRawOfAppend(PutBool(b), t); }
  }

  lemma U32RoundTrip(n: nat, t: bytes)
    requires n < TWO_32
    ensures TakeU32(PutU32(n) + t) == Ok((n, t))
  {
    Pow256Widths();
    FromLEOfLE(n, 4);
    TakeRawOfAppend(PutU32(n), t);
  }

  lemma I32RoundTrip(v: i32, t: bytes)
    ensures TakeI32(PutI32(v) + t) == Ok((v, t))
  {
    Pow256Widths();
    FromLEOfLE(Unsigned(v, 4), 4);
    TakeRawOfAppend(PutI32(v), t);
  }

  lemma I64RoundTrip(v: i64, t: bytes)
    ensures TakeI64(PutI64(v) + t) == Ok((v, t))
  {
    Pow256Widths();
    FromLEOfLE(Unsigned(v, 8), 8);
    TakeRawOfAppend(PutI64(v), t);
  }

  lemma BufRoundTrip(b: bytes, t: bytes)
    requires |b| < TWO_32
    ensures TakeBuf(PutBuf(b) + t) == Ok((b, t))
  {
    hide LE, FromLE;
    Assoc(PutU32(|b|), b, t);
    U32RoundTrip(|b|, b + t);
    TakeRawOfAppend(b, t);
  }

  /** A non-negative `i32` and the same value as `u32` have the same bytes, so `args_count`
      written as `i32` is what the dispatcher reads as `u32`. */
  lemma I32AsU32(n: nat)
    requires n < 0x8000_0000
    ensures PutI32(n) == PutU32(n)
  {
    Pow256Widths();
  }

  function Ascii(s: string): (b: bytes)
    ensures |b| == |s| && forall i :: 0 <= i < |s| ==> b[i] as int == s[i] as int % 256
  {
    seq(|s|, i requires 0 <= i < |s| => (s[i] as int % 256) as byte)
  }
}
