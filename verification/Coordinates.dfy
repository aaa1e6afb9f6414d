/**
 Coordinate codecs of the core package: the scaling between Tyria and
 longitude/latitude, and the eight-byte big-endian form stored in trails.
 Scaling is done in exact reals.
 */
module Coordinates {
  import opened Wrappers

  const MAP_TYRIA_MAX_X := 81920.0
  const MAP_TYRIA_MAX_Y := 114688.0

  datatype LatLng = LatLng(lat: real, lng: real)
  datatype Coordinate = Coordinate(x: int, y: int)

  // ---- Scaling ----

  function TyriaToLatLng(tyriaX: real, tyriaY: real): LatLng {
    var pctX := tyriaX / MAP_TYRIA_MAX_X;
    var pctY := tyriaY / MAP_TYRIA_MAX_Y;
    LatLng(-80.0 + pctY * 160.0, -180.0 + pctX * 360.0)
  }

  /** JavaScript's rounding: halves go up, also below zero. */
  function Round(v: real): int {
    (v + 0.5).Floor
  }

  function LatLngToTyria(lat: real, lng: real): Coordinate {
    var pctX := (lng + 180.0) / 360.0;
    var pctY := (lat + 80.0) / 160.0;
    Coordinate(Round(pctX * MAP_TYRIA_MAX_X), Round(pctY * MAP_TYRIA_MAX_Y))
  }

  lemma RoundRecovers(n: int, noise: real)
    ensures Round(n as real + noise) == n <==> -0.5 <= noise < 0.5
  {
    var f := (n as real + noise + 0.5).Floor;
    assert f as real <= n as real + noise + 0.5 < f as real + 1.0;
  }

  /**
   The store may disturb a position by less than half a unit, and by no more. One unit is 360/81920
   degrees of longitude and 160/114688 degrees of latitude.
   */
  lemma NoisyRoundTrip(x: int, y: int, noiseLat: real, noiseLng: real)
    ensures var p := TyriaToLatLng(x as real, y as real);
            LatLngToTyria(p.lat + noiseLat, p.lng + noiseLng) == Coordinate(x, y)
            <==> && -160.0 / 114688.0 / 2.0 <= noiseLat < 160.0 / 114688.0 / 2.0
                 && -360.0 / 81920.0 / 2.0 <= noiseLng < 360.0 / 81920.0 / 2.0
  {
    var p := TyriaToLatLng(x as real, y as real);
    var dx := noiseLng * MAP_TYRIA_MAX_X / 360.0;
    var dy := noiseLat * MAP_TYRIA_MAX_Y / 160.0;
    assert (p.lng + noiseLng + 180.0) / 360.0 * MAP_TYRIA_MAX_X == x as real + dx;
    assert (p.lat + noiseLat + 80.0) / 160.0 * MAP_TYRIA_MAX_Y == y as real + dy;
    RoundRecovers(x, dx);
    RoundRecovers(y, dy);
  }

  /** Positions on the map, and only those, land where the geospatial index accepts them. */
  lemma ScaledInsideIndex(x: real, y: real)
    ensures var p := TyriaToLatLng(x, y);
            -180.0 <= p.lng <= 180.0 && -80.0 <= p.lat <= 80.0
            <==> 0.0 <= x <= 81920.0 && 0.0 <= y <= 114688.0
  {
  }

  /** The map's 81920 by 114688 units span 360 by 160 degrees, from the south-west corner on. */
  lemma ScalesLinearly(x: real, y: real)
    ensures var p := TyriaToLatLng(x, y);
            p.lng == -180.0 + x * 360.0 / 81920.0 && p.lat == -80.0 + y * 160.0 / 114688.0
  {
  }

  lemma ScalingIsStrictlyMonotone(x1: real, y1: real, x2: real, y2: real)
    ensures TyriaToLatLng(x1, y1).lng < TyriaToLatLng(x2, y2).lng <==> x1 < x2
    ensures TyriaToLatLng(x1, y1).lat < TyriaToLatLng(x2, y2).lat <==> y1 < y2
  {
  }

  // ---- Packing ----

  type byte = b: int | 0 <= b < 256

  const UINT32_LIMIT := 0x1_0000_0000

  predicate IsUint32(n: int) {
    0 <= n < UINT32_LIMIT
  }

  function BigEndian32(n: int): (b: seq<byte>)
    requires IsUint32(n)
    ensures |b| == 4
  {
    [n / 0x100_0000, n / 0x1_0000 % 256, n / 0x100 % 256, n % 256]
  }

  function Packed(x: int, y: int): (b: seq<byte>)
    requires IsUint32(x) && IsUint32(y)
    ensures |b| == 8
  {
    BigEndian32(x) + BigEndian32(y)
  }

  /** Writes one word; the value is refused, as a buffer does, unless it is a uint32. */
  method WriteUInt32BE(buffer: array<byte>, value: int, offset: nat) returns (ok: bool)
    requires offset + 4 <= buffer.Length
    modifies buffer
    ensures ok == IsUint32(value)
    ensures ok ==> buffer[offset..offset + 4] == BigEndian32(value)
    ensures !ok ==> buffer[..] == old(buffer[..])
    ensures buffer[..offset] == old(buffer[..offset])
    ensures buffer[offset + 4..] == old(buffer[offset + 4..])
  {
    ok := IsUint32(value);
    if ok {
      var rest := value;
      buffer[offset + 3] := rest % 256;
      rest := rest / 256;
      buffer[offset + 2] := rest % 256;
      rest := rest / 256;
      buffer[offset + 1] := rest % 256;
      rest := rest / 256;
      buffer[offset] := rest;
    }
  }

  method PackCoordinates(x: int, y: int) returns (ok: bool, buffer: array<byte>)
    ensures ok <==> IsUint32(x) && IsUint32(y)
    ensures fresh(buffer) && buffer.Length == 8
    ensures ok ==> buffer[..] == Packed(x, y)
  {
    buffer := new byte[8](_ => 0);
    ok := WriteUInt32BE(buffer, x, 0);
    if ok {
      ok := WriteUInt32BE(buffer, y, 4);
      assert ok ==> buffer[..] == buffer[..4] + buffer[4..8];
    }
  }

  /** The number spelled by four bytes, as a buffer reads it. */
  function Word(a: int, b: int, c: int, d: int): int {
    ((a * 256 + b) * 256 + c) * 256 + d
  }

  /** Reading needs eight bytes and ignores any after them. */
  function UnpackCoordinates(buffer: seq<byte>): Option<Coordinate> {
    if |buffer| < 8 then None
    else Some(Coordinate(Word(buffer[0], buffer[1], buffer[2], buffer[3]),
                         Word(buffer[4], buffer[5], buffer[6], buffer[7])))
  }

  /** Fewer than eight bytes cannot be read; of more, the first eight are. */
  lemma UnpackReadsEight(b: seq<byte>)
    ensures UnpackCoordinates(b).Some? <==> |b| >= 8
    ensures |b| >= 8 ==> UnpackCoordinates(b) == UnpackCoordinates(b[..8])
  {
  }

  lemma WordOfBigEndian(n: int)
    requires IsUint32(n)
    ensures var b := BigEndian32(n); Word(b[0], b[1], b[2], b[3]) == n
  {
    assert n / 0x1_0000 == n / 0x100_0000 * 256 + n / 0x1_0000 % 256;
    assert n / 0x100 == n / 0x1_0000 * 256 + n / 0x100 % 256;
  }

  lemma BigEndianOfWord(a: byte, b: byte, c: byte, d: byte)
    ensures var n := Word(a, b, c, d); IsUint32(n) && BigEndian32(n) == [a, b, c, d]
  {
    var n := Word(a, b, c, d);
    assert n / 256 == (a as int * 256 + b) * 256 + c;
    assert n / 0x1_0000 == a as int * 256 + b;
    assert n / 0x100_0000 == a;
  }

  lemma UnpackInvertsPack(x: int, y: int)
    requires IsUint32(x) && IsUint32(y)
    ensures UnpackCoordinates(Packed(x, y)) == Some(Coordinate(x, y))
  {
    WordOfBigEndian(x);
    WordOfBigEndian(y);
  }

  /** Every eight-byte buffer is the packing of exactly the coordinates read from it. */
  lemma PackInvertsUnpack(b: seq<byte>)
    requires |b| == 8
    ensures var c := UnpackCoordinates(b).value;
            IsUint32(c.x) && IsUint32(c.y) && Packed(c.x, c.y) == b
  {
    BigEndianOfWord(b[0], b[1], b[2], b[3]);
    BigEndianOfWord(b[4], b[5], b[6], b[7]);
    assert b == [b[0], b[1], b[2], b[3]] + [b[4], b[5], b[6], b[7]];
  }

  // ---- The order of packed coordinates ----

  /** Byte-wise comparison, a shorter buffer before its extensions. */
  predicate LexLess(a: seq<byte>, b: seq<byte>) {
    b != [] && (a == [] || a[0] < b[0] || (a[0] == b[0] && LexLess(a[1..], b[1..])))
  }

  function Pow256(n: nat): (p: nat)
    ensures p >= 1
  {
    if n == 0 then 1 else 256 * Pow256(n - 1)
  }

  /** Big-endian value of any number of bytes. */
  function Value(b: seq<byte>): nat {
    if b == [] then 0 else b[0] as int * Pow256(|b| - 1) + Value(b[1..])
  }

  lemma ScaledBound(digit: int, lower: int, weight: nat)
    requires 0 <= digit < lower
    ensures digit * weight + weight <= lower * weight
  {
    var gap := lower - digit - 1;
    ProductNotNegative(gap, weight);
    Distribute(1, digit + 1, weight, gap);
    Distribute(1, digit, weight, 1);
  }

  lemma ProductNotNegative(a: nat, b: nat)
    ensures a * b >= 0
  {
  }

  lemma {:induction false} ValueBound(b: seq<byte>)
    ensures Value(b) < Pow256(|b|)
  {
    if b != [] {
      ValueBound(b[1..]);
      ScaledBound(b[0], 256, Pow256(|b| - 1));
    }
  }

  /** On buffers of one length, byte order is the order of the numbers they spell. */
  lemma {:induction false} LexIsValueOrder(a: seq<byte>, b: seq<byte>)
    requires |a| == |b|
    ensures LexLess(a, b) <==> Value(a) < Value(b)
    ensures a == b <==> Value(a) == Value(b)
  {
    if a != [] {
      LexIsValueOrder(a[1..], b[1..]);
      ValueBound(a[1..]);
      ValueBound(b[1..]);
      if a[0] < b[0] {
        ScaledBound(a[0], b[0], Pow256(|a| - 1));
      } else if b[0] < a[0] {
        ScaledBound(b[0], a[0], Pow256(|a| - 1));
      } else {
        assert a == [a[0]] + a[1..] && b == [b[0]] + b[1..];
      }
    }
  }

  lemma {:induction false} ValueOfConcatenation(a: seq<byte>, b: seq<byte>)
    ensures Value(a + b) == Value(a) * Pow256(|b|) + Value(b)
  {
    if a == [] {
      assert a + b == b;
    } else {
      ValueOfConcatenation(a[1..], b);
      assert (a + b)[1..] == a[1..] + b;
      PowOfSum(|a| - 1, |b|);
      Distribute(a[0], Pow256(|a| - 1), Pow256(|b|), Value(a[1..]));
    }
  }

  lemma Distribute(d: int, p: int, q: int, v: int)
    ensures (d * p + v) * q == d * (p * q) + v * q
  {
  }

  lemma {:induction false} PowOfSum(m: nat, n: nat)
    ensures Pow256(m + n) == Pow256(m) * Pow256(n)
  {
    if m != 0 {
      PowOfSum(m - 1, n);
      var p, q := Pow256(m - 1), Pow256(n);
      assert 256 * (p * q) == 256 * p * q;
    }
  }

  lemma ValueOfWord(b: seq<byte>)
    requires |b| == 4
    ensures Value(b) == Word(b[0], b[1], b[2], b[3])
  {
    assert Pow256(0) == 1 && Pow256(1) == 0x100 && Pow256(2) == 0x1_0000 && Pow256(3) == 0x100_0000;
    assert b[1..][1..] == b[2..] && b[2..][1..] == b[3..] && b[3..][1..] == [];
    assert Value(b[3..]) == b[3];
    assert Value(b[2..]) == b[2] as int * 0x100 + b[3];
  }

  lemma ValueOfPacked(x: int, y: int)
    requires IsUint32(x) && IsUint32(y)
    ensures Value(Packed(x, y)) == x * UINT32_LIMIT + y
  {
    ValueOfConcatenation(BigEndian32(x), BigEndian32(y));
    ValueOfWord(BigEndian32(x));
    ValueOfWord(BigEndian32(y));
    WordOfBigEndian(x);
    WordOfBigEndian(y);
    assert Pow256(4) == UINT32_LIMIT by {
      assert Pow256(2) == 0x1_0000;
    }
  }

  /** A sorted set breaks ties between equal scores by x first and y second. */
  lemma PackedOrder(x1: int, y1: int, x2: int, y2: int)
    requires IsUint32(x1) && IsUint32(y1) && IsUint32(x2) && IsUint32(y2)
    ensures LexLess(Packed(x1, y1), Packed(x2, y2)) <==> x1 < x2 || (x1 == x2 && y1 < y2)
    ensures Packed(x1, y1) == Packed(x2, y2) <==> x1 == x2 && y1 == y2
  {
    LexIsValueOrder(Packed(x1, y1), Packed(x2, y2));
    ValueOfPacked(x1, y1);
    ValueOfPacked(x2, y2);
  }
}
