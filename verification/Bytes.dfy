/** Byte streams: fixed-width little-endian numbers, hashes, packed bits, and parsers over what is left. */
module Bytes {
  type byte = x: int | 0 <= x < 256

  /** A uint256_t. */
  type Hash = h: seq<byte> | |h| == 32 witness seq(32, i => 0)

  /** What reading from a stream gives: a value and the rest, or the exception that the stream is too short. */
  datatype Read<T> = Got(value: T, rest: seq<byte>) | Short

  function Take(s: seq<byte>, k: nat): (r: Read<seq<byte>>)
    ensures r.Got? ==> |r.value| == k && s == r.value + r.rest
    ensures r.Got? <==> k <= |s|
  {
    if |s| < k then Short else Got(s[..k], s[k..])
  }

  lemma TakeAppend(a: seq<byte>, rest: seq<byte>)
    ensures Take(a + rest, |a|) == Got(a, rest)
  {
  }

  // ---------- numbers ----------

  function Power(k: nat): (r: nat)
    ensures r >= 1
  {
    if k == 0 then 1 else 256 * Power(k - 1)
  }

  /** The k low bytes of n, lowest first. */
  function LittleEndian(n: nat, k: nat): (s: seq<byte>)
    ensures |s| == k
  {
    if k == 0 then [] else [n % 256] + LittleEndian(n / 256, k - 1)
  }

  function Number(s: seq<byte>): nat {
    if s == [] then 0 else s[0] + 256 * Number(s[1..])
  }

  lemma {:induction false} NumberRoundTrip(n: nat, k: nat)
    requires n < Power(k)
    ensures Number(LittleEndian(n, k)) == n
  {
    if k > 0 {
      assert n / 256 < Power(k - 1);
      NumberRoundTrip(n / 256, k - 1);
      assert LittleEndian(n, k)[1..] == LittleEndian(n / 256, k - 1);
    }
  }

  lemma {:induction false} NumberBound(s: seq<byte>)
    ensures Number(s) < Power(|s|)
  {
    if s != [] {
      NumberBound(s[1..]);
    }
  }

  lemma Powers()
    ensures Power(1) == 0x100 && Power(2) == 0x1_0000 && Power(4) == 0x1_0000_0000
  {
    assert Power(2) == 256 * Power(1);
    assert Power(3) == 256 * Power(2);
  }

  /** A size_t cast to uint32_t. */
  const U32: nat := 0x1_0000_0000

  function PutU32(n: nat): (s: seq<byte>)
    ensures |s| == 4
  {
    LittleEndian(n % U32, 4)
  }

  function GetNumber(s: seq<byte>, k: nat): (r: Read<nat>)
    ensures r.Got? ==> |s| == k + |r.rest|
  {
    match Take(s, k)
    case Short => Short
    case Got(bytes, rest) => Got(Number(bytes), rest)
  }

  /** A number that fits is read back, whatever follows. */
  lemma NumberRead(n: nat, k: nat, rest: seq<byte>)
    requires n < Power(k)
    ensures GetNumber(LittleEndian(n, k) + rest, k) == Got(n, rest)
  {
    TakeAppend(LittleEndian(n, k), rest);
    NumberRoundTrip(n, k);
  }

  lemma U32Read(n: nat, rest: seq<byte>)
    ensures GetNumber(PutU32(n) + rest, 4) == Got(n % U32, rest)
  {
    Powers();
    NumberRead(n % U32, 4, rest);
  }

  lemma NumberReadBound(s: seq<byte>, k: nat)
    ensures GetNumber(s, k).Got? ==> GetNumber(s, k).value < Power(k)
  {
    if k <= |s| {
      NumberBound(s[..k]);
    }
  }

  // ---------- bitmaps ----------

  /** Eight bits to a byte, the first lowest. */
  function ByteOf(bits: seq<bool>): (b: nat)
    requires |bits| <= 8
    ensures |bits| <= 8 && b < Pow2(|bits|)
  {
    if bits == [] then 0 else (if bits[0] then 1 else 0) + 2 * ByteOf(bits[1..])
  }

  function Pow2(k: nat): (r: nat)
    ensures r >= 1
  {
    if k == 0 then 1 else 2 * Pow2(k - 1)
  }

  function BitsOf(b: nat, k: nat): (bits: seq<bool>)
    ensures |bits| == k
  {
    if k == 0 then [] else [b % 2 == 1] + BitsOf(b / 2, k - 1)
  }

  lemma {:induction false} BitsRoundTrip(bits: seq<bool>)
    requires |bits| <= 8
    ensures BitsOf(ByteOf(bits), |bits|) == bits
  {
    if bits != [] {
      BitsRoundTrip(bits[1..]);
      assert bits == [bits[0]] + bits[1..];
    }
  }

  lemma ByteFits(bits: seq<bool>)
    requires |bits| <= 8
    ensures ByteOf(bits) < 256
  {
    Pow2Mono(|bits|, 8);
    assert Pow2(8) == 2 * Pow2(7) && Pow2(6) == 2 * Pow2(5) && Pow2(4) == 2 * Pow2(3) && Pow2(2) == 2 * Pow2(1);
  }

  lemma {:induction false} Pow2Mono(a: nat, b: nat)
    requires a <= b
    ensures Pow2(a) <= Pow2(b)
    decreases b
  {
    if a < b {
      Pow2Mono(a, b - 1);
    }
  }

  function Packed(bits: seq<bool>): (s: seq<byte>)
    ensures |s| == (|bits| + 7) / 8
  {
    if bits == [] then []
    else if |bits| <= 8 then
      ByteFits(bits);
      [ByteOf(bits)]
    else
      ByteFits(bits[..8]);
      [ByteOf(bits[..8])] + Packed(bits[8..])
  }

  function Unpacked(s: seq<byte>, k: nat): (bits: seq<bool>)
    requires |s| == (k + 7) / 8
    ensures |bits| == k
  {
    if k <= 8 then (if k == 0 then [] else BitsOf(s[0], k))
    else BitsOf(s[0], 8) + Unpacked(s[1..], k - 8)
  }

  lemma {:induction false} PackRoundTrip(bits: seq<bool>)
    ensures Unpacked(Packed(bits), |bits|) == bits
  {
    if |bits| <= 8 {
      BitsRoundTrip(bits);
    } else {
      BitsRoundTrip(bits[..8]);
      PackRoundTrip(bits[8..]);
      assert Packed(bits)[1..] == Packed(bits[8..]);
      assert bits == bits[..8] + bits[8..];
    }
  }

  /** The number of bits, then the bits. */
  function PutBits(bits: seq<bool>): seq<byte> {
    PutU32(|bits|) + Packed(bits)
  }

  function GetBits(s: seq<byte>): (r: Read<seq<bool>>)
    ensures r.Got? ==> |r.rest| <= |s|
  {
    match GetNumber(s, 4)
    case Short => Short
    case Got(k, s1) =>
      match Take(s1, (k + 7) / 8)
      case Short => Short
      case Got(bytes, rest) => Got(Unpacked(bytes, k), rest)
  }

  lemma BitsRead(bits: seq<bool>, rest: seq<byte>)
    requires |bits| < U32
    ensures GetBits(PutBits(bits) + rest) == Got(bits, rest)
  {
    hide PutU32, Packed, Unpacked, GetNumber;
    assert PutBits(bits) + rest == PutU32(|bits|) + (Packed(bits) + rest);
    U32Read(|bits|, Packed(bits) + rest);
    TakeAppend(Packed(bits), rest);
    PackRoundTrip(bits);
  }

  lemma BitsReadBound(s: seq<byte>)
    ensures GetBits(s).Got? ==> |GetBits(s).value| < U32
  {
    Powers();
    NumberReadBound(s, 4);
  }

  // ---------- lists of hashes ----------

  function PutHashes(hs: seq<Hash>): seq<byte> {
    if hs == [] then [] else PutHashes(hs[..|hs| - 1]) + hs[|hs| - 1]
  }

  function GetHash(s: seq<byte>): (r: Read<Hash>)
    ensures r.Got? ==> s == r.value + r.rest
    ensures r.Got? <==> |s| >= 32
  {
    if |s| < 32 then Short
    else
      var h: Hash := s[..32];
      Got(h, s[32..])
  }

  lemma HashRead(h: Hash, rest: seq<byte>)
    ensures GetHash(h + rest) == Got(h, rest)
  {
  }

  function GetHashes(s: seq<byte>, k: nat): (r: Read<seq<Hash>>)
    ensures r.Got? ==> |r.value| == k
  {
    if k == 0 then Got([], s)
    else
      match GetHashes(s, k - 1)
      case Short => Short
      case Got(hs, s1) =>
        match GetHash(s1)
        case Short => Short
        case Got(h, rest) => Got(hs + [h], rest)
  }

  lemma {:induction false} HashesRead(hs: seq<Hash>, rest: seq<byte>)
    ensures GetHashes(PutHashes(hs) + rest, |hs|) == Got(hs, rest)
  {
    if hs != [] {
      var k := |hs| - 1;
      HashesRead(hs[..k], hs[k] + rest);
      HashRead(hs[k], rest);
      assert PutHashes(hs) + rest == PutHashes(hs[..k]) + (hs[k] + rest);
      assert hs[..k] + [hs[k]] == hs;
    }
  }
}
