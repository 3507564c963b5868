/** Bytes on the wire: little-endian words and GUIDs packed as a mask byte and the non-zero bytes. */
module WireFormat {
  import opened Basics

  type Byte = x: nat | x < 256

  const LONG: nat := 0x1_0000_0000_0000_0000

  function Bytes4(x: nat): (r: seq<Byte>)
    requires x < WORD
    ensures |r| == 4
  {
    [x % 256, x / 256 % 256, x / 65536 % 256, x / 16777216]
  }

  function Read4(bs: seq<Byte>): nat
    requires |bs| >= 4
  {
    (bs[0] as int) + 256 * (bs[1] as int) + 65536 * (bs[2] as int) + 16777216 * (bs[3] as int)
  }

  lemma {:induction false} Recompose(x: nat)
    requires x < WORD
    ensures x % 256 + 256 * (x / 256 % 256) + 65536 * (x / 65536 % 256) + 16777216 * (x / 16777216) == x
  {
  }

  lemma {:induction false} FirstFour(bs: seq<Byte>, rest: seq<Byte>)
    requires |bs| == 4
    ensures Read4(bs + rest) == Read4(bs) && (bs + rest)[4..] == rest
  {
  }

  lemma {:induction false} WordRoundTrip(x: nat, rest: seq<Byte>)
    requires x < WORD
    ensures Read4(Bytes4(x) + rest) == x && (Bytes4(x) + rest)[4..] == rest
  {
    Recompose(x);
    FirstFour(Bytes4(x), rest);
  }

  // ---------- packed GUIDs ----------

  function Pow256(n: nat): nat {
    if n == 0 then 1 else 256 * Pow256(n - 1)
  }

  /** One bit for each of the low `n` bytes that is not zero. */
  function Mask(x: nat, n: nat): nat {
    if n == 0 then 0 else (if x % 256 != 0 then 1 else 0) + 2 * Mask(x / 256, n - 1)
  }

  /** The low `n` bytes that are not zero, lowest first. */
  function NonZero(x: nat, n: nat): (r: seq<Byte>)
    ensures |r| <= n
  {
    if n == 0 then [] else (if x % 256 != 0 then [x % 256] else []) + NonZero(x / 256, n - 1)
  }

  function Unpack(mask: nat, n: nat, bs: seq<Byte>): Option<(nat, seq<Byte>)> {
    if n == 0 then Some((0, bs))
    else if mask % 2 == 0 then
      var r := Unpack(mask / 2, n - 1, bs);
      if r.None? then None else Some((256 * r.value.0, r.value.1))
    else if bs == [] then None
    else
      var r := Unpack(mask / 2, n - 1, bs[1..]);
      if r.None? then None else Some((bs[0] + 256 * r.value.0, r.value.1))
  }

  function Pow2(n: nat): nat {
    if n == 0 then 1 else 2 * Pow2(n - 1)
  }

  lemma {:induction false} MaskBound(x: nat, n: nat)
    ensures Mask(x, n) < Pow2(n)
  {
    if n > 0 {
      MaskBound(x / 256, n - 1);
    }
  }

  lemma {:induction false} MaskIsByte(x: nat)
    ensures Mask(x, 8) < 256
  {
    MaskBound(x, 8);
    assert Pow2(8) == 16 * Pow2(4);
  }

  function PackGuid(x: nat): (r: seq<Byte>)
    ensures 1 <= |r| <= 9
  {
    MaskIsByte(x);
    [Mask(x, 8)] + NonZero(x, 8)
  }

  function UnpackGuid(bs: seq<Byte>): Option<(nat, seq<Byte>)> {
    if bs == [] then None else Unpack(bs[0], 8, bs[1..])
  }

  lemma {:induction false} LowBit(x: nat, n: nat)
    requires n > 0
    ensures Mask(x, n) % 2 == (if x % 256 != 0 then 1 else 0) && Mask(x, n) / 2 == Mask(x / 256, n - 1)
  {
  }

  lemma {:induction false} LowByte(x: nat, n: nat, rest: seq<Byte>)
    requires n > 0
    ensures NonZero(x, n) + rest == (if x % 256 != 0 then [x % 256] else []) + (NonZero(x / 256, n - 1) + rest)
  {
  }

  lemma {:induction false} UnpackOne(mask: nat, n: nat, bs: seq<Byte>, high: nat, rest: seq<Byte>)
    requires n > 0 && mask % 2 == 1 && bs != [] && Unpack(mask / 2, n - 1, bs[1..]) == Some((high, rest))
    ensures Unpack(mask, n, bs) == Some((bs[0] + 256 * high, rest))
  {
  }

  lemma {:induction false} UnpackNonZero(x: nat, n: nat, rest: seq<Byte>)
    requires x < Pow256(n)
    ensures Unpack(Mask(x, n), n, NonZero(x, n) + rest) == Some((x, rest))
    decreases n
  {
    if n == 0 {
      assert NonZero(x, 0) + rest == rest;
    } else {
      UnpackNonZero(x / 256, n - 1, rest);
      LowBit(x, n);
      LowByte(x, n, rest);
      var tail := NonZero(x / 256, n - 1) + rest;
      if x % 256 != 0 {
        assert ([x % 256] + tail)[1..] == tail;
        UnpackOne(Mask(x, n), n, [x % 256] + tail, x / 256, rest);
      } else {
        assert NonZero(x, n) + rest == tail;
      }
    }
  }

  /** Unpacking what was packed gives back every 64-bit value and the bytes that follow. */
  lemma {:induction false} GuidRoundTrip(x: nat, rest: seq<Byte>)
    requires x < LONG
    ensures UnpackGuid(PackGuid(x) + rest) == Some((x, rest))
  {
    assert Pow256(8) == LONG by {
      assert Pow256(4) == WORD;
      assert Pow256(8) == 256 * (256 * (256 * (256 * Pow256(4))));
    }
    UnpackNonZero(x, 8, rest);
    assert (PackGuid(x) + rest)[1..] == NonZero(x, 8) + rest;
  }

  /** Bit `k` of the mask, from the lowest, says whether byte `k` of the value, from the lowest, is not zero. */
  lemma {:induction false} MaskBit(x: nat, n: nat, k: nat)
    requires k < n
    ensures Shifted(Mask(x, n), 2, k) % 2 == 1 <==> Shifted(x, 256, k) % 256 != 0
    decreases k
  {
    LowBit(x, n);
    if k > 0 { MaskBit(x / 256, n - 1, k - 1); }
  }

  /** `x` divided `k` times by `d`. */
  function Shifted(x: nat, d: nat, k: nat): nat
    requires d > 0
    decreases k
  {
    if k == 0 then x else Shifted(x / d, d, k - 1)
  }

  /** Some mask bits are set in `mask`, in steps of `bit`; the rest are those of the remaining value. */
  ghost predicate MaskSoFar(mask: nat, bit: nat, rest: nat, n: nat, whole: nat) {
    mask + bit * Mask(rest, n) == whole
  }

  lemma {:induction false} SetBit(mask: nat, bit: nat, rest: nat, n: nat, whole: nat)
    requires n > 0 && MaskSoFar(mask, bit, rest, n, whole)
    ensures MaskSoFar(if rest % 256 != 0 then mask + bit else mask, 2 * bit, rest / 256, n - 1, whole)
  {
    var low, high := if rest % 256 != 0 then 1 else 0, Mask(rest / 256, n - 1);
    assert Mask(rest, n) == low + 2 * high;
    Distribute(bit, low, high);
  }

  lemma {:induction false} Distribute(bit: nat, low: nat, high: nat)
    requires low <= 1
    ensures bit * (low + 2 * high) == (if low == 1 then bit else 0) + (2 * bit) * high
  {
  }

  lemma {:induction false} AllBits(mask: nat, bit: nat, rest: nat, whole: nat)
    requires MaskSoFar(mask, bit, rest, 0, whole)
    ensures mask == whole
  {
  }

  ghost predicate BytesSoFar(bytes: seq<Byte>, rest: nat, n: nat, whole: seq<Byte>) {
    bytes + NonZero(rest, n) == whole
  }

  lemma {:induction false} TakeByte(bytes: seq<Byte>, rest: nat, n: nat, whole: seq<Byte>)
    requires n > 0 && BytesSoFar(bytes, rest, n, whole)
    ensures BytesSoFar(if rest % 256 != 0 then bytes + [rest % 256] else bytes, rest / 256, n - 1, whole)
  {
    if rest % 256 != 0 {
      assert bytes + [rest % 256] + NonZero(rest / 256, n - 1) == bytes + NonZero(rest, n);
    }
  }

  /** appendPackGUID: the mask byte is reserved first and its bits are set as non-zero bytes are appended. */
  method AppendPackGuid(data: seq<Byte>, guid: nat) returns (out: seq<Byte>)
    requires guid < LONG
    ensures out == data + PackGuid(guid)
  {
    var mask: nat, bit: nat, rest: nat, bytes: seq<Byte> := 0, 1, guid, [];
    for i := 0 to 8
      invariant MaskSoFar(mask, bit, rest, 8 - i, Mask(guid, 8))
      invariant BytesSoFar(bytes, rest, 8 - i, NonZero(guid, 8))
    {
      TakeByte(bytes, rest, 8 - i, NonZero(guid, 8));
      SetBit(mask, bit, rest, 8 - i, Mask(guid, 8));
      if rest % 256 != 0 {
        mask := mask + bit;
        bytes := bytes + [rest % 256];
      }
      bit := 2 * bit;
      rest := rest / 256;
    }
    AllBits(mask, bit, rest, Mask(guid, 8));
    MaskIsByte(guid);
    assert BytesSoFar(bytes, rest, 0, NonZero(guid, 8));
    out := data + [mask] + bytes;
  }
}
