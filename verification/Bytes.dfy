/** Bytes and big-endian integers. */
module Bytes {
  import Modulo

  type Byte = b: int | 0 <= b < 256

  function Pow256(width: nat): (p: nat)
    ensures 1 <= p
  {
    if width == 0 then 1 else 256 * Pow256(width - 1)
  }

  /** The `width` low bytes of `u`, most significant first. */
  function BeEncode(u: nat, width: nat): (bs: seq<Byte>)
    ensures |bs| == width
  {
    if width == 0 then [] else BeEncode(u / 256, width - 1) + [u % 256]
  }

  function BeDecode(bs: seq<Byte>): (u: nat)
    ensures u < Pow256(|bs|)
  {
    if bs == [] then 0 else BeDecode(bs[..|bs| - 1]) * 256 + bs[|bs| - 1]
  }

  lemma {:induction false} DecodeEncode(u: nat, width: nat)
    requires u < Pow256(width)
    ensures BeDecode(BeEncode(u, width)) == u
  {
    if width > 0 {
      DecodeEncode(u / 256, width - 1);
      var bs := BeEncode(u, width);
      assert bs[..width - 1] == BeEncode(u / 256, width - 1);
    }
  }

  lemma LowByte(u: nat, b: Byte)
    ensures (u * 256 + b) / 256 == u && (u * 256 + b) % 256 == b
  {
  }

  lemma {:induction false} EncodeDecode(bs: seq<Byte>)
    ensures BeEncode(BeDecode(bs), |bs|) == bs
  {
    if bs != [] {
      var front, last := bs[..|bs| - 1], bs[|bs| - 1];
      EncodeDecode(front);
      LowByte(BeDecode(front), last);
      assert bs == front + [last];
    }
  }

  /** Network byte order: byte `k` of `width` holds the bits of weight 256 to the `width - 1 - k`. */
  lemma {:induction false} ByteOrder(u: nat, width: nat, k: nat)
    requires k < width
    ensures BeEncode(u, width)[k] == u / Pow256(width - 1 - k) % 256
    decreases width
  {
    if k < width - 1 {
      ByteOrder(u / 256, width - 1, k);
      Modulo.DivideTwice(u, Pow256(width - 2 - k));
    }
  }

  /** Two's complement values of `width` bytes. */
  predicate Fits(x: int, width: nat) {
    0 <= 2 * x + Pow256(width) < 2 * Pow256(width)
  }

  function ToUnsigned(x: int, width: nat): (u: nat)
    requires Fits(x, width)
    ensures u < Pow256(width)
  {
    if x < 0 then x + Pow256(width) else x
  }

  /** The unsigned form is the remainder modulo 256 to the `width`. */
  lemma TwosComplement(x: int, width: nat)
    requires Fits(x, width)
    ensures ToUnsigned(x, width) == x % Pow256(width)
  {
    Modulo.Unique(x, if x < 0 then -1 else 0, ToUnsigned(x, width), Pow256(width));
  }

  function ToSigned(u: nat, width: nat): (x: int)
    requires u < Pow256(width)
    ensures Fits(x, width)
  {
    if 2 * u < Pow256(width) then u else u - Pow256(width)
  }

  function IntBytes(x: int, width: nat): (bs: seq<Byte>)
    requires Fits(x, width)
    ensures |bs| == width
  {
    BeEncode(ToUnsigned(x, width), width)
  }

  function BytesInt(bs: seq<Byte>): (x: int)
    ensures Fits(x, |bs|)
  {
    ToSigned(BeDecode(bs), |bs|)
  }

  /** Every signed value survives its big-endian encoding, and every encoding its value. */
  lemma IntRoundTrip(x: int, width: nat)
    requires Fits(x, width)
    ensures BytesInt(IntBytes(x, width)) == x
  {
    DecodeEncode(ToUnsigned(x, width), width);
  }

  lemma BytesRoundTrip(bs: seq<Byte>)
    ensures IntBytes(BytesInt(bs), |bs|) == bs
  {
    EncodeDecode(bs);
  }
}
