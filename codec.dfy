/** The byte-level part of the Nunchuck protocol: the de-obfuscation applied
    to every received byte, the reassembly of a burst of bytes into the
    6-byte status frame, and the fields packed into that frame. Bytes are
    `bv8`, so the `+` of the decoder wraps modulo 256 exactly as the
    assignment to a `byte` does on the device. */
module NunchukCodec {

  /** Number of bytes in one status frame. */
  const FrameSize: nat := 6

  /** The de-obfuscation step applied to every received byte. */
  function DecodeByte(x: bv8): (y: bv8)
    ensures EncodeByte(y) == x
  {
    (x ^ 0x17) + 0x17
  }

  /** The device's complementary obfuscation step, the inverse of DecodeByte. */
  function EncodeByte(y: bv8): bv8
  {
    (y - 0x17) ^ 0x17
  }

  /** Decoding undoes encoding: together with DecodeByte's own contract this
      makes DecodeByte a bijection on bytes. */
  lemma EncodeThenDecode(y: bv8)
    ensures DecodeByte(EncodeByte(y)) == y
  {
  }

  /** Every byte is the decoding of exactly one received byte. */
  lemma DecodeIsBijection(y: bv8)
    ensures exists x :: DecodeByte(x) == y
    ensures forall a, b :: DecodeByte(a) == y && DecodeByte(b) == y ==> a == b
  {
    EncodeThenDecode(y);
  }

  /** The decoder computed on integers: xor, add 0x17, truncate to a byte. */
  lemma DecodeByteTruncates(x: bv8)
    ensures DecodeByte(x) as int == ((x ^ 0x17) as int + 0x17) % 256
  {
  }

  /** The status buffer after the bytes of one burst have been decoded into
      it one at a time, starting at write position `cnt`. */
  function Accumulate(status: seq<bv8>, cnt: nat, bytes: seq<bv8>): (r: seq<bv8>)
    requires cnt + |bytes| <= |status|
    ensures |r| == |status|
    decreases |bytes|
  {
    if bytes == [] then status
    else Accumulate(status[cnt := DecodeByte(bytes[0])], cnt + 1, bytes[1..])
  }

  /** Slot `j` of the buffer holds the decoding of the byte that arrived for
      it, and every slot outside the written window keeps its old value. */
  lemma {:induction false} AccumulateAt(status: seq<bv8>, cnt: nat, bytes: seq<bv8>, j: nat)
    requires cnt + |bytes| <= |status| && j < |status|
    ensures Accumulate(status, cnt, bytes)[j] ==
            if cnt <= j < cnt + |bytes| then DecodeByte(bytes[j - cnt]) else status[j]
    decreases |bytes|
  {
    if bytes != [] {
      AccumulateAt(status[cnt := DecodeByte(bytes[0])], cnt + 1, bytes[1..], j);
    }
  }

  /** A burst split over two calls leaves the same buffer as the whole burst
      in one call: the write position carries over between calls. */
  lemma {:induction false} AccumulateConcat(status: seq<bv8>, cnt: nat, a: seq<bv8>, b: seq<bv8>)
    requires cnt + |a| + |b| <= |status|
    ensures Accumulate(Accumulate(status, cnt, a), cnt + |a|, b) == Accumulate(status, cnt, a + b)
    decreases |a|
  {
    if a != [] {
      assert (a + b)[0] == a[0];
      assert (a + b)[1..] == a[1..] + b;
      AccumulateConcat(status[cnt := DecodeByte(a[0])], cnt + 1, a[1..], b);
    } else {
      assert a + b == b;
    }
  }

  /** The 10-bit accelerometer sample of `axis` (0, 1, 2 for X, Y, Z): the
      high eight bits come from byte `axis + 2`, the low two bits from the
      bit pair of byte 5 at position `2 * (axis + 1)`. */
  function AccelSample(frame: seq<bv8>, axis: nat): (a: int)
    requires |frame| == FrameSize && axis < 3
    ensures 0 <= a < 1024
    ensures a / 4 == frame[axis + 2] as int
    ensures a % 4 == ((frame[5] >> (2 * (axis + 1))) & 3) as int
  {
    var shift := 2 * (axis + 1);
    var low := (frame[5] & (3 << shift)) >> shift;
    assert low == (frame[5] >> shift) & 3;
    assert low as int < 4 by { assert low <= 3; }
    frame[axis + 2] as int * 4 + low as int
  }

  /** The Z button bit (bit 0 of byte 5) is active-low. */
  function ZButtonFromFrame(b5: bv8): (pressed: bool)
    ensures pressed <==> (b5 as int) % 2 == 0
  {
    (b5 & 1) == 0
  }

  /** The C button bit (bit 1 of byte 5) is active-low. */
  function CButtonFromFrame(b5: bv8): (pressed: bool)
    ensures pressed <==> (b5 as int / 2) % 2 == 0
  {
    var half := b5 >> 1;
    assert half as int == b5 as int / 2;
    assert (((b5 & 2) >> 1) == 0) == ZButtonFromFrame(half);
    ((b5 & 2) >> 1) == 0
  }
}
