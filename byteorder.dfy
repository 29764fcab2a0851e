/** Big-endian decoding of an unsigned 32-bit integer, as done by
    `ReadBytesExt::read_u32::<BigEndian>` on a byte slice. */
module ByteOrder {
  import opened Common

  const U32Limit: nat := 0x1_0000_0000

  /** The value of four bytes read most significant first. */
  function BigEndianValue(b0: byte, b1: byte, b2: byte, b3: byte): (x: nat)
    ensures x < U32Limit
  {
    b0 * 0x100_0000 + b1 * 0x1_0000 + b2 * 0x100 + b3
  }

  /** The four bytes of a `u32`, most significant first. */
  function BigEndianBytes(x: nat): (bs: seq<byte>)
    requires x < U32Limit
    ensures |bs| == 4
  {
    [x / 0x100_0000, (x / 0x1_0000) % 0x100, (x / 0x100) % 0x100, x % 0x100]
  }

  lemma {:induction false} ValueOfBytes(x: nat)
    requires x < U32Limit
    ensures var bs := BigEndianBytes(x); BigEndianValue(bs[0], bs[1], bs[2], bs[3]) == x
  {
    var bs := BigEndianBytes(x);
    assert x / 0x100 == (x / 0x1_0000) * 0x100 + bs[2];
    assert x / 0x1_0000 == (x / 0x100_0000) * 0x100 + bs[1];
  }

  lemma {:induction false} BytesOfValue(b0: byte, b1: byte, b2: byte, b3: byte)
    ensures BigEndianBytes(BigEndianValue(b0, b1, b2, b3)) == [b0, b1, b2, b3]
  {
    var x := BigEndianValue(b0, b1, b2, b3);
    assert x / 0x100 == b0 * 0x1_0000 + b1 * 0x100 + b2;
    assert x / 0x1_0000 == b0 * 0x100 + b1;
    assert x / 0x100_0000 == b0;
  }

  /** `read_u32::<BigEndian>`: consumes the first four bytes of the slice;
      a slice shorter than four bytes fails with `UnexpectedEof`. The
      result is the unique `u32` whose big-endian bytes are those four. */
  function ReadU32(bytes: seq<byte>): (r: Result<nat, IoError>)
    ensures r.Ok? <==> |bytes| >= 4
    ensures r.Ok? ==> r.value < U32Limit && BigEndianBytes(r.value) == bytes[..4]
    ensures r.Err? ==> r.error.kind == UnexpectedEof
  {
    if |bytes| < 4 then
      Err(IoError(UnexpectedEof, "failed to fill whole buffer"))
    else
      BytesOfValue(bytes[0], bytes[1], bytes[2], bytes[3]);
      Ok(BigEndianValue(bytes[0], bytes[1], bytes[2], bytes[3]))
  }
}
