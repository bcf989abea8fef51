/**
 * The colour encoding of the picking pass.
 *
 * An object's ID is drawn as the colour whose red, green and blue bytes are
 * the three low bytes of the ID in little-endian order, with an opaque alpha.
 * The pixel read back is packed red-first into an unsigned 32-bit integer.
 * Colour bytes are exact: the conversion to normalised floats and back is
 * taken to be lossless.
 */
module PixelCodec {
  import opened Scene

  type Byte = x: int | 0 <= x < 256

  const IdSpace: nat := 0x100_0000   // 2^24: the IDs three colour bytes can tell apart

  /** An RGBA pixel as read back from the framebuffer. */
  datatype Pixel = Pixel(r: Byte, g: Byte, b: Byte, a: Byte)

  /** The clear colour of the picking pass: transparent black. */
  const Background: Pixel := Pixel(0, 0, 0, 0)

  /** The three reserved colours of the tool handles. */
  function MarkerColour(axis: Axis): Pixel
  {
    match axis
    case X => Pixel(255, 0, 0, 255)
    case Y => Pixel(0, 255, 0, 255)
    case Z => Pixel(0, 0, 255, 255)
  }

  /** The colour drawn for ID `id`: its three low little-endian bytes, alpha 1.0. */
  function IdColour(id: nat): (p: Pixel)
    ensures p.a == 255
  {
    Pixel(id % 256, id / 256 % 256, id / 0x1_0000 % 256, 255)
  }

  /** The pixel packed little-endian into an unsigned 32-bit integer. */
  function ToUInt32(p: Pixel): (v: nat)
    ensures v < 0x1_0000_0000
  {
    p.r + 0x100 * p.g + 0x1_0000 * p.b + 0x100_0000 * p.a
  }

  /** How one read-back pixel is interpreted. */
  datatype PixelClass =
    | Rejected               // an alpha that is neither 0 nor 255
    | ToolHandle(axis: Axis) // exactly one of the three marker colours
    | ObjectId(id: nat)      // any other colour: the ID its RGB bytes encode

  /**
   * Classify a read-back pixel: only alpha 0 or 255 counts as a hit; the
   * alpha is then cleared, the marker colours are recognised before any ID
   * is decoded, and the remaining colour is decoded as an ID.
   */
  function Classify(p: Pixel): (c: PixelClass)
    ensures c.Rejected? <==> p.a != 0 && p.a != 255
    ensures c.ObjectId? ==> c.id < IdSpace
  {
    if p.a == 255 || p.a == 0 then
      var q := p.(a := 0);
      if q.r == 255 && q.g == 0 && q.b == 0 then ToolHandle(X)
      else if q.r == 0 && q.g == 255 && q.b == 0 then ToolHandle(Y)
      else if q.r == 0 && q.g == 0 && q.b == 255 then ToolHandle(Z)
      else ObjectId(ToUInt32(q))
    else Rejected
  }

  /** The IDs whose colour is a marker colour. */
  predicate IsMarkerId(id: nat)
  {
    id == 0xFF || id == 0xFF00 || id == 0xFF_0000
  }

  // ---------------------------------------------------------------------
  // Round trips

  lemma ByteDigits(id: nat)
    requires id < IdSpace
    ensures id % 256 + 0x100 * (id / 256 % 256) + 0x1_0000 * (id / 0x1_0000 % 256) == id
  {
    var q1 := id / 256;
    assert id == 256 * q1 + id % 256;
    var q2 := q1 / 256;
    assert q1 == 256 * q2 + q1 % 256;
    assert q2 == id / 0x1_0000 by {
      assert id == 0x1_0000 * q2 + (256 * (q1 % 256) + id % 256);
      assert 0 <= 256 * (q1 % 256) + id % 256 < 0x1_0000;
    }
    assert q2 < 256;
  }

  /** Decoding the colour of an ID below 2^24 that is not a marker gives the ID back. */
  lemma DecodeIdColour(id: nat)
    requires id < IdSpace && !IsMarkerId(id)
    ensures Classify(IdColour(id)) == ObjectId(id)
  {
    ByteDigits(id);
  }

  /** Every decoded ID is drawn with exactly the decoded pixel's colour. */
  lemma EncodeDecodedId(p: Pixel)
    requires Classify(p).ObjectId?
    ensures IdColour(Classify(p).id) == p.(a := 255)
  {
    var id := Classify(p).id;
    assert id == p.r + 0x100 * p.g + 0x1_0000 * p.b;
    assert id % 256 == p.r;
    assert id / 256 == p.g + 0x100 * p.b;
    assert id / 0x1_0000 == p.b;
  }

  /** The IDs 255, 65280 and 16711680 are drawn in the marker colours, so the marker test shadows them. */
  lemma MarkerIdsShadowed(id: nat)
    requires IsMarkerId(id)
    ensures Classify(IdColour(id)).ToolHandle?
    ensures IdColour(id) == MarkerColour(Classify(IdColour(id)).axis)
  {
  }

  /** A marker colour, with either alpha the GPU may leave, is a tool-handle hit on its axis. */
  lemma MarkerColourIsToolHandle(axis: Axis, alpha: Byte)
    requires alpha == 0 || alpha == 255
    ensures Classify(MarkerColour(axis).(a := alpha)) == ToolHandle(axis)
  {
  }

  /** The cleared background decodes as ID 0, like the first object of the pass. */
  lemma BackgroundIsIdZero()
    ensures Classify(Background) == ObjectId(0)
  {
  }

  /** Only three bytes are drawn: IDs 2^24 apart share a colour. */
  lemma IdColourWraps(id: nat)
    ensures IdColour(id + IdSpace) == IdColour(id)
  {
    assert (id + IdSpace) / 256 == id / 256 + 0x1_0000;
    assert (id + IdSpace) / 0x1_0000 == id / 0x1_0000 + 256;
  }
}
