/**
 * The byte layout of a DXT5-compressed texture's mip chain as the frame
 * uploads it: the level images are stored back to back, each made of 4x4
 * texel blocks of 16 bytes, and each level halves the previous width and
 * height (rounding down) until one of them reaches 0.
 */
module Textures {

  /** A texture as the upload sees it: its size, its mip level count and the length of its data. */
  datatype Texture = Texture(width: nat, height: nat, mipMapCount: int, dataLength: nat)

  /** One compressed image upload: the level, its size in texels, and the byte range of its data. */
  datatype Upload = Upload(level: nat, width: nat, height: nat, offset: nat, size: nat)

  /** The bytes of a `w` x `h` level image: one 16-byte block per started 4x4 tile. */
  function BlockBytes(w: nat, h: nat): nat
  {
    ((w + 3) / 4) * ((h + 3) / 4) * 16
  }

  /** The uploads of the mip loop from level `level` on, with the current level size and data offset. */
  function MipChain(w: nat, h: nat, level: nat, count: int, offset: nat): seq<Upload>
    decreases count - level
  {
    if level >= count then []
    else if w > 0 && h > 0 then
      [Upload(level, w, h, offset, BlockBytes(w, h))] + MipChain(w / 2, h / 2, level + 1, count, offset + BlockBytes(w, h))
    else MipChain(w, h, level + 1, count, offset)
  }

  /** The full chain of a texture. */
  function FullChain(t: Texture): seq<Upload>
  {
    MipChain(t.width, t.height, 0, t.mipMapCount, 0)
  }

  predicate Fits(u: Upload, dataLength: nat)
  {
    u.offset + u.size <= dataLength
  }

  /**
   * The uploads loadTexture issues. With more than one mip level it copies
   * each level image out of the texture data and uploads it, in chain order;
   * the copy throws when the image runs past the end of the data, so the
   * uploads issued are the prefix of the chain before the first image that
   * does not fit, and `complete` says whether the whole chain was uploaded.
   * With one level or fewer, the whole data is uploaded as level 0.
   */
  method LoadTexture(t: Texture) returns (uploads: seq<Upload>, complete: bool)
    ensures t.mipMapCount > 1 ==>
      && uploads <= FullChain(t)
      && (forall j :: 0 <= j < |uploads| ==> Fits(uploads[j], t.dataLength))
      && (complete <==> uploads == FullChain(t))
      && (!complete ==> !Fits(FullChain(t)[|uploads|], t.dataLength))
    ensures t.mipMapCount <= 1 ==>
      complete && uploads == [Upload(0, t.width, t.height, 0, BlockBytes(t.width, t.height))]
  {
    var offset: nat := 0;
    uploads := [];
    if t.mipMapCount > 1 {
      var mipWidth: nat := t.width;
      var mipHeight: nat := t.height;
      for mipLevel := 0 to t.mipMapCount
        invariant uploads + MipChain(mipWidth, mipHeight, mipLevel, t.mipMapCount, offset) == FullChain(t)
        invariant forall j :: 0 <= j < |uploads| ==> Fits(uploads[j], t.dataLength)
      {
        if mipWidth > 0 && mipHeight > 0 {
          var size := ((mipWidth + 3) / 4) * ((mipHeight + 3) / 4) * 16;
          var upload := Upload(mipLevel, mipWidth, mipHeight, offset, size);
          if offset + size > t.dataLength {
            assert FullChain(t) == uploads + [upload] + MipChain(mipWidth / 2, mipHeight / 2, mipLevel + 1, t.mipMapCount, offset + size);
            complete := false;
            return;
          }
          uploads := uploads + [upload];
          offset := offset + size;
          mipWidth := mipWidth / 2;
          mipHeight := mipHeight / 2;
        }
      }
    } else {
      var size := ((t.width + 3) / 4) * ((t.height + 3) / 4) * 16;
      uploads := [Upload(0, t.width, t.height, 0, size)];
    }
    complete := true;
  }

  // ---------------------------------------------------------------------
  // The chain in closed form

  /** The level size after k halvings. */
  function Halved(w: nat, k: nat): nat
  {
    if k == 0 then w else Halved(w / 2, k - 1)
  }

  /** The bytes of the first k level images. */
  function PrefixBytes(w: nat, h: nat, k: nat): nat
  {
    if k == 0 then 0 else BlockBytes(w, h) + PrefixBytes(w / 2, h / 2, k - 1)
  }

  /** The number of halvings before the width or the height reaches 0. */
  function LiveLevels(w: nat, h: nat): nat
    decreases w
  {
    if w > 0 && h > 0 then 1 + LiveLevels(w / 2, h / 2) else 0
  }

  /** Once a dimension is 0 the loop issues nothing more. */
  lemma {:induction false} DeadChainEmpty(w: nat, h: nat, level: nat, count: int, offset: nat)
    requires w == 0 || h == 0
    ensures MipChain(w, h, level, count, offset) == []
    decreases count - level
  {
    if level < count {
      DeadChainEmpty(w, h, level + 1, count, offset);
    }
  }

  /**
   * Upload j of the chain is level `level + j`, of size w and h halved j
   * times, placed right after the images of the levels before it; the chain
   * has one upload per level until the count is reached or a dimension
   * reaches 0.
   */
  lemma {:induction false} MipChainAt(w: nat, h: nat, level: nat, count: int, offset: nat)
    ensures var chain := MipChain(w, h, level, count, offset);
      && |chain| == (if count - level < LiveLevels(w, h) then (if count <= level then 0 else count - level) else LiveLevels(w, h))
      && forall j :: 0 <= j < |chain| ==>
           chain[j] == Upload(level + j, Halved(w, j), Halved(h, j), offset + PrefixBytes(w, h, j),
                              BlockBytes(Halved(w, j), Halved(h, j)))
    decreases count - level
  {
    if level < count {
      if w > 0 && h > 0 {
        MipChainAt(w / 2, h / 2, level + 1, count, offset + BlockBytes(w, h));
      } else {
        DeadChainEmpty(w, h, level, count, offset);
      }
    }
  }

  /** Consecutive level images are packed back to back. */
  lemma MipChainContiguous(w: nat, h: nat, level: nat, count: int, offset: nat, j: nat)
    requires j + 1 < |MipChain(w, h, level, count, offset)|
    ensures var chain := MipChain(w, h, level, count, offset);
      chain[j + 1].offset == chain[j].offset + chain[j].size
  {
    MipChainAt(w, h, level, count, offset);
    PrefixBytesStep(w, h, j);
  }

  lemma {:induction false} PrefixBytesStep(w: nat, h: nat, j: nat)
    ensures PrefixBytes(w, h, j + 1) == PrefixBytes(w, h, j) + BlockBytes(Halved(w, j), Halved(h, j))
  {
    if j > 0 {
      PrefixBytesStep(w / 2, h / 2, j - 1);
    }
  }

  /** The blocks across a level cover its width with less than one block to spare, and each is 16 bytes. */
  lemma BlockCoverage(w: nat, h: nat)
    ensures w <= 4 * ((w + 3) / 4) < w + 4
    ensures h <= 4 * ((h + 3) / 4) < h + 4
    ensures BlockBytes(w, h) == 16 * ((w + 3) / 4) * ((h + 3) / 4)
    ensures w > 0 && h > 0 ==> BlockBytes(w, h) >= 16
  {
  }
}
