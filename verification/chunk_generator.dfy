/** The flat terrain generator: a block section of dirt (block type 3),
    followed by three nibble-packed sections (metadata, block light, sky
    light), handed to a zlib compressor that is a parameter of the model. */
module ChunkGenerator {
  import opened Binary

  /** Blocks in a chunk of the given extents; each extent counts one extra
      block, as the generator's loops run to the bound inclusive. */
  function BlockCount(sizeX: nat, sizeY: nat, sizeZ: nat): nat {
    (sizeX + 1) * (sizeY + 1) * (sizeZ + 1)
  }

  /** n copies of v. */
  function Fill(n: nat, v: byte): (r: Bytes)
    ensures |r| == n && forall i :: 0 <= i < n ==> r[i] == v
  {
    seq(n, _ => v)
  }

  /** Two values per byte: value 2j in the low nibble of byte j, value 2j+1 in
      the high nibble; an odd last value leaves its high nibble zero. */
  function PackNibbles(v: Bytes): (r: Bytes)
    ensures |r| == (|v| + 1) / 2
    ensures forall j :: 0 <= j < |r| ==>
              r[j] == v[2 * j] % 16 + (if 2 * j + 1 < |v| then 16 * (v[2 * j + 1] % 16) else 0)
  {
    if |v| == 0 then []
    else if |v| == 1 then [v[0] % 16]
    else
      var tail := PackNibbles(v[2..]);
      assert forall j :: 0 <= j < |tail| ==> v[2..][2 * j] == v[2 * (j + 1)];
      assert forall j :: 0 <= j < |tail| && 2 * j + 1 < |v| - 2 ==> v[2..][2 * j + 1] == v[2 * (j + 1) + 1];
      [v[0] % 16 + 16 * (v[1] % 16)] + tail
  }

  /** The raw chunk for `total` blocks of type 3. */
  function FlatChunkLayout(total: nat): Bytes {
    Fill(total, 3) + PackNibbles(Fill(total, 3)) + Fill((total + 1) / 2, 0) + Fill((total + 1) / 2, 0)
  }

  /** `GenerateFlatChunk` before compression, as the source computes it: the
      block section, then the three nibble sections. `groundLevel` is accepted
      and ignored. */
  method GenerateFlatChunkRaw(groundLevel: int, sizeX: nat, sizeY: nat, sizeZ: nat)
    returns (raw: Bytes)
    ensures raw == FlatChunkLayout(BlockCount(sizeX, sizeY, sizeZ))
  {
    var blockTypes := FillBlocks(sizeX, sizeY, sizeZ);
    var metadata, blockLight, skyLight := PackSections(blockTypes);
    raw := blockTypes + metadata + blockLight + skyLight;
  }

  /** The triple loop over x, z and y, each to its bound inclusive, appending
      block type 3. */
  method FillBlocks(sizeX: nat, sizeY: nat, sizeZ: nat) returns (blockTypes: Bytes)
    ensures blockTypes == Fill(BlockCount(sizeX, sizeY, sizeZ), 3)
  {
    var plane := (sizeZ + 1) * (sizeY + 1);
    blockTypes := [];
    var x := 0;
    while x <= sizeX
      invariant 0 <= x <= sizeX + 1
      invariant blockTypes == Fill(x * plane, 3)
    {
      blockTypes := AppendPlane(blockTypes, sizeY, sizeZ);
      FillSum(x * plane, plane);
      assert x * plane + plane == (x + 1) * plane;
      x := x + 1;
    }
    assert (sizeX + 1) * plane == BlockCount(sizeX, sizeY, sizeZ);
  }

  /** The loops over z and y for one x. */
  method AppendPlane(prefix: Bytes, sizeY: nat, sizeZ: nat) returns (r: Bytes)
    ensures r == prefix + Fill((sizeZ + 1) * (sizeY + 1), 3)
  {
    var column := sizeY + 1;
    r := prefix;
    var z := 0;
    while z <= sizeZ
      invariant 0 <= z <= sizeZ + 1
      invariant r == prefix + Fill(z * column, 3)
    {
      r := AppendColumn(r, sizeY);
      FillSum(z * column, column);
      assert r == prefix + (Fill(z * column, 3) + Fill(column, 3));
      assert z * column + column == (z + 1) * column;
      z := z + 1;
    }
  }

  /** The loop over y for one x and z. */
  method AppendColumn(prefix: Bytes, sizeY: nat) returns (r: Bytes)
    ensures r == prefix + Fill(sizeY + 1, 3)
  {
    r := prefix;
    var y := 0;
    while y <= sizeY
      invariant 0 <= y <= sizeY + 1
      invariant r == prefix + Fill(y, 3)
    {
      FillOneMore(y);
      r := r + [3];
      y := y + 1;
    }
  }

  lemma FillSum(a: nat, b: nat)
    ensures Fill(a, 3) + Fill(b, 3) == Fill(a + b, 3)
  {
  }

  lemma FillOneMore(n: nat)
    ensures Fill(n, 3) + [3] == Fill(n + 1, 3)
  {
  }

  /** One pass over the blocks: an even index appends a byte holding the low
      nibble of its block type, an odd index ORs its low nibble, shifted left
      by four, into the last byte. Both light arrays get the nibble 0. */
  method PackSections(blockTypes: Bytes) returns (metadata: Bytes, blockLight: Bytes, skyLight: Bytes)
    ensures metadata == PackNibbles(blockTypes)
    ensures blockLight == Fill((|blockTypes| + 1) / 2, 0)
    ensures skyLight == Fill((|blockTypes| + 1) / 2, 0)
  {
    metadata := [];
    blockLight := [];
    skyLight := [];
    var i := 0;
    while i < |blockTypes|
      invariant 0 <= i <= |blockTypes|
      invariant metadata == PackNibbles(blockTypes[..i])
      invariant blockLight == Fill((i + 1) / 2, 0) && skyLight == Fill((i + 1) / 2, 0)
    {
      var byteIndex := i / 2;
      if i % 2 == 0 {
        PackEvenStep(blockTypes, i, metadata);
        LightEvenStep(i);
        metadata := metadata + [BitAnd(blockTypes[i], 0x0F)];
        blockLight := blockLight + [BitAnd(0x00, 0x0F)];
        skyLight := skyLight + [BitAnd(0x00, 0x0F)];
      } else {
        PackOddStep(blockTypes, i, metadata);
        LightOddStep(i);
        metadata := metadata[byteIndex := BitOr(metadata[byteIndex], 16 * BitAnd(blockTypes[i], 0x0F))];
        blockLight := blockLight[byteIndex := BitOr(blockLight[byteIndex], 16 * BitAnd(0x00, 0x0F))];
        skyLight := skyLight[byteIndex := BitOr(skyLight[byteIndex], 16 * BitAnd(0x00, 0x0F))];
      }
      i := i + 1;
    }
    assert blockTypes[..i] == blockTypes;
  }

  /** At an even index each light array grows by a zero byte. */
  lemma LightEvenStep(i: nat)
    requires i % 2 == 0
    ensures Fill((i + 1) / 2, 0) + [BitAnd(0x00, 0x0F)] == Fill((i + 2) / 2, 0)
  {
    assert BitAnd(0x00, 0x0F) == 0;
  }

  /** At an odd index OR-ing a zero nibble into the last light byte keeps it
      zero. */
  lemma LightOddStep(i: nat)
    requires i % 2 == 1
    ensures i / 2 < (i + 1) / 2
    ensures Fill((i + 1) / 2, 0)[i / 2 := BitOr(Fill((i + 1) / 2, 0)[i / 2], 16 * BitAnd(0x00, 0x0F))]
            == Fill((i + 2) / 2, 0)
  {
    assert BitAnd(0x00, 0x0F) == 0;
    assert BitOr(0, 0) == 0;
  }

  /** The even step of the packing loop, with the masking the source does. */
  lemma PackEvenStep(v: Bytes, i: nat, packed: Bytes)
    requires i < |v| && i % 2 == 0 && packed == PackNibbles(v[..i])
    ensures PackNibbles(v[..i + 1]) == packed + [BitAnd(v[i], 0x0F)]
  {
    LowNibbleMask(v[i]);
    PackedEven(v, i);
  }

  /** The odd step of the packing loop: OR-ing the shifted low nibble into
      the last byte completes it. */
  lemma PackOddStep(v: Bytes, i: nat, packed: Bytes)
    requires i < |v| && i % 2 == 1 && packed == PackNibbles(v[..i])
    ensures i / 2 < |packed|
    ensures BitOr(packed[i / 2], 16 * BitAnd(v[i], 0x0F)) == v[i - 1] % 16 + 16 * (v[i] % 16)
    ensures PackNibbles(v[..i + 1])
            == packed[i / 2 := BitOr(packed[i / 2], 16 * BitAnd(v[i], 0x0F))]
  {
    PackedLowNibble(v, i);
    var previous := packed[i / 2];
    var low := BitAnd(v[i], 0x0F);
    LowNibbleMask(v[i]);
    NibbleOrSwapped(low, previous);
    assert BitOr(previous, 16 * low) == v[i - 1] % 16 + 16 * (v[i] % 16);
    PackedOdd(v, i);
  }

  /** An even index starts a new byte holding its low nibble. */
  lemma PackedEven(v: Bytes, i: nat)
    requires i < |v| && i % 2 == 0
    ensures PackNibbles(v[..i + 1]) == PackNibbles(v[..i]) + [v[i] % 16]
  {
    var a := PackNibbles(v[..i]);
    var b := PackNibbles(v[..i + 1]);
    assert |b| == |a| + 1;
    forall j | 0 <= j < |b|
      ensures b[j] == (a + [v[i] % 16])[j]
    {
      assert v[..i + 1][2 * j] == v[2 * j];
      if j < |a| {
        assert v[..i][2 * j] == v[2 * j];
        assert v[..i + 1][2 * j + 1] == v[2 * j + 1] == v[..i][2 * j + 1];
      }
    }
  }

  /** Before an odd index the last byte holds only the low nibble of the
      previous value. */
  lemma PackedLowNibble(v: Bytes, i: nat)
    requires i < |v| && i % 2 == 1
    ensures |PackNibbles(v[..i])| == i / 2 + 1
    ensures PackNibbles(v[..i])[i / 2] == v[i - 1] % 16
  {
    assert v[..i][2 * (i / 2)] == v[i - 1];
  }

  /** An odd index fills the high nibble of the last byte. */
  lemma PackedOdd(v: Bytes, i: nat)
    requires i < |v| && i % 2 == 1
    ensures PackNibbles(v[..i + 1])
            == PackNibbles(v[..i])[i / 2 := v[i - 1] % 16 + 16 * (v[i] % 16)]
  {
    var a := PackNibbles(v[..i]);
    var b := PackNibbles(v[..i + 1]);
    assert |b| == |a|;
    forall j | 0 <= j < |b|
      ensures b[j] == a[i / 2 := v[i - 1] % 16 + 16 * (v[i] % 16)][j]
    {
      assert v[..i + 1][2 * j] == v[2 * j] == v[..i][2 * j];
      if 2 * j + 1 < i {
        assert v[..i + 1][2 * j + 1] == v[2 * j + 1] == v[..i][2 * j + 1];
      }
    }
  }

  /** The section sizes: every section after the blocks has ceil(total/2)
      bytes, whatever capacity the lists were created with. */
  lemma FlatChunkSections(total: nat)
    ensures |FlatChunkLayout(total)| == total + 3 * ((total + 1) / 2)
    ensures forall i :: 0 <= i < total ==> FlatChunkLayout(total)[i] == 3
    ensures forall j :: 0 <= j < (total + 1) / 2 ==>
              FlatChunkLayout(total)[total + j] == (if 2 * j + 1 < total then 0x33 else 0x03)
    ensures forall k :: total + (total + 1) / 2 <= k < |FlatChunkLayout(total)| ==>
              FlatChunkLayout(total)[k] == 0
  {
    var blocks := Fill(total, 3);
    var m := PackNibbles(blocks);
    var h := (total + 1) / 2;
    var light := Fill(h, 0) + Fill(h, 0);
    assert FlatChunkLayout(total) == blocks + m + light;
    PackedFill(total);
    Sections(blocks, m, light);
  }

  /** Packing a run of block type 3: 0x33 for every full pair, 0x03 for an
      odd last block. */
  lemma PackedFill(total: nat)
    ensures forall j :: 0 <= j < |PackNibbles(Fill(total, 3))| ==>
              PackNibbles(Fill(total, 3))[j] == (if 2 * j + 1 < total then 0x33 else 0x03)
  {
  }

  /** Indexing the three parts of a concatenation. */
  lemma Sections(a: Bytes, b: Bytes, c: Bytes)
    ensures |a + b + c| == |a| + |b| + |c|
    ensures forall i :: 0 <= i < |a| ==> (a + b + c)[i] == a[i]
    ensures forall j :: 0 <= j < |b| ==> (a + b + c)[|a| + j] == b[j]
    ensures forall k :: |a| + |b| <= k < |a| + |b| + |c| ==> (a + b + c)[k] == c[k - |a| - |b|]
  {
  }

  /** With the default extents 16, 128, 16 there are 37281 blocks and the raw
      chunk is 93204 bytes, its last metadata byte 0x03. */
  lemma DefaultFlatChunk()
    ensures BlockCount(16, 128, 16) == 37281
    ensures |FlatChunkLayout(37281)| == 93204
    ensures FlatChunkLayout(37281)[37281 + 18640] == 0x03
  {
    FlatChunkSections(37281);
  }

  /** `Compress`: a null or empty input is returned as it is; anything else
      goes through zlib. */
  function Compress(zlib: Bytes -> Bytes, input: Option<Bytes>): (r: Option<Bytes>)
    ensures input.None? ==> r.None?
    ensures input.Some? && |input.value| == 0 ==> r == input
    ensures input.Some? && |input.value| > 0 ==> r == Some(zlib(input.value))
  {
    if input.None? || |input.value| == 0 then input else Some(zlib(input.value))
  }

  /** Every extent counts at least one block, so the raw chunk has bytes. */
  lemma LayoutNonEmpty(sizeX: nat, sizeY: nat, sizeZ: nat)
    ensures |FlatChunkLayout(BlockCount(sizeX, sizeY, sizeZ))| > 0
  {
    var a := (sizeX + 1) * (sizeY + 1);
    assert a >= 1;
    assert a * (sizeZ + 1) >= 1;
    assert |Fill(BlockCount(sizeX, sizeY, sizeZ), 3)| >= 1;
  }

  /** `GenerateFlatChunk`: the raw layout, compressed. The layout is never
      empty, so the compressor always runs. */
  method GenerateFlatChunk(zlib: Bytes -> Bytes, groundLevel: int, sizeX: nat, sizeY: nat, sizeZ: nat)
    returns (data: Bytes)
    ensures data == zlib(FlatChunkLayout(BlockCount(sizeX, sizeY, sizeZ)))
  {
    var raw := GenerateFlatChunkRaw(groundLevel, sizeX, sizeY, sizeZ);
    LayoutNonEmpty(sizeX, sizeY, sizeZ);
    var c := Compress(zlib, Some(raw));
    data := c.value;
  }
}
