/** The block store and the chunk subscription index: per chunk coordinate a
    block blob, the set of subscribed clients and the time of last access. */
module World {
  import opened Binary
  import opened WorldPackets
  import opened Outbound
  import ChunkGenerator

  type ChunkKey = (int, int)

  /** A client's identity (a GUID in the server). */
  type ClientId = nat

  const ViewDistance: nat := 5
  const UnloadDelay: nat := 30
  const ChunkSizeX: nat := 16
  const ChunkSizeY: nat := 128
  const ChunkSizeZ: nat := 16
  /** One byte per block, then three nibble arrays of half that size. */
  const BlocksPerChunk: nat := 32768
  const TotalChunkSize: nat := 81920

  /** Times are `DateTime` ticks of 100 ns. */
  const TicksPerSecond: nat := 10_000_000

  /** The sizes as the source computes them: the product of the extents, and
      that plus `(blocks * 3) >> 1`, which is `/ 2` for a non-negative
      product. */
  lemma ChunkSizes()
    ensures BlocksPerChunk == ChunkSizeX * ChunkSizeY * ChunkSizeZ
    ensures TotalChunkSize == BlocksPerChunk + (BlocksPerChunk * 3) / 2
  {
  }

  datatype World = World(
    subscribers: map<ChunkKey, set<ClientId>>,
    blockData: map<ChunkKey, Bytes>,
    lastAccess: map<ChunkKey, int>)

  const Empty := World(map[], map[], map[])

  /** Every blob is a full chunk. */
  predicate Valid(w: World) {
    forall k :: k in w.blockData ==> |w.blockData[k]| == TotalChunkSize
  }

  // ---------------------------------------------------------------------------
  // Coordinates
  // ---------------------------------------------------------------------------

  /** `x >> 4`: an arithmetic shift, which is division by 16 rounding down
      (Dafny's `/` by a positive divisor rounds down too). */
  function ChunkCoord(x: int): int {
    x / 16
  }

  /** `x & 0xF` on a two's-complement `int`: the remainder modulo 16, never
      negative. */
  function Offset(x: int): int {
    x % 16
  }

  /** A block coordinate is 16 · chunk + offset, with the offset in [0, 16):
      the chunk is the floor of x / 16, also for negative x. */
  lemma CoordinateSplit(x: int)
    ensures 16 * ChunkCoord(x) + Offset(x) == x
    ensures 0 <= Offset(x) < 16
    ensures 16 * ChunkCoord(x) <= x < 16 * ChunkCoord(x) + 16
  {
  }

  /** `GetBlockIndex`: y varies fastest, then z, then x. */
  function BlockIndex(x: int, y: int, z: int): int {
    y + z * ChunkSizeY + x * ChunkSizeY * ChunkSizeZ
  }

  /** The metadata nibble of block i lives in byte `BLOCKS_PER_CHUNK + (i >> 1)`. */
  function MetaIndex(i: nat): nat {
    BlocksPerChunk + i / 2
  }

  /** Offsets inside a chunk address a block byte in [0, 32768) and a
      metadata byte in [32768, 49152), both inside the 81920-byte blob. */
  lemma IndexBounds(x: int, y: int, z: int)
    requires 0 <= x < 16 && 0 <= y < 128 && 0 <= z < 16
    ensures 0 <= BlockIndex(x, y, z) < BlocksPerChunk
    ensures BlocksPerChunk <= MetaIndex(BlockIndex(x, y, z)) < BlocksPerChunk + BlocksPerChunk / 2
    ensures MetaIndex(BlockIndex(x, y, z)) < TotalChunkSize
  {
  }

  /** Different offsets address different blocks. */
  lemma {:induction false} BlockIndexInjective(x: int, y: int, z: int, a: int, b: int, c: int)
    requires 0 <= x < 16 && 0 <= y < 128 && 0 <= z < 16
    requires 0 <= a < 16 && 0 <= b < 128 && 0 <= c < 16
    requires BlockIndex(x, y, z) == BlockIndex(a, b, c)
    ensures x == a && y == b && z == c
  {
    var i := BlockIndex(x, y, z);
    assert i == y + 128 * (z + 16 * x);
    assert i == b + 128 * (c + 16 * a);
    DivMod128(i, z + 16 * x, y);
    DivMod128(i, c + 16 * a, b);
    DivMod16(z + 16 * x, x, z);
    DivMod16(c + 16 * a, a, c);
  }

  lemma DivMod128(n: int, q: int, r: int)
    requires 0 <= r < 128 && n == 128 * q + r
    ensures n / 128 == q && n % 128 == r
  {
  }

  // ---------------------------------------------------------------------------
  // Chunk data
  // ---------------------------------------------------------------------------

  /** `GenerateFlatChunk()` with its default extents: the compressed flat
      chunk. */
  function FlatChunk(zlib: Bytes -> Bytes): Bytes {
    zlib(ChunkGenerator.FlatChunkLayout(ChunkGenerator.BlockCount(GeneratorX, GeneratorY, GeneratorZ)))
  }

  /** The extents `GenerateFlatChunk` is called with by default. */
  const GeneratorX: nat := 16
  const GeneratorY: nat := 128
  const GeneratorZ: nat := 16

  /** `GenerateChunkData`: the generator's output (still compressed) copied to
      the front of a zeroed 81920-byte blob. The copy throws when the output
      is longer than the blob. */
  function GenerateChunkData(zlib: Bytes -> Bytes): (r: Option<Bytes>)
    ensures r.Some? <==> |FlatChunk(zlib)| <= TotalChunkSize
    ensures r.Some? ==> |r.value| == TotalChunkSize
    ensures r.Some? ==> r.value[..|FlatChunk(zlib)|] == FlatChunk(zlib)
    ensures r.Some? ==> forall i :: |FlatChunk(zlib)| <= i < TotalChunkSize ==> r.value[i] == 0
  {
    var generated := FlatChunk(zlib);
    if |generated| > TotalChunkSize then None
    else
      var blob := generated + Wire.Zeros(TotalChunkSize - |generated|);
      assert blob[..|generated|] == generated;
      Some(blob)
  }

  /** `GetOrAdd` on the block data: the stored blob, or a generated one. */
  function ChunkBlob(w: World, k: ChunkKey, zlib: Bytes -> Bytes): (r: Option<Bytes>)
    requires Valid(w)
    ensures r.Some? ==> |r.value| == TotalChunkSize
    ensures k in w.blockData ==> r == Some(w.blockData[k])
    ensures k !in w.blockData ==> r == GenerateChunkData(zlib)
  {
    if k in w.blockData then Some(w.blockData[k]) else GenerateChunkData(zlib)
  }

  // ---------------------------------------------------------------------------
  // SetBlock and GetBlock
  // ---------------------------------------------------------------------------

  /** `(current & 0xF0) | (metadata & 0x0F)`: the low nibble replaced. */
  function MergeLow(current: byte, metadata: byte): (r: byte)
    ensures r % 16 == metadata % 16 && r / 16 == current / 16
  {
    var high := BitAnd(current, 0xF0);
    var low := BitAnd(metadata, 0x0F);
    HighNibbleMask(current);
    LowNibbleMask(metadata);
    NibbleOr(current / 16, metadata % 16);
    DivMod16(high + low, current / 16, metadata % 16);
    BitOr(high, low)
  }

  /** `(current & 0x0F) | ((metadata << 4) & 0xF0)`: the high nibble
      replaced by the low nibble of `metadata`. */
  function MergeHigh(current: byte, metadata: byte): (r: byte)
    ensures r % 16 == current % 16 && r / 16 == metadata % 16
  {
    var low := BitAnd(current, 0x0F);
    var high := BitAnd(metadata * 16, 0xF0);
    LowNibbleMask(current);
    ShiftedNibbleMask(metadata);
    NibbleOrSwapped(metadata % 16, current % 16);
    DivMod16(high + low, metadata % 16, current % 16);
    BitOr(low, high)
  }

  /** The stores of `SetBlock` into one blob: the block byte, then the
      addressed nibble of the metadata byte, with the masks the source uses. */
  function PutBlock(blob: Bytes, i: nat, blockType: byte, metadata: byte): (r: Bytes)
    requires |blob| == TotalChunkSize && i < BlocksPerChunk
    ensures |r| == TotalChunkSize
    ensures r[i] == blockType
    ensures r[MetaIndex(i)] % 16 == (if i % 2 == 0 then metadata % 16 else blob[MetaIndex(i)] % 16)
    ensures r[MetaIndex(i)] / 16 == (if i % 2 == 1 then metadata % 16 else blob[MetaIndex(i)] / 16)
    ensures forall j :: 0 <= j < |r| && j != i && j != MetaIndex(i) ==> r[j] == blob[j]
  {
    var m := MetaIndex(i);
    var withType := blob[i := blockType];
    var current := withType[m];
    var merged := if i % 2 == 0 then MergeLow(current, metadata) else MergeHigh(current, metadata);
    withType[m := merged]
  }

  /** The two values `GetBlock` reads from a blob: the block byte and the
      addressed nibble, shifted down for an odd index. */
  function ReadBlock(blob: Bytes, i: nat): (r: (byte, byte))
    requires |blob| == TotalChunkSize && i < BlocksPerChunk
    ensures r.0 == blob[i]
    ensures r.1 == (if i % 2 == 0 then blob[MetaIndex(i)] % 16 else blob[MetaIndex(i)] / 16)
  {
    var metadata := blob[MetaIndex(i)];
    if i % 2 == 0 then
      LowNibbleMask(metadata);
      (blob[i], BitAnd(metadata, 0x0F))
    else
      LowNibbleMask(metadata / 16);
      (blob[i], BitAnd(metadata / 16, 0x0F))
  }

  /** The packet `NotifyBlockChange` builds and the clients it goes to: the
      chunk's subscribers that are in the connected-client registry. A chunk
      without a subscriber entry notifies no one. */
  datatype Notification = Notification(change: BlockChangePacket, recipients: set<ClientId>)

  function Members(w: World, k: ChunkKey): set<ClientId> {
    if k in w.subscribers then w.subscribers[k] else {}
  }

  function NotifyBlockChange(w: World, x: Int32, y: byte, z: Int32, blockType: byte, metadata: byte,
                             connected: set<ClientId>): (r: Notification)
    ensures r.change == BlockChangePacket(x, y, z, blockType, metadata)
    ensures forall id :: id in r.recipients <==>
              id in connected && (ChunkCoord(x), ChunkCoord(z)) in w.subscribers
              && id in w.subscribers[(ChunkCoord(x), ChunkCoord(z))]
  {
    Notification(BlockChangePacket(x, y, z, blockType, metadata),
                 Members(w, (ChunkCoord(x), ChunkCoord(z))) * connected)
  }

  /** The outcomes of `SetBlock`: false for a height outside the chunk; an
      exception when the chunk has to be generated and the generator's
      output does not fit the blob; otherwise true, with the new world and
      the block-change notification. */
  datatype SetBlockResult =
    | OutOfRange
    | GenerationFailed
    | Written(world: World, notification: Notification)

  function SetBlock(w: World, x: Int32, y: Int32, z: Int32, blockType: byte, metadata: byte,
                    zlib: Bytes -> Bytes, connected: set<ClientId>): (r: SetBlockResult)
    requires Valid(w)
    ensures r.OutOfRange? <==> y < 0 || y >= ChunkSizeY
    ensures r.GenerationFailed? <==>
              0 <= y < ChunkSizeY && (ChunkCoord(x), ChunkCoord(z)) !in w.blockData
              && |FlatChunk(zlib)| > TotalChunkSize
    ensures r.Written? ==>
              var k := (ChunkCoord(x), ChunkCoord(z));
              var w' := r.world;
              Valid(w') && w'.subscribers == w.subscribers && w'.lastAccess == w.lastAccess
              && k in w'.blockData
              && (forall j :: j != k ==> (j in w'.blockData <==> j in w.blockData))
              && (forall j :: j in w.blockData && j != k ==> w'.blockData[j] == w.blockData[j])
              && r.notification == NotifyBlockChange(w, x, y, z, blockType, metadata, connected)
  {
    if y < 0 || y >= ChunkSizeY then OutOfRange
    else
      var k := (ChunkCoord(x), ChunkCoord(z));
      var blob := ChunkBlob(w, k, zlib);
      if blob.None? then GenerationFailed
      else
        CoordinateSplit(x);
        CoordinateSplit(z);
        IndexBounds(Offset(x), y, Offset(z));
        var i := BlockIndex(Offset(x), y, Offset(z));
        Written(Store(w, k, PutBlock(blob.value, i, blockType, metadata)),
                NotifyBlockChange(w, x, y, z, blockType, metadata, connected))
  }

  /** The world with chunk k's data replaced by a full-sized blob: it stays
      valid, and every other chunk and both access tables are untouched. */
  function Store(w: World, k: ChunkKey, blob: Bytes): (r: World)
    requires Valid(w) && |blob| == TotalChunkSize
    ensures Valid(r) && r.subscribers == w.subscribers && r.lastAccess == w.lastAccess
    ensures k in r.blockData && r.blockData[k] == blob
    ensures forall j :: j != k ==> (j in r.blockData <==> j in w.blockData)
    ensures forall j :: j in w.blockData && j != k ==> r.blockData[j] == w.blockData[j]
  {
    w.(blockData := w.blockData[k := blob])
  }

  /** `GetBlock`: (0, 0) for a height outside the chunk or a chunk without
      data; otherwise the stored block type and metadata nibble. */
  function GetBlock(w: World, x: Int32, y: Int32, z: Int32): (r: (byte, byte))
    requires Valid(w)
    ensures (y < 0 || y >= ChunkSizeY) ==> r == (0, 0)
    ensures (ChunkCoord(x), ChunkCoord(z)) !in w.blockData ==> r == (0, 0)
  {
    if y < 0 || y >= ChunkSizeY then (0, 0)
    else
      var k := (ChunkCoord(x), ChunkCoord(z));
      if k !in w.blockData then (0, 0)
      else
        CoordinateSplit(x);
        CoordinateSplit(z);
        IndexBounds(Offset(x), y, Offset(z));
        ReadBlock(w.blockData[k], BlockIndex(Offset(x), y, Offset(z)))
  }

  /** After a successful `SetBlock`, `GetBlock` at the same place returns the
      block type and the low nibble of the metadata. */
  lemma SetThenGet(w: World, x: Int32, y: Int32, z: Int32, blockType: byte, metadata: byte,
                   zlib: Bytes -> Bytes, connected: set<ClientId>)
    requires Valid(w)
    requires SetBlock(w, x, y, z, blockType, metadata, zlib, connected).Written?
    ensures GetBlock(SetBlock(w, x, y, z, blockType, metadata, zlib, connected).world, x, y, z)
            == (blockType, metadata % 16)
  {
    CoordinateSplit(x);
    CoordinateSplit(z);
    IndexBounds(Offset(x), y, Offset(z));
  }

  /** A successful `SetBlock` changes no other block that had data: neither
      its type nor its metadata nibble, including the other nibble of the
      byte it shares. */
  lemma SetLeavesOthers(w: World, x: Int32, y: Int32, z: Int32, blockType: byte, metadata: byte,
                        zlib: Bytes -> Bytes, connected: set<ClientId>, a: Int32, b: Int32, c: Int32)
    requires Valid(w)
    requires SetBlock(w, x, y, z, blockType, metadata, zlib, connected).Written?
    requires (a, b, c) != (x, y, z)
    requires (ChunkCoord(a), ChunkCoord(c)) in w.blockData
    ensures GetBlock(SetBlock(w, x, y, z, blockType, metadata, zlib, connected).world, a, b, c)
            == GetBlock(w, a, b, c)
  {
    var w' := SetBlock(w, x, y, z, blockType, metadata, zlib, connected).world;
    var k := (ChunkCoord(x), ChunkCoord(z));
    var j := (ChunkCoord(a), ChunkCoord(c));
    if 0 <= b < ChunkSizeY && j == k {
      CoordinateSplit(x);
      CoordinateSplit(z);
      CoordinateSplit(a);
      CoordinateSplit(c);
      IndexBounds(Offset(x), y, Offset(z));
      IndexBounds(Offset(a), b, Offset(c));
      var i := BlockIndex(Offset(x), y, Offset(z));
      var i' := BlockIndex(Offset(a), b, Offset(c));
      if i == i' {
        BlockIndexInjective(Offset(x), y, Offset(z), Offset(a), b, Offset(c));
        assert false;
      }
      assert w'.blockData[k] == PutBlock(w.blockData[k], i, blockType, metadata);
      PutThenReadOther(w.blockData[k], i, i', blockType, metadata);
    }
  }

  /** What a successful `SetBlock` stores for the addressed chunk: the chunk's
      existing blob with one block written, or, for a chunk without data, the
      generator's blob with that one block written. */
  lemma SetBlockStores(w: World, x: Int32, y: Int32, z: Int32, blockType: byte, metadata: byte,
                       zlib: Bytes -> Bytes, connected: set<ClientId>)
    requires Valid(w)
    requires SetBlock(w, x, y, z, blockType, metadata, zlib, connected).Written?
    ensures 0 <= BlockIndex(Offset(x), y, Offset(z)) < BlocksPerChunk
    ensures var k := (ChunkCoord(x), ChunkCoord(z));
            k in w.blockData ==>
              SetBlock(w, x, y, z, blockType, metadata, zlib, connected).world.blockData[k]
              == PutBlock(w.blockData[k], BlockIndex(Offset(x), y, Offset(z)), blockType, metadata)
    ensures var k := (ChunkCoord(x), ChunkCoord(z));
            k !in w.blockData ==>
              GenerateChunkData(zlib).Some?
              && SetBlock(w, x, y, z, blockType, metadata, zlib, connected).world.blockData[k]
                 == PutBlock(GenerateChunkData(zlib).value, BlockIndex(Offset(x), y, Offset(z)),
                             blockType, metadata)
    ensures var k := (ChunkCoord(x), ChunkCoord(z));
            SetBlock(w, x, y, z, blockType, metadata, zlib, connected).world
            == Store(w, k, PutBlock(ChunkBlob(w, k, zlib).value, BlockIndex(Offset(x), y, Offset(z)),
                                    blockType, metadata))
  {
    CoordinateSplit(x);
    CoordinateSplit(z);
    IndexBounds(Offset(x), y, Offset(z));
  }

  /** When `SetBlock` creates the chunk, every other block of the world reads
      as it would with the generator's blob stored for that chunk: the new
      chunk holds generated data apart from the one block written. */
  lemma SetLeavesGenerated(w: World, x: Int32, y: Int32, z: Int32, blockType: byte, metadata: byte,
                           zlib: Bytes -> Bytes, connected: set<ClientId>, a: Int32, b: Int32, c: Int32)
    requires Valid(w)
    requires SetBlock(w, x, y, z, blockType, metadata, zlib, connected).Written?
    requires (ChunkCoord(x), ChunkCoord(z)) !in w.blockData
    requires (a, b, c) != (x, y, z)
    ensures GenerateChunkData(zlib).Some?
    ensures GetBlock(SetBlock(w, x, y, z, blockType, metadata, zlib, connected).world, a, b, c)
            == GetBlock(Store(w, (ChunkCoord(x), ChunkCoord(z)), GenerateChunkData(zlib).value), a, b, c)
  {
    SetBlockStores(w, x, y, z, blockType, metadata, zlib, connected);
    CoordinateSplit(x);
    CoordinateSplit(z);
    StoreOtherBlock(w, GenerateChunkData(zlib).value, x, y, z, blockType, metadata, a, b, c);
  }

  /** Writing block (x, y, z) into a blob stored for its chunk leaves every
      other block of the world reading as with the blob unwritten. */
  lemma StoreOtherBlock(w: World, blob: Bytes, x: Int32, y: Int32, z: Int32, blockType: byte, metadata: byte,
                        a: Int32, b: Int32, c: Int32)
    requires Valid(w) && |blob| == TotalChunkSize
    requires 0 <= y < ChunkSizeY && 0 <= Offset(x) < 16 && 0 <= Offset(z) < 16
    requires BlockIndex(Offset(x), y, Offset(z)) < BlocksPerChunk
    requires (a, b, c) != (x, y, z)
    ensures var k := (ChunkCoord(x), ChunkCoord(z));
            GetBlock(Store(w, k, PutBlock(blob, BlockIndex(Offset(x), y, Offset(z)), blockType, metadata)), a, b, c)
            == GetBlock(Store(w, k, blob), a, b, c)
  {
    var k := (ChunkCoord(x), ChunkCoord(z));
    if 0 <= b < ChunkSizeY && (ChunkCoord(a), ChunkCoord(c)) == k {
      var i := BlockIndex(Offset(x), y, Offset(z));
      var i' := ReadStored(w, k, PutBlock(blob, i, blockType, metadata), a, b, c);
      var i'' := ReadStored(w, k, blob, a, b, c);
      CoordinateSplit(x);
      CoordinateSplit(z);
      if i == i' {
        BlockIndexInjective(Offset(x), y, Offset(z), Offset(a), b, Offset(c));
        assert false;
      }
      PutThenReadOther(blob, i, i', blockType, metadata);
    }
  }

  /** A block inside a stored chunk reads from the stored blob at the index
      its offsets give, which is returned. */
  lemma ReadStored(w: World, k: ChunkKey, blob: Bytes, a: Int32, b: Int32, c: Int32) returns (i: nat)
    requires Valid(w) && |blob| == TotalChunkSize
    requires 0 <= b < ChunkSizeY && (ChunkCoord(a), ChunkCoord(c)) == k
    ensures 0 <= Offset(a) < 16 && 0 <= Offset(c) < 16
    ensures i == BlockIndex(Offset(a), b, Offset(c)) && i < BlocksPerChunk
    ensures GetBlock(Store(w, k, blob), a, b, c) == ReadBlock(blob, i)
  {
    CoordinateSplit(a);
    CoordinateSplit(c);
    IndexBounds(Offset(a), b, Offset(c));
    i := BlockIndex(Offset(a), b, Offset(c));
  }

  /** Storing one block leaves what every other index reads unchanged. */
  lemma PutThenReadOther(blob: Bytes, i: nat, i': nat, blockType: byte, metadata: byte)
    requires |blob| == TotalChunkSize && i < BlocksPerChunk && i' < BlocksPerChunk && i != i'
    ensures ReadBlock(PutBlock(blob, i, blockType, metadata), i') == ReadBlock(blob, i')
  {
    var blob' := PutBlock(blob, i, blockType, metadata);
    assert blob'[i'] == blob[i'];
    if MetaIndex(i') == MetaIndex(i) {
      assert i' % 2 != i % 2;
    } else {
      assert blob'[MetaIndex(i')] == blob[MetaIndex(i')];
    }
  }

  // ---------------------------------------------------------------------------
  // Subscriptions: UpdatePlayerPosition
  // ---------------------------------------------------------------------------

  /** The (2·5 + 1)² chunks within the view distance of chunk c. */
  predicate InView(k: ChunkKey, c: ChunkKey) {
    c.0 - ViewDistance <= k.0 <= c.0 + ViewDistance && c.1 - ViewDistance <= k.1 <= c.1 + ViewDistance
  }

  /** The square in the order the loops visit it, x outer and z inner; a
      `HashSet` that is only added to enumerates in this order. */
  function ViewOrder(c: ChunkKey): (r: seq<ChunkKey>)
    ensures |r| == 121
    ensures forall i :: 0 <= i < 121 ==> r[i] == (c.0 - 5 + i / 11, c.1 - 5 + i % 11)
  {
    seq(121, i requires 0 <= i < 121 => (c.0 - 5 + i / 11, c.1 - 5 + i % 11))
  }

  /** The order lists each chunk of the square once and nothing else. */
  lemma ViewOrderCoversSquare(c: ChunkKey)
    ensures forall i :: 0 <= i < 121 ==> InView(ViewOrder(c)[i], c)
    ensures forall k :: InView(k, c) ==> k in ViewOrder(c)
    ensures forall i, j :: 0 <= i < j < 121 ==> ViewOrder(c)[i] != ViewOrder(c)[j]
  {
    var r := ViewOrder(c);
    forall k | InView(k, c)
      ensures k in r
    {
      var a := k.0 - c.0 + 5;
      var b := k.1 - c.1 + 5;
      var i := 11 * a + b;
      DivMod11(i, a, b);
      assert r[i] == k;
    }
    forall i, j | 0 <= i < j < 121
      ensures r[i] != r[j]
    {
      DivMod11(i, i / 11, i % 11);
      DivMod11(j, j / 11, j % 11);
    }
  }

  lemma DivMod11(n: int, q: int, r: int)
    requires 0 <= r < 11 && n == 11 * q + r
    ensures n / 11 == q && n % 11 == r
  {
  }

  /** The first loop of `UpdatePlayerPosition`: every chunk of the square
      gets a subscriber set (`GetOrAdd`) and the player is added to it. */
  method SubscribeSquare(subs: map<ChunkKey, set<ClientId>>, p: ClientId, c: ChunkKey)
    returns (r: map<ChunkKey, set<ClientId>>)
    ensures forall k :: k in r <==> k in subs || InView(k, c)
    ensures forall k :: k in r ==> r[k] == (if k in subs then subs[k] else {}) + (if InView(k, c) then {p} else {})
  {
    r := subs;
    for cx := c.0 - ViewDistance to c.0 + ViewDistance + 1
      invariant forall k :: k in r <==> k in subs || (InView(k, c) && k.0 < cx)
      invariant forall k :: k in r ==>
                  r[k] == (if k in subs then subs[k] else {}) + (if InView(k, c) && k.0 < cx then {p} else {})
    {
      r := SubscribeRow(r, subs, p, c, cx);
    }
  }

  /** The inner loop: row cx of the square. */
  method SubscribeRow(m: map<ChunkKey, set<ClientId>>, ghost subs: map<ChunkKey, set<ClientId>>,
                      p: ClientId, c: ChunkKey, cx: int)
    returns (r: map<ChunkKey, set<ClientId>>)
    requires c.0 - ViewDistance <= cx <= c.0 + ViewDistance
    requires forall k :: k in m <==> k in subs || (InView(k, c) && k.0 < cx)
    requires forall k :: k in m ==>
               m[k] == (if k in subs then subs[k] else {}) + (if InView(k, c) && k.0 < cx then {p} else {})
    ensures forall k :: k in r <==> k in subs || (InView(k, c) && k.0 <= cx)
    ensures forall k :: k in r ==>
              r[k] == (if k in subs then subs[k] else {}) + (if InView(k, c) && k.0 <= cx then {p} else {})
  {
    r := m;
    for cz := c.1 - ViewDistance to c.1 + ViewDistance + 1
      invariant forall k :: k in r <==>
                  k in subs || (InView(k, c) && (k.0 < cx || (k.0 == cx && k.1 < cz)))
      invariant forall k :: k in r ==>
                  r[k] == (if k in subs then subs[k] else {})
                          + (if InView(k, c) && (k.0 < cx || (k.0 == cx && k.1 < cz)) then {p} else {})
    {
      var set_ := if (cx, cz) in r then r[(cx, cz)] else {};
      r := r[(cx, cz) := set_ + {p}];
    }
  }

  /** The second loop: the player leaves every subscriber set outside the
      square that held it, and those chunks are the ones to unload. */
  method UnsubscribeOutside(subs: map<ChunkKey, set<ClientId>>, p: ClientId, c: ChunkKey)
    returns (r: map<ChunkKey, set<ClientId>>, unloads: set<ChunkKey>)
    ensures r.Keys == subs.Keys
    ensures forall k :: k in r ==> r[k] == (if InView(k, c) then subs[k] else subs[k] - {p})
    ensures unloads == set k | k in subs && !InView(k, c) && p in subs[k]
  {
    r := subs;
    unloads := {};
    var keys := subs.Keys;
    while keys != {}
      invariant keys <= subs.Keys && r.Keys == subs.Keys
      invariant forall k :: k in r ==>
                  r[k] == (if k in keys || InView(k, c) then subs[k] else subs[k] - {p})
      invariant forall k :: k in unloads <==> k in subs && k !in keys && !InView(k, c) && p in subs[k]
      decreases |keys|
    {
      var k :| k in keys;
      if !InView(k, c) && p in r[k] {
        r := r[k := r[k] - {p}];
        unloads := unloads + {k};
      }
      keys := keys - {k};
    }
  }

  // ---------------------------------------------------------------------------
  // Loading chunks for a player
  // ---------------------------------------------------------------------------

  /** A .NET array is shorter than 2^31, so a compressed chunk is too. */
  ghost predicate Bounded(zlib: Bytes -> Bytes) {
    forall b: Bytes :: |zlib(b)| < 0x8000_0000
  }

  predicate IsInt32Key(k: ChunkKey) {
    -0x8000_0000 <= k.0 < 0x8000_0000 && -0x8000_0000 <= k.1 < 0x8000_0000
  }

  datatype Loaded = Loaded(world: World, sent: seq<Message>)

  /** Whether a chunk that has no data yet can be generated. */
  predicate Fits(zlib: Bytes -> Bytes) {
    |FlatChunk(zlib)| <= TotalChunkSize
  }

  /** What `LoadChunkForPlayer` does to the world: the chunk's blob, found or
      generated, is stored and its access time set to `now`; when generation
      throws, nothing changes. */
  function Touch(w: World, k: ChunkKey, now: int, zlib: Bytes -> Bytes): (r: World)
    requires Valid(w)
    ensures Valid(r) && r.subscribers == w.subscribers
    ensures forall j :: j in r.blockData <==> j in w.blockData || (j == k && Fits(zlib))
    ensures forall j :: j in w.blockData ==> r.blockData[j] == w.blockData[j]
    ensures k in r.blockData && k !in w.blockData ==> Some(r.blockData[k]) == GenerateChunkData(zlib)
    ensures forall j :: j in r.lastAccess <==> j in w.lastAccess || (j == k && j in r.blockData)
    ensures forall j :: j in r.lastAccess ==>
              r.lastAccess[j] == (if j == k && j in r.blockData then now else w.lastAccess[j])
  {
    match ChunkBlob(w, k, zlib)
    case None => w
    case Some(blob) => w.(blockData := w.blockData[k := blob], lastAccess := w.lastAccess[k := now])
  }

  /** `LoadChunkForPlayer`: the pre-chunk with mode 1 goes out first; then,
      unless generation threw (the exception is caught after the pre-chunk
      went out), a chunk packet at height 0 carrying the stored blob
      compressed. */
  function LoadChunkForPlayer(w: World, k: ChunkKey, now: int, zlib: Bytes -> Bytes): (r: Loaded)
    requires Valid(w) && Bounded(zlib) && IsInt32Key(k)
    ensures r.world == Touch(w, k, now, zlib)
    ensures 1 <= |r.sent| <= 2 && r.sent[0] == SendPreChunk(PreChunkPacket(k.0, k.1, true))
    ensures |r.sent| == 2 <==> k in r.world.blockData
    ensures |r.sent| == 2 ==> r.sent[1] == SendMapChunk(NewMapChunk(k.0, 0, k.1, zlib(r.world.blockData[k])))
  {
    var pre := SendPreChunk(PreChunkPacket(k.0, k.1, true));
    var blob := ChunkBlob(w, k, zlib);
    if blob.None? then Loaded(w, [pre])
    else
      var compressed := ChunkGenerator.Compress(zlib, Some(blob.value));
      var w' := w.(blockData := w.blockData[k := blob.value], lastAccess := w.lastAccess[k := now]);
      Loaded(w', [pre, SendMapChunk(NewMapChunk(k.0, 0, k.1, compressed.value))])
  }

  /** The world after touching each listed chunk in turn. */
  function TouchAll(w: World, keys: seq<ChunkKey>, now: int, zlib: Bytes -> Bytes): (r: World)
    requires Valid(w)
    ensures Valid(r) && r.subscribers == w.subscribers
    decreases |keys|
  {
    if |keys| == 0 then w else TouchAll(Touch(w, keys[0], now, zlib), keys[1..], now, zlib)
  }

  /** The third loop of `UpdatePlayerPosition`: `LoadChunkForPlayer` for each
      chunk in turn. */
  function LoadAll(w: World, keys: seq<ChunkKey>, now: int, zlib: Bytes -> Bytes): (r: Loaded)
    requires Valid(w) && Bounded(zlib)
    requires forall i :: 0 <= i < |keys| ==> IsInt32Key(keys[i])
    ensures r.world == TouchAll(w, keys, now, zlib)
    decreases |keys|
  {
    if |keys| == 0 then Loaded(w, [])
    else
      var first := LoadChunkForPlayer(w, keys[0], now, zlib);
      var rest := LoadAll(first.world, keys[1..], now, zlib);
      Loaded(rest.world, first.sent + rest.sent)
  }

  /** Loading keeps every blob there was and adds the generated blob for
      each listed chunk that had none, when it fits; nothing unlisted is
      added. */
  lemma {:induction false} TouchAllBlobs(w: World, keys: seq<ChunkKey>, now: int, zlib: Bytes -> Bytes)
    requires Valid(w)
    ensures var r := TouchAll(w, keys, now, zlib);
            && (forall k :: k in r.blockData <==> k in w.blockData || (k in keys && Fits(zlib)))
            && (forall k :: k in w.blockData ==> r.blockData[k] == w.blockData[k])
            && (forall k :: k in r.blockData && k !in w.blockData ==>
                  Some(r.blockData[k]) == GenerateChunkData(zlib))
    decreases |keys|
  {
    if |keys| > 0 {
      var first := Touch(w, keys[0], now, zlib);
      TouchAllBlobs(first, keys[1..], now, zlib);
      assert forall k :: k in keys <==> k == keys[0] || k in keys[1..];
    }
  }

  /** Loading stamps `now` on each listed chunk that ends up with data and
      leaves every other access time as it was. */
  lemma {:induction false} TouchAllStamps(w: World, keys: seq<ChunkKey>, now: int, zlib: Bytes -> Bytes)
    requires Valid(w)
    ensures var r := TouchAll(w, keys, now, zlib);
            && (forall k :: k in r.lastAccess <==> k in w.lastAccess || (k in keys && k in r.blockData))
            && (forall k :: k in r.lastAccess ==>
                  r.lastAccess[k] == (if k in keys && k in r.blockData then now else w.lastAccess[k]))
    decreases |keys|
  {
    if |keys| > 0 {
      var first := Touch(w, keys[0], now, zlib);
      TouchAllStamps(first, keys[1..], now, zlib);
      TouchAllBlobs(first, keys[1..], now, zlib);
      assert forall k :: k in keys <==> k == keys[0] || k in keys[1..];
    }
  }

  /** The two packets loading sends for chunk k with blob `blob`. */
  predicate SentChunk(sent: seq<Message>, i: nat, k: ChunkKey, blob: Bytes, zlib: Bytes -> Bytes) {
    IsInt32Key(k) && |zlib(blob)| < 0x8000_0000
    && 2 * i + 1 < |sent|
    && sent[2 * i] == SendPreChunk(PreChunkPacket(k.0, k.1, true))
    && sent[2 * i + 1] == SendMapChunk(NewMapChunk(k.0, 0, k.1, zlib(blob)))
  }

  /** Two packets per listed chunk, in list order, each chunk's packets
      carrying the blob it has in `blobs`. */
  predicate SentAll(sent: seq<Message>, keys: seq<ChunkKey>, blobs: map<ChunkKey, Bytes>, zlib: Bytes -> Bytes) {
    && |sent| == 2 * |keys|
    && forall i :: 0 <= i < |keys| ==> keys[i] in blobs && SentChunk(sent, i, keys[i], blobs[keys[i]], zlib)
  }

  /** When the generator's output fits, loading sends two packets per listed
      chunk: its pre-chunk with mode 1, then its compressed data at height 0. */
  lemma {:induction false} LoadAllSent(w: World, keys: seq<ChunkKey>, now: int, zlib: Bytes -> Bytes)
    requires Valid(w) && Bounded(zlib) && Fits(zlib)
    requires forall i :: 0 <= i < |keys| ==> IsInt32Key(keys[i])
    ensures var r := LoadAll(w, keys, now, zlib); SentAll(r.sent, keys, r.world.blockData, zlib)
    decreases |keys|
  {
    if |keys| > 0 {
      var first := LoadChunkForPlayer(w, keys[0], now, zlib);
      var rest := LoadAll(first.world, keys[1..], now, zlib);
      LoadAllSent(first.world, keys[1..], now, zlib);
      FirstChunkSent(w, keys, now, zlib);
      SentCons(first.sent, rest.sent, keys, rest.world.blockData, zlib);
    }
  }

  /** The first listed chunk's packets lead, and they carry the blob the
      chunk still has once the whole list is loaded. */
  lemma FirstChunkSent(w: World, keys: seq<ChunkKey>, now: int, zlib: Bytes -> Bytes)
    requires Valid(w) && Bounded(zlib) && Fits(zlib) && |keys| > 0
    requires forall i :: 0 <= i < |keys| ==> IsInt32Key(keys[i])
    ensures var first := LoadChunkForPlayer(w, keys[0], now, zlib);
            var rest := LoadAll(first.world, keys[1..], now, zlib);
            var r := LoadAll(w, keys, now, zlib);
            && r == Loaded(rest.world, first.sent + rest.sent)
            && keys[0] in r.world.blockData
            && SentChunk(first.sent, 0, keys[0], r.world.blockData[keys[0]], zlib)
  {
    var first := LoadChunkForPlayer(w, keys[0], now, zlib);
    TouchAllBlobs(first.world, keys[1..], now, zlib);
  }

  /** Two packets for the first chunk followed by two per remaining chunk are
      two per chunk. */
  lemma SentCons(head: seq<Message>, tail: seq<Message>, keys: seq<ChunkKey>, blobs: map<ChunkKey, Bytes>,
                 zlib: Bytes -> Bytes)
    requires |keys| > 0 && |head| == 2
    requires keys[0] in blobs && SentChunk(head, 0, keys[0], blobs[keys[0]], zlib)
    requires SentAll(tail, keys[1..], blobs, zlib)
    ensures SentAll(head + tail, keys, blobs, zlib)
  {
    forall i | 1 <= i < |keys|
      ensures keys[i] in blobs && SentChunk(head + tail, i, keys[i], blobs[keys[i]], zlib)
    {
      assert keys[1..][i - 1] == keys[i];
      SentShift(head, tail, i - 1, keys[i], blobs[keys[i]], zlib);
    }
    assert SentChunk(head + tail, 0, keys[0], blobs[keys[0]], zlib);
  }

  lemma SentShift(head: seq<Message>, tail: seq<Message>, i: nat, k: ChunkKey, blob: Bytes, zlib: Bytes -> Bytes)
    requires |head| == 2 && SentChunk(tail, i, k, blob, zlib)
    ensures SentChunk(head + tail, i + 1, k, blob, zlib)
  {
  }

  /** The chunk holding the block column (floorX, floorZ); its coordinates
      are far enough inside `int` that the whole square around it is. */
  function PlayerChunk(floorX: Int32, floorZ: Int32): (c: ChunkKey)
    ensures c == (ChunkCoord(floorX), ChunkCoord(floorZ))
    ensures -0x0800_0000 <= c.0 < 0x0800_0000 && -0x0800_0000 <= c.1 < 0x0800_0000
  {
    CoordinateSplit(floorX);
    CoordinateSplit(floorZ);
    (ChunkCoord(floorX), ChunkCoord(floorZ))
  }

  /** Subscriptions after the player moved to chunk c: the player is in the
      subscriber set of exactly the chunks of the square around c, every
      chunk of the square has a subscriber set, no other client's
      subscriptions change, and `unloads` holds the chunks outside the square
      whose set held the player. */
  ghost predicate Resubscribed(before: map<ChunkKey, set<ClientId>>, after: map<ChunkKey, set<ClientId>>,
                         p: ClientId, c: ChunkKey, unloads: set<ChunkKey>)
  {
    && (forall k :: k in after <==> k in before || InView(k, c))
    && (forall k :: k in after ==> (p in after[k] <==> InView(k, c)))
    && (forall k, id :: k in after && id != p ==> (id in after[k] <==> k in before && id in before[k]))
    && unloads == set k | k in before && !InView(k, c) && p in before[k]
  }

  /** Block data and access times after the square around c was loaded: the
      chunks of the square gain the generated blob when they had none (and
      it fits), no blob changes, and the chunks of the square that have data
      carry the access time `now`; outside the square the access times stay. */
  ghost predicate LoadedSquare(before: World, after: World, c: ChunkKey, now: int, zlib: Bytes -> Bytes) {
    && (forall k :: k in after.blockData <==> k in before.blockData || (InView(k, c) && Fits(zlib)))
    && (forall k :: k in before.blockData ==> after.blockData[k] == before.blockData[k])
    && (forall k :: k in after.blockData && k !in before.blockData ==>
          Some(after.blockData[k]) == GenerateChunkData(zlib))
    && (forall k :: InView(k, c) && k in after.blockData ==> k in after.lastAccess && after.lastAccess[k] == now)
    && (forall k :: !InView(k, c) ==> (k in after.lastAccess <==> k in before.lastAccess))
    && (forall k :: !InView(k, c) && k in before.lastAccess ==> after.lastAccess[k] == before.lastAccess[k])
  }

  /** The packets loading the square sends when the generator's output fits:
      a pre-chunk with mode 1 and a chunk packet carrying the compressed blob
      for each of the 121 chunks, in loop order. */
  predicate SentSquare(sent: seq<Message>, after: World, c: ChunkKey, zlib: Bytes -> Bytes) {
    SentAll(sent, ViewOrder(c), after.blockData, zlib)
  }

  /** The first two loops of `UpdatePlayerPosition`. */
  method Resubscribe(subs: map<ChunkKey, set<ClientId>>, p: ClientId, c: ChunkKey)
    returns (r: map<ChunkKey, set<ClientId>>, unloads: set<ChunkKey>)
    ensures Resubscribed(subs, r, p, c, unloads)
  {
    var square := SubscribeSquare(subs, p, c);
    r, unloads := UnsubscribeOutside(square, p, c);
    assert forall k :: k in square && !InView(k, c) ==> k in subs && square[k] == subs[k];
    assert unloads == set k | k in subs && !InView(k, c) && p in subs[k];
  }

  /** `UpdatePlayerPosition`, given `(int)Math.Floor` of the player's x and
      z. The subscriptions move to the square around the player's chunk; the
      chunks it left are returned, and each gets a pre-chunk with mode 0
      after the loads, in the dictionary's order. Every chunk of the square
      is loaded for the player, including those it was already subscribed
      to. */
  method UpdatePlayerPosition(w: World, p: ClientId, floorX: Int32, floorZ: Int32, now: int,
                              zlib: Bytes -> Bytes)
    returns (r: World, sent: seq<Message>, unloads: set<ChunkKey>)
    requires Valid(w) && Bounded(zlib)
    ensures Valid(r)
    ensures Resubscribed(w.subscribers, r.subscribers, p, PlayerChunk(floorX, floorZ), unloads)
    ensures LoadedSquare(w, r, PlayerChunk(floorX, floorZ), now, zlib)
    ensures Fits(zlib) ==> SentSquare(sent, r, PlayerChunk(floorX, floorZ), zlib)
  {
    var c := PlayerChunk(floorX, floorZ);
    var subs;
    subs, unloads := Resubscribe(w.subscribers, p, c);
    var start := w.(subscribers := subs);
    var loaded := LoadSquare(start, c, now, zlib);
    LoadSquareData(start, c, now, zlib);
    assert LoadedSquare(w, loaded.world, c, now, zlib);
    if Fits(zlib) {
      LoadSquareSent(start, c, now, zlib);
    }
    r := loaded.world;
    sent := loaded.sent;
  }

  /** The chunks of the square around c loaded in loop order. */
  function LoadSquare(w: World, c: ChunkKey, now: int, zlib: Bytes -> Bytes): (r: Loaded)
    requires Valid(w) && Bounded(zlib)
    requires -0x0800_0000 <= c.0 < 0x0800_0000 && -0x0800_0000 <= c.1 < 0x0800_0000
    ensures Valid(r.world) && r.world.subscribers == w.subscribers
  {
    LoadAll(w, ViewOrder(c), now, zlib)
  }

  /** Loading the square adds data for its chunks (when it fits), keeps all
      other data, and stamps `now` on exactly the chunks of the square that
      have data. */
  lemma LoadSquareData(w: World, c: ChunkKey, now: int, zlib: Bytes -> Bytes)
    requires Valid(w) && Bounded(zlib)
    requires -0x0800_0000 <= c.0 < 0x0800_0000 && -0x0800_0000 <= c.1 < 0x0800_0000
    ensures LoadedSquare(w, LoadSquare(w, c, now, zlib).world, c, now, zlib)
  {
    var order := ViewOrder(c);
    ViewOrderCoversSquare(c);
    assert forall k :: k in order <==> InView(k, c);
    TouchAllBlobs(w, order, now, zlib);
    TouchAllStamps(w, order, now, zlib);
  }

  /** When the generator's output fits, loading the square sends a pre-chunk
      and a chunk packet for each of its 121 chunks, in loop order. */
  lemma LoadSquareSent(w: World, c: ChunkKey, now: int, zlib: Bytes -> Bytes)
    requires Valid(w) && Bounded(zlib) && Fits(zlib)
    requires -0x0800_0000 <= c.0 < 0x0800_0000 && -0x0800_0000 <= c.1 < 0x0800_0000
    ensures var r := LoadSquare(w, c, now, zlib); SentSquare(r.sent, r.world, c, zlib)
  {
    LoadAllSent(w, ViewOrder(c), now, zlib);
  }

  // ---------------------------------------------------------------------------
  // The cleanup sweep and client removal
  // ---------------------------------------------------------------------------

  /** A chunk the sweep removes: last accessed more than 30 seconds before
      `now`, with a subscriber entry that is empty. */
  predicate Sweepable(w: World, k: ChunkKey, now: int) {
    k in w.lastAccess && now - w.lastAccess[k] > UnloadDelay * TicksPerSecond
    && k in w.subscribers && w.subscribers[k] == {}
  }

  /** One pass of `ChunkCleanupLoop`: the data, access time and subscriber
      entry of each sweepable chunk go together; everything else stays. */
  function Sweep(w: World, now: int): (r: World)
    ensures forall k :: k in r.blockData <==> k in w.blockData && !Sweepable(w, k, now)
    ensures forall k :: k in r.lastAccess <==> k in w.lastAccess && !Sweepable(w, k, now)
    ensures forall k :: k in r.subscribers <==> k in w.subscribers && !Sweepable(w, k, now)
    ensures forall k :: k in r.blockData ==> r.blockData[k] == w.blockData[k]
    ensures forall k :: k in r.lastAccess ==> r.lastAccess[k] == w.lastAccess[k]
    ensures forall k :: k in r.subscribers ==> r.subscribers[k] == w.subscribers[k]
  {
    World(
      map k | k in w.subscribers && !Sweepable(w, k, now) :: w.subscribers[k],
      map k | k in w.blockData && !Sweepable(w, k, now) :: w.blockData[k],
      map k | k in w.lastAccess && !Sweepable(w, k, now) :: w.lastAccess[k])
  }

  /** The loop as the source runs it: over a snapshot of the access times,
      removing each expired chunk whose subscriber entry exists and is empty.
      Removing one chunk never changes whether another is removed. */
  method SweepLoop(w: World, now: int) returns (r: World)
    ensures r == Sweep(w, now)
  {
    r := w;
    var pending := w.lastAccess.Keys;
    while pending != {}
      invariant pending <= w.lastAccess.Keys
      invariant SweptBut(r, w, now, pending)
      decreases |pending|
    {
      var k :| k in pending;
      var r' := r;
      if now - w.lastAccess[k] > UnloadDelay * TicksPerSecond && k in r.subscribers && |r.subscribers[k]| == 0 {
        r' := World(r.subscribers - {k}, r.blockData - {k}, r.lastAccess - {k});
      }
      SweepStep(r, r', w, now, pending, k);
      r := r';
      pending := pending - {k};
    }
    SweptAll(r, w, now);
  }

  /** The loop invariant: the chunks already visited are swept, the pending
      ones untouched. */
  ghost predicate SweptBut(r: World, w: World, now: int, pending: set<ChunkKey>) {
    && (forall k :: k in r.blockData <==> k in w.blockData && !(Sweepable(w, k, now) && k !in pending))
    && (forall k :: k in r.lastAccess <==> k in w.lastAccess && !(Sweepable(w, k, now) && k !in pending))
    && (forall k :: k in r.subscribers <==> k in w.subscribers && !(Sweepable(w, k, now) && k !in pending))
    && (forall k :: k in r.blockData ==> r.blockData[k] == w.blockData[k])
    && (forall k :: k in r.lastAccess ==> r.lastAccess[k] == w.lastAccess[k])
    && (forall k :: k in r.subscribers ==> r.subscribers[k] == w.subscribers[k])
  }

  /** Visiting one pending chunk, removing it exactly when it is sweepable. */
  lemma SweepStep(r: World, r': World, w: World, now: int, pending: set<ChunkKey>, k: ChunkKey)
    requires pending <= w.lastAccess.Keys && k in pending && SweptBut(r, w, now, pending)
    requires r' == (if now - w.lastAccess[k] > UnloadDelay * TicksPerSecond
                       && k in r.subscribers && |r.subscribers[k]| == 0
                    then World(r.subscribers - {k}, r.blockData - {k}, r.lastAccess - {k})
                    else r)
    ensures SweptBut(r', w, now, pending - {k})
  {
    assert k in r.subscribers ==> (|r.subscribers[k]| == 0 <==> w.subscribers[k] == {});
  }

  /** With nothing pending, the loop has computed the sweep. */
  lemma SweptAll(r: World, w: World, now: int)
    requires SweptBut(r, w, now, {})
    ensures r == Sweep(w, now)
  {
    assert r.subscribers == Sweep(w, now).subscribers;
    assert r.blockData == Sweep(w, now).blockData;
    assert r.lastAccess == Sweep(w, now).lastAccess;
  }

  /** A second sweep at the same time removes nothing more. */
  lemma SweepIdempotent(w: World, now: int)
    ensures Sweep(Sweep(w, now), now) == Sweep(w, now)
  {
    var s := Sweep(w, now);
    forall k | k in s.lastAccess
      ensures !Sweepable(s, k, now)
    {
    }
    assert Sweep(s, now).subscribers == s.subscribers;
    assert Sweep(s, now).blockData == s.blockData;
    assert Sweep(s, now).lastAccess == s.lastAccess;
  }

  /** `RemovePlayer`: the client leaves every subscriber set; the sets of
      other clients, the keys, the block data and the access times stay. */
  function RemovePlayer(w: World, id: ClientId): (r: World)
    ensures r.blockData == w.blockData && r.lastAccess == w.lastAccess
    ensures r.subscribers.Keys == w.subscribers.Keys
    ensures forall k :: k in r.subscribers ==> id !in r.subscribers[k]
    ensures forall k, other :: k in r.subscribers && other != id ==>
              (other in r.subscribers[k] <==> other in w.subscribers[k])
  {
    w.(subscribers := map k | k in w.subscribers :: w.subscribers[k] - {id})
  }

  /** A removed client gets no block changes, whoever else still does. */
  lemma RemovedGetsNoBlockChanges(w: World, id: ClientId, x: Int32, y: byte, z: Int32,
                                  blockType: byte, metadata: byte, connected: set<ClientId>)
    ensures id !in NotifyBlockChange(RemovePlayer(w, id), x, y, z, blockType, metadata, connected).recipients
    ensures forall other :: other != id ==>
              (other in NotifyBlockChange(RemovePlayer(w, id), x, y, z, blockType, metadata, connected).recipients
               <==> other in NotifyBlockChange(w, x, y, z, blockType, metadata, connected).recipients)
  {
  }

  /** When no subscribed id is a key of the connected-client registry, no
      block change reaches anyone, whatever the world and the block. */
  lemma UnregisteredGetsNoBlockChanges(w: World, x: Int32, y: byte, z: Int32,
                                       blockType: byte, metadata: byte, connected: set<ClientId>)
    requires forall k, id :: k in w.subscribers && id in w.subscribers[k] ==> id !in connected
    ensures NotifyBlockChange(w, x, y, z, blockType, metadata, connected).recipients == {}
  {
    var r := NotifyBlockChange(w, x, y, z, blockType, metadata, connected).recipients;
    if id :| id in r {
      assert id in w.subscribers[(ChunkCoord(x), ChunkCoord(z))];
    }
  }

  /** Once its last subscriber is removed and 30 seconds have passed since
      its last access, a chunk is swept. */
  lemma LastSubscriberLeaves(w: World, id: ClientId, k: ChunkKey, now: int)
    requires k in w.subscribers && w.subscribers[k] <= {id}
    requires k in w.lastAccess && now - w.lastAccess[k] > UnloadDelay * TicksPerSecond
    ensures k !in Sweep(RemovePlayer(w, id), now).blockData
    ensures k !in Sweep(RemovePlayer(w, id), now).subscribers
  {
    var r := RemovePlayer(w, id);
    assert r.subscribers[k] == {};
  }
}
