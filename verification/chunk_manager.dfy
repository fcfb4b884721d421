/** The table of pre-built spawn chunks the session consults: chunk data
    packets keyed by chunk coordinate. */
module ChunkManager {
  import opened Binary
  import opened WorldPackets
  import opened Outbound

  type ChunkKey = (int, int)

  /** `loadedChunks`. */
  datatype Manager = Manager(loaded: map<ChunkKey, MapChunkPacket>)

  const Empty := Manager(map[])

  /** The 3×3 block of chunks around (cx, cz). */
  predicate InSpawnSquare(k: ChunkKey, cx: int, cz: int) {
    cx - 1 <= k.0 <= cx + 1 && cz - 1 <= k.1 <= cz + 1
  }

  /** What the constructor makes for chunk k at height 0 from `data`: the
      fields of `NewMapChunk(k.0, 0, k.1, data)`. */
  predicate IsSpawnChunk(p: MapChunkPacket, k: ChunkKey, data: Bytes) {
    p.xPosition == k.0 && p.yPosition == 0 && p.zPosition == k.1
    && p.xSize == 16 && p.ySize == 128 && p.zSize == 16
    && p.chunk == data && p.chunkSize == |data|
  }

  /** `IsSpawnChunk` says exactly "made by the constructor". */
  lemma SpawnChunkIsConstructed(p: MapChunkPacket, x: Int32, z: Int32, data: Bytes)
    requires |data| < 0x8000_0000
    ensures IsSpawnChunk(p, (x, z), data) <==> p == NewMapChunk(x, 0, z, data)
  {
  }

  /** `LoadSpawnChunks`: every chunk of the 3×3 block is present afterwards
      and nothing else is added; chunks already present are kept as they are,
      and a chunk it adds is a data packet for its own coordinates at height
      0 carrying `data`, the generator's (deterministic) output. The bounds
      keep cx - 1 and cz - 1 inside `int`, and keep cx + 1 and cz + 1 below
      `int.MaxValue`: at a centre of 2^31 - 2 the loop test `<= centre + 1`
      holds for every `int`, so the counter wraps and the loop never ends. */
  method LoadSpawnChunks(m: Manager, cx: Int32, cz: Int32, data: Bytes) returns (r: Manager)
    requires -0x8000_0000 < cx < 0x7FFF_FFFE && -0x8000_0000 < cz < 0x7FFF_FFFE
    requires |data| < 0x8000_0000
    ensures forall k :: k in r.loaded <==> k in m.loaded || InSpawnSquare(k, cx, cz)
    ensures forall k :: k in m.loaded ==> r.loaded[k] == m.loaded[k]
    ensures forall k :: k in r.loaded && k !in m.loaded ==> IsSpawnChunk(r.loaded[k], k, data)
  {
    r := m;
    for x := cx - 1 to cx + 2
      invariant forall k :: k in r.loaded <==> k in m.loaded || (InSpawnSquare(k, cx, cz) && k.0 < x)
      invariant forall k :: k in m.loaded ==> r.loaded[k] == m.loaded[k]
      invariant forall k :: k in r.loaded && k !in m.loaded ==> IsSpawnChunk(r.loaded[k], k, data)
    {
      for z := cz - 1 to cz + 2
        invariant forall k :: k in r.loaded <==>
                    k in m.loaded || (InSpawnSquare(k, cx, cz) && (k.0 < x || (k.0 == x && k.1 < z)))
        invariant forall k :: k in m.loaded ==> r.loaded[k] == m.loaded[k]
        invariant forall k :: k in r.loaded && k !in m.loaded ==> IsSpawnChunk(r.loaded[k], k, data)
      {
        if (x, z) !in r.loaded {
          r := Manager(r.loaded[(x, z) := NewMapChunk(x, 0, z, data)]);
        }
      }
    }
  }

  /** An enumeration of the table: every key exactly once. The order a .NET
      `Dictionary` enumerates in is not part of its contract, so it is a
      parameter wherever the table is enumerated. */
  predicate IsEnumeration(order: seq<ChunkKey>, m: Manager) {
    (forall i, j :: 0 <= i < j < |order| ==> order[i] != order[j])
    && (forall k :: k in m.loaded ==> k in order)
    && (forall i :: 0 <= i < |order| ==> order[i] in m.loaded)
  }

  /** The two packets that announce one chunk: a pre-chunk with mode 1 for its
      coordinates, then the chunk itself. */
  function Announce(chunks: seq<MapChunkPacket>): (r: seq<Message>)
    ensures |r| == 2 * |chunks|
    ensures forall i :: 0 <= i < |chunks| ==>
              r[2 * i] == SendPreChunk(PreChunkPacket(chunks[i].xPosition, chunks[i].zPosition, true))
              && r[2 * i + 1] == SendMapChunk(chunks[i])
  {
    if |chunks| == 0 then []
    else
      var c := chunks[0];
      var tail := Announce(chunks[1..]);
      assert forall i :: 1 <= i < |chunks| ==> chunks[1..][i - 1] == chunks[i];
      [SendPreChunk(PreChunkPacket(c.xPosition, c.zPosition, true)), SendMapChunk(c)] + tail
  }

  /** `SendAllChunksToPlayer`: two packets per loaded chunk, the pre-chunk
      immediately followed by the chunk, chunk by chunk in enumeration
      order. */
  function SendAllChunksToPlayer(m: Manager, order: seq<ChunkKey>): (r: seq<Message>)
    requires IsEnumeration(order, m)
    ensures |r| == 2 * |order| == 2 * |m.loaded|
    ensures forall i :: 0 <= i < |order| ==>
              var c := m.loaded[order[i]];
              r[2 * i] == SendPreChunk(PreChunkPacket(c.xPosition, c.zPosition, true))
              && r[2 * i + 1] == SendMapChunk(c)
  {
    EnumerationCount(order, m);
    Announce(seq(|order|, i requires 0 <= i < |order| => m.loaded[order[i]]))
  }

  /** An enumeration has one entry per chunk. */
  lemma EnumerationCount(order: seq<ChunkKey>, m: Manager)
    requires IsEnumeration(order, m)
    ensures |m.loaded| == |order|
  {
    var keys := set i | 0 <= i < |order| :: order[i];
    assert keys == m.loaded.Keys;
    DistinctCount(order);
  }

  lemma {:induction false} DistinctCount(s: seq<ChunkKey>)
    requires forall i, j :: 0 <= i < j < |s| ==> s[i] != s[j]
    ensures |set i | 0 <= i < |s| :: s[i]| == |s|
  {
    if |s| > 0 {
      var init := s[..|s| - 1];
      DistinctCount(init);
      var a := set i | 0 <= i < |init| :: init[i];
      var b := set i | 0 <= i < |s| :: s[i];
      assert b == a + {s[|s| - 1]};
      assert s[|s| - 1] !in a;
    }
  }

  /** `GetChunk`: the stored packet, or null when the key is absent. */
  function GetChunk(m: Manager, x: int, z: int): (r: Option<MapChunkPacket>)
    ensures r.Some? <==> (x, z) in m.loaded
    ensures r.Some? ==> r.value == m.loaded[(x, z)]
  {
    if (x, z) in m.loaded then Some(m.loaded[(x, z)]) else None
  }

  /** `UnloadChunk`: the key is gone afterwards, every other entry stays, and
      an absent key leaves the table as it was. */
  function UnloadChunk(m: Manager, x: int, z: int): (r: Manager)
    ensures (x, z) !in r.loaded
    ensures forall k :: k != (x, z) ==> (k in r.loaded <==> k in m.loaded)
    ensures forall k :: k in r.loaded ==> r.loaded[k] == m.loaded[k]
    ensures (x, z) !in m.loaded ==> r == m
  {
    if (x, z) in m.loaded then Manager(m.loaded - {(x, z)}) else m
  }

  /** A chunk looked up after being unloaded is absent; other lookups see
      what they saw before. */
  lemma UnloadThenGet(m: Manager, x: int, z: int, a: int, b: int)
    ensures GetChunk(UnloadChunk(m, x, z), x, z).None?
    ensures (a, b) != (x, z) ==> GetChunk(UnloadChunk(m, x, z), a, b) == GetChunk(m, a, b)
  {
  }

  const SpawnKeys: set<ChunkKey> :=
    {(-1, -1), (-1, 0), (-1, 1), (0, -1), (0, 0), (0, 1), (1, -1), (1, 0), (1, 1)}

  lemma SpawnSquare()
    ensures forall k :: k in SpawnKeys <==> InSpawnSquare(k, 0, 0)
    ensures |SpawnKeys| == 9
  {
  }

  /** The server's start-up: the 3×3 block around chunk (0, 0), nine chunks
      in all, each a data packet for its own coordinates at height 0. */
  method Startup(data: Bytes) returns (m: Manager)
    requires |data| < 0x8000_0000
    ensures m.loaded.Keys == SpawnKeys && |m.loaded| == 9
    ensures forall k :: k in m.loaded ==> IsSpawnChunk(m.loaded[k], k, data)
  {
    m := LoadSpawnChunks(Empty, 0, 0, data);
    SpawnSquare();
    assert m.loaded.Keys == SpawnKeys;
  }
}
