/**
  Compositing one chunk into the world buffers: the checks that decide whether a
  decoded chunk is used, the voxel copy into the rotated terrain buffer, and the
  light byte each voxel produces (torch flood, skylight blend or night copy).
  The folds TerrainUpTo, LightUpTo and FloodUpTo give the buffers after the
  loops of the loader have visited a prefix of the voxels in their order.
 */
module Composite {
  import opened Wrappers
  import opened World

  /** Block id of a torch, the only light emitter underground mode knows. */
  const TORCH: bv8 := 50

  /** Why a chunk file is skipped. */
  datatype Reject =
    | Unreadable       // the file is missing or is not NBT
    | NoLevel          // no "Level" compound
    | NoPosition       // "xPos" or "zPos" missing
    | OutOfBounds      // the declared position lies outside the scanned bounds
    | ShortBlocks      // "Blocks" missing or shorter than 32768 bytes
    | ShortBlockLight  // "BlockLight" needed but missing or shorter than 16384 bytes
    | ShortSkyLight    // "SkyLight" needed but missing or shorter than 16384 bytes

  /** An accepted chunk: its declared position and the byte arrays compositing reads. */
  datatype Chunk = Chunk(x: int, z: int, blocks: seq<bv8>, blockLight: seq<bv8>, skyLight: seq<bv8>)

  /** The file parsed and declares both xPos and zPos in its Level compound. */
  predicate Positioned(file: Option<ChunkFile>)
  {
    file.Some? && file.value.level.Some? && file.value.level.value.xPos.Some? && file.value.level.value.zPos.Some?
  }

  predicate Long(a: Option<seq<bv8>>, n: int)
  {
    a.Some? && |a.value| >= n
  }

  /**
    The checks a chunk passes before anything is written, in the order the loader
    makes them; a chunk is accepted exactly when it parses, has a Level with both
    positions, lies inside the bounds and carries every array the modes need at
    its minimum length.
   */
  function CheckChunk(file: Option<ChunkFile>, b: Bounds, m: Modes): (r: Result<Chunk, Reject>)
    ensures r.Ok? <==>
      && file.Some? && file.value.level.Some?
      && var l := file.value.level.value;
      && l.xPos.Some? && l.zPos.Some? && Contains(b, l.xPos.value, l.zPos.value)
      && Long(l.blocks, 32768)
      && (NeedsBlockLight(m) ==> Long(l.blockLight, 16384))
      && (m.skylight ==> Long(l.skyLight, 16384))
    ensures r.Ok? ==>
      && var l := file.value.level.value;
      && r.value.x == l.xPos.value && r.value.z == l.zPos.value
      && r.value.blocks == l.blocks.value
      && (NeedsBlockLight(m) ==> r.value.blockLight == l.blockLight.value)
      && (m.skylight ==> r.value.skyLight == l.skyLight.value)
    ensures r == Err(OutOfBounds) <==>
      Positioned(file) && !Contains(b, file.value.level.value.xPos.value, file.value.level.value.zPos.value)
  {
    if file.None? then Err(Unreadable)
    else if file.value.level.None? then Err(NoLevel)
    else
      var l := file.value.level.value;
      if l.xPos.None? || l.zPos.None? then Err(NoPosition)
      else
        var chunkX, chunkZ := l.xPos.value, l.zPos.value;
        if chunkX < b.fromX || chunkX >= b.toX || chunkZ < b.fromZ || chunkZ >= b.toZ then Err(OutOfBounds)
        else if !Long(l.blocks, 32768) then Err(ShortBlocks)
        else if NeedsBlockLight(m) && !Long(l.blockLight, 16384) then Err(ShortBlockLight)
        else if m.skylight && !Long(l.skyLight, 16384) then Err(ShortSkyLight)
        else
          Ok(Chunk(chunkX, chunkZ, l.blocks.value,
                   if NeedsBlockLight(m) then l.blockLight.value else [],
                   if m.skylight then l.skyLight.value else []))
  }

  /** Horizontal offsets of a chunk in the world buffer. */
  function OffsetX(g: Geometry, b: Bounds, c: Chunk): int
  {
    (c.x - b.fromX) * g.chunkX
  }

  function OffsetZ(g: Geometry, b: Bounds, c: Chunk): int
  {
    (c.z - b.fromZ) * g.chunkZ
  }

  /** A chunk-sized column placed at offsets (ox, oz) lies inside the world buffer. */
  ghost predicate Seated(g: Geometry, ox: int, oz: int)
  {
    && Fits(g)
    && 0 <= ox && ox + g.chunkX <= g.mapX
    && 0 <= oz && oz + g.chunkZ <= g.mapZ
  }

  /** An accepted chunk placed at (ox, oz): seated, with the Blocks array the loader checked for. */
  ghost predicate Placed(g: Geometry, c: Chunk, ox: int, oz: int)
  {
    Seated(g, ox, oz) && |c.blocks| >= 32768
  }

  lemma AcceptedIsPlaced(g: Geometry, m: Modes, b: Bounds, file: Option<ChunkFile>)
    requires Fits(g) && Covers(g, b) && CheckChunk(file, b, m).Ok?
    ensures var c := CheckChunk(file, b, m).value;
      Placed(g, c, OffsetX(g, b, c), OffsetZ(g, b, c))
  {
    var c := CheckChunk(file, b, m).value;
    OffsetInside(b.fromX, c.x, b.toX, g.chunkX, g.mapX);
    OffsetInside(b.fromZ, c.z, b.toZ, g.chunkZ, g.mapZ);
  }

  /** Block id of local voxel (x, y, z) in the chunk's Blocks array. */
  function BlockId(g: Geometry, c: Chunk, x: int, y: int, z: int): bv8
    requires Fits(g) && |c.blocks| >= 32768 && Local(g, x, y, z)
  {
    ChunkOffsetsInRange(g, x, y, z);
    c.blocks[BlockOffset(g, x, y, z)]
  }

  // ---------------------------------------------------------------------------
  // Terrain

  /**
    Loop position (x, z, y) of the chunk walk: x outermost, then z, then y; a
    position names the voxels visited before it.
   */
  predicate Cursor(g: Geometry, x: int, z: int, y: int)
  {
    && 0 <= x <= g.chunkX && 0 <= z <= g.chunkZ && 0 <= y <= g.mapY
    && (y > 0 ==> x < g.chunkX && z < g.chunkZ)
    && (z > 0 ==> x < g.chunkX)
  }

  /** Local voxel (px, py, pz) is visited before loop position (x, z, y). */
  predicate Visited(x: int, z: int, y: int, px: int, py: int, pz: int)
  {
    px < x || (px == x && (pz < z || (pz == z && py < y)))
  }

  /** Terrain after the voxels before (x, z, y) are copied: each voxel's id to its rotated cell. */
  ghost function TerrainUpTo(g: Geometry, c: Chunk, ox: int, oz: int, t: seq<bv8>, x: int, z: int, y: int)
    : (r: seq<bv8>)
    requires Placed(g, c, ox, oz) && |t| == Volume(g) && Cursor(g, x, z, y)
    ensures |r| == |t|
    decreases x, z, y
  {
    if y > 0 then
      TerrainUpTo(g, c, ox, oz, t, x, z, y - 1)[g.blockAt(x + ox, y - 1, z + oz) := BlockId(g, c, x, y - 1, z)]
    else if z > 0 then TerrainUpTo(g, c, ox, oz, t, x, z - 1, g.mapY)
    else if x > 0 then TerrainUpTo(g, c, ox, oz, t, x - 1, g.chunkZ, 0)
    else t
  }

  /** Every voxel visited so far sits in its rotated terrain cell. */
  lemma {:induction false} TerrainUpToWritten(
    g: Geometry, c: Chunk, ox: int, oz: int, t: seq<bv8>, x: int, z: int, y: int,
    px: int, py: int, pz: int)
    requires Placed(g, c, ox, oz) && Injective(g) && |t| == Volume(g) && Cursor(g, x, z, y)
    requires Local(g, px, py, pz) && Visited(x, z, y, px, py, pz)
    ensures TerrainUpTo(g, c, ox, oz, t, x, z, y)[g.blockAt(px + ox, py, pz + oz)] == BlockId(g, c, px, py, pz)
    decreases x, z, y
  {
    if y > 0 {
      var prev := TerrainUpTo(g, c, ox, oz, t, x, z, y - 1);
      var i := g.blockAt(x + ox, y - 1, z + oz);
      assert TerrainUpTo(g, c, ox, oz, t, x, z, y) == prev[i := BlockId(g, c, x, y - 1, z)];
      if !(px == x && py == y - 1 && pz == z) {
        TerrainUpToWritten(g, c, ox, oz, t, x, z, y - 1, px, py, pz);
        BlockCellsDiffer(g, px + ox, py, pz + oz, x + ox, y - 1, z + oz);
      }
    } else if z > 0 {
      TerrainUpToWritten(g, c, ox, oz, t, x, z - 1, g.mapY, px, py, pz);
    } else if x > 0 {
      TerrainUpToWritten(g, c, ox, oz, t, x - 1, g.chunkZ, 0, px, py, pz);
    }
  }

  /** Two voxels of a sound geometry never share a terrain cell. */
  lemma BlockCellsDiffer(g: Geometry, x: int, y: int, z: int, x': int, y': int, z': int)
    requires Injective(g) && InBox(g, x, y, z) && InBox(g, x', y', z') && (x, y, z) != (x', y', z')
    ensures g.blockAt(x, y, z) != g.blockAt(x', y', z')
  {
    assert Apart(g, x, y, z, x', y', z');
  }

  /** A terrain cell no voxel of the chunk maps to keeps its value. */
  lemma {:induction false} TerrainUpToKept(
    g: Geometry, c: Chunk, ox: int, oz: int, t: seq<bv8>, x: int, z: int, y: int, i: int)
    requires Placed(g, c, ox, oz) && |t| == Volume(g) && Cursor(g, x, z, y) && 0 <= i < |t|
    requires forall px, py, pz :: Local(g, px, py, pz) ==> g.blockAt(px + ox, py, pz + oz) != i
    ensures TerrainUpTo(g, c, ox, oz, t, x, z, y)[i] == t[i]
    decreases x, z, y
  {
    if y > 0 {
      TerrainUpToKept(g, c, ox, oz, t, x, z, y - 1, i);
      assert Local(g, x, y - 1, z);
    } else if z > 0 {
      TerrainUpToKept(g, c, ox, oz, t, x, z - 1, g.mapY, i);
    } else if x > 0 {
      TerrainUpToKept(g, c, ox, oz, t, x - 1, g.chunkZ, 0, i);
    }
  }

  // ---------------------------------------------------------------------------
  // Light bytes

  function Clamp(v: int): bv8
  {
    if v < 0 then 0 else if v > 255 then 255 else v as bv8
  }

  function Max8(a: bv8, b: bv8): bv8
  {
    if a > b then a else b
  }

  /** High and low nibble of a byte, as numbers. */
  function Hi(b: bv8): int
  {
    b as int / 16
  }

  function Lo(b: bv8): int
  {
    b as int % 16
  }

  /** A sky light level as the blend uses it: dimmed to max(0, v / 3 - 2) at night. */
  function SkyLevel(v: int, night: bool): int
  {
    if !night then v else if v / 3 - 2 < 0 then 0 else v / 3 - 2
  }

  /**
    Skylight blend of one light byte (two voxels, one per nibble): each nibble of
    the result is the larger of the block-light nibble and the sky-light nibble,
    the sky nibble dimmed first in night mode.
   */
  function Blend(light: bv8, sky: bv8, night: bool): (r: bv8)
    ensures Hi(r) == Max(Hi(light), SkyLevel(Hi(sky), night))
    ensures Lo(r) == Max(Lo(light), SkyLevel(Lo(sky), night))
  {
    var highlight, lowlight := HighNibble(light), LowNibble(light);
    var highsky, lowsky := HighNibble(sky), LowNibble(sky);
    NibbleBlend(highlight, highsky, night);
    NibbleBlend(lowlight, lowsky, night);
    Pack(Max8(highlight, Dim(highsky, night)), Max8(lowlight, Dim(lowsky, night)))
  }

  /** A sky nibble as the night blend dims it: clamp(v / 3 - 2). */
  function Dim(v: bv8, night: bool): bv8
  {
    if night then Clamp(v as int / 3 - 2) else v
  }

  /** Blending one light nibble with one sky nibble gives a nibble: the larger of the two levels. */
  lemma NibbleBlend(light: bv8, sky: bv8, night: bool)
    requires light < 16 && sky < 16
    ensures Max8(light, Dim(sky, night)) < 16
    ensures Max8(light, Dim(sky, night)) as int == Max(light as int, SkyLevel(sky as int, night))
  {
    var d := Dim(sky, night);
    assert d as int == SkyLevel(sky as int, night);
    assert d < 16;
  }

  function Max(a: int, b: int): int
  {
    if a > b then a else b
  }

  function Min(a: int, b: int): int
  {
    if a < b then a else b
  }

  /** The high nibble of a byte, shifted down. */
  function HighNibble(b: bv8): (r: bv8)
    ensures r < 16 && r as int == Hi(b)
  {
    (b >> 4) & 0x0F
  }

  /** The low nibble of a byte. */
  function LowNibble(b: bv8): (r: bv8)
    ensures r < 16 && r as int == Lo(b)
  {
    b & 0x0F
  }

  /** The byte with nibbles h (high) and l (low): the inverse of HighNibble and LowNibble. */
  function Pack(h: bv8, l: bv8): (r: bv8)
    requires h < 16 && l < 16
    ensures Hi(r) == h as int && Lo(r) == l as int
  {
    (h << 4) | (l & 0x0F)
  }

  /** The blend on the two nibble pairs 0x3/0xC: sky wins by day, block light at night. */
  lemma BlendExample()
    ensures Blend(0x33, 0xCC, false) == 0xCC
    ensures Blend(0x33, 0xCC, true) == 0x33
  {
  }

  // ---------------------------------------------------------------------------
  // Torch flood

  /** The box a torch floods, per axis a half-open range lo <= t < hi. */
  datatype Window = Window(loY: int, hiY: int, loZ: int, hiZ: int, loX: int, hiX: int)

  /**
    The points a torch at chunk-local (x, y, z) floods in the loader as written:
    layers y - 9 .. y + 8 cut to [0, MAPSIZE_Y / 2), and z - 18 .. z + 17 and
    x - 18 .. x + 17 cut to [0, MAPSIZE_Z) and [0, MAPSIZE_X), all in chunk-local
    coordinates, although the points are then written at (tx + ox, ty, tz + oz).
   */
  predicate ReachesAsWritten(g: Geometry, x: int, y: int, z: int, tx: int, ty: int, tz: int)
  {
    && Max(0, y - 9) <= ty < Min(y + 9, g.mapY / 2)
    && Max(0, z - 18) <= tz < Min(z + 18, g.mapZ)
    && Max(0, x - 18) <= tx < Min(x + 18, g.mapX)
  }

  /**
    As written, the flood of a torch in the second of two chunk columns writes past
    the east edge of the world: the chunk lies inside the bounds and the buffer
    covers them, yet the point tx = 31 of the torch at local x = 15 is written at
    world x = 47 of a 32-voxel-wide map.
   */
  lemma FloodAsWrittenLeavesMap()
    ensures
      var g := Geometry(32, 128, 16, 16, 16, 128, (x, y, z) => 0, (x, y, z) => 0);
      var b := Bounds(0, 0, 2, 1);
      var c := Chunk(1, 0, [], [], []);
      && Covers(g, b) && Contains(b, c.x, c.z) && Local(g, 15, 64, 0)
      && OffsetX(g, b, c) == 16 && OffsetZ(g, b, c) == 0
      && ReachesAsWritten(g, 15, 64, 0, 31, 60, 0)
      && !InBox(g, 31 + OffsetX(g, b, c), 60, 0 + OffsetZ(g, b, c))
  {
  }

  /**
    The points the torch flood reaches once its x and z ranges are cut against the
    map in world coordinates (tx + ox < MAPSIZE_X, tz + oz < MAPSIZE_Z); the model
    of the loader uses this flood.
   */
  predicate Reaches(g: Geometry, ox: int, oz: int, x: int, y: int, z: int, tx: int, ty: int, tz: int)
  {
    && Max(0, y - 9) <= ty < Min(y + 9, g.mapY / 2)
    && Max(0, z - 18) <= tz < Min(z + 18, g.mapZ - oz)
    && Max(0, x - 18) <= tx < Min(x + 18, g.mapX - ox)
  }

  /**
    The corrected flood reaches exactly the points the written one reaches whose
    shifted position is inside the map, and every one of them is a voxel of the
    world buffer.
   */
  lemma ReachesInsideMap(g: Geometry, ox: int, oz: int, x: int, y: int, z: int, tx: int, ty: int, tz: int)
    requires 0 <= ox && 0 <= oz
    ensures Reaches(g, ox, oz, x, y, z, tx, ty, tz) <==>
      ReachesAsWritten(g, x, y, z, tx, ty, tz) && tx + ox < g.mapX && tz + oz < g.mapZ
    ensures Reaches(g, ox, oz, x, y, z, tx, ty, tz) ==> InBox(g, tx + ox, ty, tz + oz)
  {
  }

  /** The box the corrected flood walks, per axis a half-open range lo <= t < hi. */
  function TorchWindow(g: Geometry, ox: int, oz: int, x: int, y: int, z: int): (w: Window)
    ensures forall tx, ty, tz :: InWindow(w, tx, ty, tz) <==> Reaches(g, ox, oz, x, y, z, tx, ty, tz)
  {
    var loY := Max(0, y - 9);
    var loZ := Max(0, z - 18);
    var loX := Max(0, x - 18);
    Window(loY, Max(loY, Min(y + 9, g.mapY / 2)),
           loZ, Max(loZ, Min(z + 18, g.mapZ - oz)),
           loX, Max(loX, Min(x + 18, g.mapX - ox)))
  }

  predicate InWindow(w: Window, tx: int, ty: int, tz: int)
  {
    w.loY <= ty < w.hiY && w.loZ <= tz < w.hiZ && w.loX <= tx < w.hiX
  }

  /** A window whose every point, shifted by (ox, oz), is a voxel of the world. */
  ghost predicate Floodable(g: Geometry, ox: int, oz: int, w: Window)
  {
    && Fits(g)
    && 0 <= w.loY <= w.hiY <= g.mapY
    && 0 <= w.loZ <= w.hiZ && 0 <= oz && oz + w.hiZ <= g.mapZ
    && 0 <= w.loX <= w.hiX && 0 <= ox && ox + w.hiX <= g.mapX
  }

  /** Loop position (ty, tz, tx) of the flood walk: ty outermost, then tz, then tx. */
  predicate FloodCursor(w: Window, ty: int, tz: int, tx: int)
  {
    && w.loY <= ty <= w.hiY && w.loZ <= tz <= w.hiZ && w.loX <= tx <= w.hiX
    && (tx > w.loX ==> tz < w.hiZ && ty < w.hiY)
    && (tz > w.loZ ==> ty < w.hiY)
  }

  /** Light after the flood has set the window points before (ty, tz, tx) to 0xFF. */
  ghost function FloodUpTo(g: Geometry, ox: int, oz: int, w: Window, l: seq<bv8>, ty: int, tz: int, tx: int)
    : (r: seq<bv8>)
    requires Floodable(g, ox, oz, w) && |l| == LightLen(g) && FloodCursor(w, ty, tz, tx)
    ensures |r| == |l|
    decreases ty - w.loY, tz - w.loZ, tx - w.loX
  {
    if tx > w.loX then
      FloodUpTo(g, ox, oz, w, l, ty, tz, tx - 1)[g.lightAt(tx - 1 + ox, ty, tz + oz) := 0xFF]
    else if tz > w.loZ then FloodUpTo(g, ox, oz, w, l, ty, tz - 1, w.hiX)
    else if ty > w.loY then FloodUpTo(g, ox, oz, w, l, ty - 1, w.hiZ, w.loX)
    else l
  }

  /** Window point q is visited before flood position (ty, tz, tx). */
  predicate FloodVisited(ty: int, tz: int, tx: int, qx: int, qy: int, qz: int)
  {
    qy < ty || (qy == ty && (qz < tz || (qz == tz && qx < tx)))
  }

  lemma {:induction false} FloodUpToSets(
    g: Geometry, ox: int, oz: int, w: Window, l: seq<bv8>, ty: int, tz: int, tx: int,
    qx: int, qy: int, qz: int)
    requires Floodable(g, ox, oz, w) && |l| == LightLen(g) && FloodCursor(w, ty, tz, tx)
    requires InWindow(w, qx, qy, qz) && FloodVisited(ty, tz, tx, qx, qy, qz)
    ensures FloodUpTo(g, ox, oz, w, l, ty, tz, tx)[g.lightAt(qx + ox, qy, qz + oz)] == 0xFF
    decreases ty - w.loY, tz - w.loZ, tx - w.loX
  {
    if tx > w.loX {
      if !(qx == tx - 1 && qy == ty && qz == tz) {
        FloodUpToSets(g, ox, oz, w, l, ty, tz, tx - 1, qx, qy, qz);
      }
    } else if tz > w.loZ {
      FloodUpToSets(g, ox, oz, w, l, ty, tz - 1, w.hiX, qx, qy, qz);
    } else if ty > w.loY {
      FloodUpToSets(g, ox, oz, w, l, ty - 1, w.hiZ, w.loX, qx, qy, qz);
    }
  }

  lemma {:induction false} FloodUpToKeeps(
    g: Geometry, ox: int, oz: int, w: Window, l: seq<bv8>, ty: int, tz: int, tx: int, i: int)
    requires Floodable(g, ox, oz, w) && |l| == LightLen(g) && FloodCursor(w, ty, tz, tx) && 0 <= i < |l|
    requires forall qx, qy, qz :: InWindow(w, qx, qy, qz) ==> g.lightAt(qx + ox, qy, qz + oz) != i
    ensures FloodUpTo(g, ox, oz, w, l, ty, tz, tx)[i] == l[i]
    decreases ty - w.loY, tz - w.loZ, tx - w.loX
  {
    if tx > w.loX {
      FloodUpToKeeps(g, ox, oz, w, l, ty, tz, tx - 1, i);
      assert InWindow(w, tx - 1, ty, tz);
    } else if tz > w.loZ {
      FloodUpToKeeps(g, ox, oz, w, l, ty, tz - 1, w.hiX, i);
    } else if ty > w.loY {
      FloodUpToKeeps(g, ox, oz, w, l, ty - 1, w.hiZ, w.loX, i);
    }
  }

  lemma TorchWindowFloodable(g: Geometry, ox: int, oz: int, x: int, y: int, z: int)
    requires Seated(g, ox, oz) && Local(g, x, y, z)
    ensures Floodable(g, ox, oz, TorchWindow(g, ox, oz, x, y, z))
  {
  }

  /** The whole flood of the torch at chunk-local (x, y, z) of the chunk at (ox, oz). */
  ghost function Flood(g: Geometry, ox: int, oz: int, l: seq<bv8>, x: int, y: int, z: int): (r: seq<bv8>)
    requires Seated(g, ox, oz) && Local(g, x, y, z) && |l| == LightLen(g)
    ensures |r| == |l|
  {
    var w := TorchWindow(g, ox, oz, x, y, z);
    TorchWindowFloodable(g, ox, oz, x, y, z);
    FloodUpTo(g, ox, oz, w, l, w.hiY, w.loZ, w.loX)
  }

  /**
    The torch flood sets the light byte of every point it reaches to 0xFF, at the
    point shifted by the chunk offsets, and leaves every byte no reached point maps
    to as it was.
   */
  lemma FloodEffect(g: Geometry, ox: int, oz: int, l: seq<bv8>, x: int, y: int, z: int)
    requires Seated(g, ox, oz) && Local(g, x, y, z) && |l| == LightLen(g)
    ensures forall tx, ty, tz :: Reaches(g, ox, oz, x, y, z, tx, ty, tz) ==>
      Flood(g, ox, oz, l, x, y, z)[g.lightAt(tx + ox, ty, tz + oz)] == 0xFF
    ensures forall i ::
              0 <= i < |l| &&
              (forall tx, ty, tz :: Reaches(g, ox, oz, x, y, z, tx, ty, tz) ==> g.lightAt(tx + ox, ty, tz + oz) != i)
              ==> Flood(g, ox, oz, l, x, y, z)[i] == l[i]
  {
    var w := TorchWindow(g, ox, oz, x, y, z);
    TorchWindowFloodable(g, ox, oz, x, y, z);
    forall tx, ty, tz | Reaches(g, ox, oz, x, y, z, tx, ty, tz)
      ensures Flood(g, ox, oz, l, x, y, z)[g.lightAt(tx + ox, ty, tz + oz)] == 0xFF
    {
      FloodUpToSets(g, ox, oz, w, l, w.hiY, w.loZ, w.loX, tx, ty, tz);
    }
    forall i | 0 <= i < |l| &&
      (forall tx, ty, tz :: Reaches(g, ox, oz, x, y, z, tx, ty, tz) ==> g.lightAt(tx + ox, ty, tz + oz) != i)
      ensures Flood(g, ox, oz, l, x, y, z)[i] == l[i]
    {
      assert forall qx, qy, qz :: InWindow(w, qx, qy, qz) ==> Reaches(g, ox, oz, x, y, z, qx, qy, qz);
      FloodUpToKeeps(g, ox, oz, w, l, w.hiY, w.loZ, w.loX, i);
    }
  }

  // ---------------------------------------------------------------------------
  // Light of a whole chunk

  /** The chunk carries the light arrays the modes need. */
  predicate LightReady(m: Modes, c: Chunk)
  {
    && (NeedsBlockLight(m) ==> |c.blockLight| >= 16384)
    && (m.skylight ==> |c.skyLight| >= 16384)
  }

  /**
    Light after visiting voxel (x, y, z): a torch in underground mode floods its
    neighbourhood; otherwise an even layer takes the skylight blend in skylight mode,
    or the BlockLight byte in night mode; every other voxel writes nothing.
   */
  ghost function VoxelLight(g: Geometry, m: Modes, c: Chunk, ox: int, oz: int, l: seq<bv8>, x: int, y: int, z: int)
    : (r: seq<bv8>)
    requires Placed(g, c, ox, oz) && LightReady(m, c) && Local(g, x, y, z)
    requires AnyLight(m) ==> |l| == LightLen(g)
    ensures |r| == |l|
    ensures !(m.underground && BlockId(g, c, x, y, z) == TORCH) ==>
      forall i :: 0 <= i < |l| && i != g.lightAt(x + ox, y, z + oz) ==> r[i] == l[i]
    ensures !(m.underground && BlockId(g, c, x, y, z) == TORCH) && y % 2 == 1 ==> r == l
    ensures !AnyLight(m) ==> r == l
  {
    ChunkOffsetsInRange(g, x, y, z);
    var id := BlockId(g, c, x, y, z);
    var j := LightOffset(g, x, y, z);
    assert InBox(g, x + ox, y, z + oz);
    if m.underground && id == TORCH then Flood(g, ox, oz, l, x, y, z)
    else if m.skylight && y % 2 == 0 then
      l[g.lightAt(x + ox, y, z + oz) := Blend(c.blockLight[j], c.skyLight[j], m.night)]
    else if m.night && y % 2 == 0 then
      l[g.lightAt(x + ox, y, z + oz) := c.blockLight[j]]
    else l
  }

  /** Light after the voxels before (x, z, y) are visited. */
  ghost function LightUpTo(g: Geometry, m: Modes, c: Chunk, ox: int, oz: int, l: seq<bv8>, x: int, z: int, y: int)
    : (r: seq<bv8>)
    requires Placed(g, c, ox, oz) && LightReady(m, c) && Cursor(g, x, z, y)
    requires AnyLight(m) ==> |l| == LightLen(g)
    ensures |r| == |l|
    decreases x, z, y
  {
    if y > 0 then VoxelLight(g, m, c, ox, oz, LightUpTo(g, m, c, ox, oz, l, x, z, y - 1), x, y - 1, z)
    else if z > 0 then LightUpTo(g, m, c, ox, oz, l, x, z - 1, g.mapY)
    else if x > 0 then LightUpTo(g, m, c, ox, oz, l, x - 1, g.chunkZ, 0)
    else l
  }

  /** With no lighting mode the walk writes no light at all. */
  lemma {:induction false} NoModeNoLight(g: Geometry, m: Modes, c: Chunk, ox: int, oz: int, l: seq<bv8>, x: int, z: int, y: int)
    requires Placed(g, c, ox, oz) && LightReady(m, c) && Cursor(g, x, z, y) && !AnyLight(m)
    ensures LightUpTo(g, m, c, ox, oz, l, x, z, y) == l
    decreases x, z, y
  {
    if y > 0 {
      NoModeNoLight(g, m, c, ox, oz, l, x, z, y - 1);
    } else if z > 0 {
      NoModeNoLight(g, m, c, ox, oz, l, x, z - 1, g.mapY);
    } else if x > 0 {
      NoModeNoLight(g, m, c, ox, oz, l, x - 1, g.chunkZ, 0);
    }
  }

  // ---------------------------------------------------------------------------
  // One chunk file

  /** Terrain after loading one chunk file: unchanged when it is rejected. */
  ghost function ChunkTerrain(g: Geometry, m: Modes, b: Bounds, t: seq<bv8>, file: Option<ChunkFile>): (r: seq<bv8>)
    requires Fits(g) && Covers(g, b) && |t| == Volume(g)
    ensures |r| == |t|
  {
    match CheckChunk(file, b, m)
    case Err(_) => t
    case Ok(c) =>
      AcceptedIsPlaced(g, m, b, file);
      TerrainUpTo(g, c, OffsetX(g, b, c), OffsetZ(g, b, c), t, g.chunkX, 0, 0)
  }

  /** Light after loading one chunk file: unchanged when it is rejected. */
  ghost function ChunkLight(g: Geometry, m: Modes, b: Bounds, l: seq<bv8>, file: Option<ChunkFile>): (r: seq<bv8>)
    requires Fits(g) && Covers(g, b)
    requires AnyLight(m) ==> |l| == LightLen(g)
    ensures |r| == |l|
  {
    match CheckChunk(file, b, m)
    case Err(_) => l
    case Ok(c) =>
      AcceptedIsPlaced(g, m, b, file);
      LightUpTo(g, m, c, OffsetX(g, b, c), OffsetZ(g, b, c), l, g.chunkX, 0, 0)
  }

  /** A rejected chunk file writes neither terrain nor light. */
  lemma ChunkRejected(g: Geometry, m: Modes, b: Bounds, t: seq<bv8>, l: seq<bv8>, file: Option<ChunkFile>)
    requires Fits(g) && Covers(g, b) && |t| == Volume(g)
    requires AnyLight(m) ==> |l| == LightLen(g)
    requires CheckChunk(file, b, m).Err?
    ensures ChunkTerrain(g, m, b, t, file) == t && ChunkLight(g, m, b, l, file) == l
  {
  }

  /**
    The whole walk puts the id of every voxel (x, y, z) of the Blocks array into
    the rotated cell (x + ox, y, z + oz) and changes no other terrain cell.
   */
  lemma CopyEffect(g: Geometry, c: Chunk, ox: int, oz: int, t: seq<bv8>)
    requires Placed(g, c, ox, oz) && Sound(g) && |t| == Volume(g)
    ensures forall x, y, z :: Local(g, x, y, z) ==>
      TerrainUpTo(g, c, ox, oz, t, g.chunkX, 0, 0)[g.blockAt(x + ox, y, z + oz)] == BlockId(g, c, x, y, z)
    ensures forall i ::
              0 <= i < |t| && (forall x, y, z :: Local(g, x, y, z) ==> g.blockAt(x + ox, y, z + oz) != i)
              ==> TerrainUpTo(g, c, ox, oz, t, g.chunkX, 0, 0)[i] == t[i]
  {
    forall x, y, z | Local(g, x, y, z)
      ensures TerrainUpTo(g, c, ox, oz, t, g.chunkX, 0, 0)[g.blockAt(x + ox, y, z + oz)] == BlockId(g, c, x, y, z)
    {
      TerrainUpToWritten(g, c, ox, oz, t, g.chunkX, 0, 0, x, y, z);
    }
    forall i | 0 <= i < |t| && (forall x, y, z :: Local(g, x, y, z) ==> g.blockAt(x + ox, y, z + oz) != i)
      ensures TerrainUpTo(g, c, ox, oz, t, g.chunkX, 0, 0)[i] == t[i]
    {
      TerrainUpToKept(g, c, ox, oz, t, g.chunkX, 0, 0, i);
    }
  }

  /**
    An accepted chunk file is placed inside the buffer with the light arrays the
    modes need, and loading it is the full chunk walk at its offsets.
   */
  lemma ChunkAccepted(g: Geometry, m: Modes, b: Bounds, t: seq<bv8>, l: seq<bv8>, file: Option<ChunkFile>, c: Chunk)
    requires Fits(g) && Covers(g, b) && |t| == Volume(g) && (AnyLight(m) ==> |l| == LightLen(g))
    requires CheckChunk(file, b, m) == Ok(c)
    ensures Placed(g, c, OffsetX(g, b, c), OffsetZ(g, b, c)) && LightReady(m, c)
    ensures ChunkTerrain(g, m, b, t, file) == TerrainUpTo(g, c, OffsetX(g, b, c), OffsetZ(g, b, c), t, g.chunkX, 0, 0)
    ensures ChunkLight(g, m, b, l, file) == LightUpTo(g, m, c, OffsetX(g, b, c), OffsetZ(g, b, c), l, g.chunkX, 0, 0)
  {
    AcceptedIsPlaced(g, m, b, file);
  }

  /** With no lighting mode a chunk file writes no light. */
  lemma ChunkNoLight(g: Geometry, m: Modes, b: Bounds, l: seq<bv8>, file: Option<ChunkFile>)
    requires Fits(g) && Covers(g, b) && !AnyLight(m)
    ensures ChunkLight(g, m, b, l, file) == l
  {
    if CheckChunk(file, b, m).Ok? {
      var c := CheckChunk(file, b, m).value;
      AcceptedIsPlaced(g, m, b, file);
      NoModeNoLight(g, m, c, OffsetX(g, b, c), OffsetZ(g, b, c), l, g.chunkX, 0, 0);
    }
  }
}
