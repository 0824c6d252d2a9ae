/**
  The values the world loader works on: the rectangle of chunk coordinates a scan
  finds, the lighting flags, the sizes and rotated index maps of the terrain buffers,
  the decoded form of one chunk file, and the file system it reads from.
 */
module World {
  import opened Wrappers

  /** Half-open rectangle of chunk coordinates (S_FROMX, S_FROMZ, S_TOX, S_TOZ). */
  datatype Bounds = Bounds(fromX: int, fromZ: int, toX: int, toZ: int)

  predicate Contains(b: Bounds, x: int, z: int)
  {
    b.fromX <= x < b.toX && b.fromZ <= z < b.toZ
  }

  /** The three lighting flags (g_Nightmode, g_Underground, g_Skylight). */
  datatype Modes = Modes(night: bool, underground: bool, skylight: bool)

  /** True when a light buffer is wanted at all. */
  predicate AnyLight(m: Modes)
  {
    m.night || m.underground || m.skylight
  }

  /** BlockLight is read in night mode and in skylight mode. */
  predicate NeedsBlockLight(m: Modes)
  {
    m.night || m.skylight
  }

  /**
    Sizes and index maps the loader takes from its globals: MAPSIZE_X/Y/Z,
    CHUNKSIZE_X/Z, SLICESIZE_Y, and the offsets that BLOCKROTATED and
    SETLIGHTROTATED address for a world voxel (x, y, z).
   */
  datatype Geometry = Geometry(
    mapX: nat, mapY: nat, mapZ: nat,
    chunkX: nat, chunkZ: nat, sliceY: nat,
    blockAt: (int, int, int) -> int,
    lightAt: (int, int, int) -> int)

  /** Number of voxels, and bytes, in the terrain buffer. */
  function Volume(g: Geometry): nat
  {
    g.mapZ * g.mapX * g.mapY
  }

  /** Number of bytes of the light buffer: half the voxels, plus one spare byte. */
  function LightLen(g: Geometry): nat
  {
    Volume(g) / 2 + 1
  }

  /** (x, y, z) is a voxel of the world buffer. */
  predicate InBox(g: Geometry, x: int, y: int, z: int)
  {
    0 <= x < g.mapX && 0 <= y < g.mapY && 0 <= z < g.mapZ
  }

  /** (x, y, z) is a voxel of one chunk, in chunk-local coordinates. */
  predicate Local(g: Geometry, x: int, y: int, z: int)
  {
    0 <= x < g.chunkX && 0 <= y < g.mapY && 0 <= z < g.chunkZ
  }

  /**
    What the loader relies on about its geometry: a chunk is at least one voxel wide,
    a chunk column read at y + (z + x * CHUNKSIZE_Z) * SLICESIZE_Y stays inside the
    32768 bytes it checks for (and the half-size light planes inside 16384), and the
    rotated index maps send every voxel of the world into its buffer.
   */
  ghost predicate Fits(g: Geometry)
  {
    && 1 <= g.chunkX && 1 <= g.chunkZ
    && g.mapY <= g.sliceY && g.sliceY % 2 == 0
    && g.chunkX * g.chunkZ * g.sliceY <= 32768
    && (forall x, y, z :: InBox(g, x, y, z) ==> 0 <= g.blockAt(x, y, z) < Volume(g))
    && (forall x, y, z :: InBox(g, x, y, z) ==> 0 <= g.lightAt(x, y, z) < LightLen(g))
  }

  /** Voxels (x, y, z) and (x', y', z') have different terrain cells. */
  predicate Apart(g: Geometry, x: int, y: int, z: int, x': int, y': int, z': int)
  {
    g.blockAt(x, y, z) != g.blockAt(x', y', z')
  }

  /** The terrain map gives every voxel of the world a cell of its own. */
  ghost predicate Injective(g: Geometry)
  {
    forall x, y, z, x', y', z' ::
      InBox(g, x, y, z) && InBox(g, x', y', z') && (x != x' || y != y' || z != z')
      ==> Apart(g, x, y, z, x', y', z')
  }

  /** A geometry that fits and keeps voxels apart in the terrain buffer. */
  ghost predicate Sound(g: Geometry)
  {
    Fits(g) && Injective(g)
  }

  /** The buffer is wide enough for every chunk inside the bounds. */
  predicate Covers(g: Geometry, b: Bounds)
  {
    (b.toX - b.fromX) * g.chunkX <= g.mapX && (b.toZ - b.fromZ) * g.chunkZ <= g.mapZ
  }

  /** Offset of voxel (x, y, z) in a chunk's Blocks array. */
  function BlockOffset(g: Geometry, x: int, y: int, z: int): int
  {
    y + (z + x * g.chunkZ) * g.sliceY
  }

  /** Offset of the byte holding voxel (x, y, z) in a chunk's BlockLight and SkyLight arrays. */
  function LightOffset(g: Geometry, x: int, y: int, z: int): int
  {
    y / 2 + (z + x * g.chunkZ) * (g.sliceY / 2)
  }

  /** Every voxel of a chunk is read from inside the minimum array lengths the loader checks. */
  lemma ChunkOffsetsInRange(g: Geometry, x: int, y: int, z: int)
    requires 1 <= g.chunkX && 1 <= g.chunkZ && g.mapY <= g.sliceY && g.sliceY % 2 == 0
    requires g.chunkX * g.chunkZ * g.sliceY <= 32768
    requires Local(g, x, y, z)
    ensures 0 <= BlockOffset(g, x, y, z) < 32768
    ensures 0 <= LightOffset(g, x, y, z) < 16384
  {
    var column := z + x * g.chunkZ;
    var columns := g.chunkX * g.chunkZ;
    var half := g.sliceY / 2;
    GridIndex(x, g.chunkX, z, g.chunkZ);
    GridIndex(column, columns, y, g.sliceY);
    GridIndex(column, columns, y / 2, half);
    assert columns * g.sliceY == 2 * (columns * half);
  }

  /** Row-major cell j + i * m of an n-by-m grid lies inside the grid. */
  lemma GridIndex(i: int, n: int, j: int, m: int)
    requires 0 <= i < n && 0 <= j < m
    ensures 0 <= j + i * m < n * m
  {
    MulLeq(i, n - 1, m);
    assert (n - 1) * m == n * m - m;
  }

  /** A chunk inside the bounds lands inside the world buffer. */
  lemma OffsetInside(lo: int, c: int, hi: int, size: int, width: int)
    requires lo <= c < hi && 1 <= size && (hi - lo) * size <= width
    ensures 0 <= (c - lo) * size && (c - lo) * size + size <= width
  {
    MulLeq(c - lo + 1, hi - lo, size);
  }

  lemma MulLeq(a: int, b: int, c: int)
    requires 0 <= a <= b && 0 <= c
    ensures 0 <= a * c <= b * c
  {
  }

  /** Decoded "Level" compound of a chunk file: each tag may be missing. */
  datatype Level = Level(
    xPos: Option<int>, zPos: Option<int>,
    blocks: Option<seq<bv8>>, blockLight: Option<seq<bv8>>, skyLight: Option<seq<bv8>>)

  /** A chunk file that parsed as NBT; its "Level" compound may be missing. */
  datatype ChunkFile = ChunkFile(level: Option<Level>)

  /** One directory entry as the directory iterator reports it. */
  datatype Entry = Entry(name: string, isDir: bool)

  /**
    The file system as the loader sees it: whether a file exists, the entries of a
    directory in iteration order (empty when it cannot be opened), and the NBT parse
    of a chunk file (None when the file is missing or does not parse).
   */
  datatype FileSystem = FileSystem(
    fileExists: string -> bool,
    list: string -> seq<Entry>,
    read: string -> Option<ChunkFile>)

  /** The base-36 conversions of the helper module: text to number and number to text. */
  datatype Codec = Codec(base10: string -> int, base36: int -> string)

  /** A path is a world save when it holds level.dat (the path ends with its separator). */
  predicate IsAlphaWorld(fs: FileSystem, path: string)
  {
    fs.fileExists(path + "level.dat")
  }
}
