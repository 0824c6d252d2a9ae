/**
  The world loader: the state it keeps between calls (the scanned bounds, the list
  of chunk files, the terrain and light buffers) and its entry points, which scan
  a world directory, load every scanned chunk, or load the chunks of the bounds by
  the names they must have.
 */
module Loader {
  import opened Wrappers
  import opened World
  import opened Scan
  import opened Composite
  import opened Naming

  /** A buffer of n zero bytes, as the loader clears a fresh allocation. */
  function Zeros(n: nat): (r: seq<bv8>)
    ensures |r| == n && forall i :: 0 <= i < n ==> r[i] == 0
  {
    seq(n, _ => 0)
  }

  /**
    Bytes the terrain needs: one per voxel, plus half a byte per voxel for light
    when any lighting mode is on; that is the light buffer without its spare byte.
   */
  function CalcTerrainSize(g: Geometry, m: Modes): (r: nat)
    ensures AnyLight(m) ==> r + 1 == Volume(g) + LightLen(g)
    ensures !AnyLight(m) ==> r == Volume(g)
  {
    if AnyLight(m) then g.mapZ * g.mapX * g.mapY + (g.mapZ * g.mapX * g.mapY) / 2
    else g.mapZ * g.mapX * g.mapY
  }

  /** Terrain after loading the chunk files of `paths` in order. */
  ghost function FilesTerrain(fs: FileSystem, g: Geometry, m: Modes, b: Bounds, t: seq<bv8>, paths: seq<string>)
    : (r: seq<bv8>)
    requires Fits(g) && Covers(g, b) && |t| == Volume(g)
    ensures |r| == |t|
  {
    if paths == [] then t
    else ChunkTerrain(g, m, b, FilesTerrain(fs, g, m, b, t, paths[..|paths| - 1]), fs.read(paths[|paths| - 1]))
  }

  /** Light after loading the chunk files of `paths` in order. */
  ghost function FilesLight(fs: FileSystem, g: Geometry, m: Modes, b: Bounds, l: seq<bv8>, paths: seq<string>)
    : (r: seq<bv8>)
    requires Fits(g) && Covers(g, b) && (AnyLight(m) ==> |l| == LightLen(g))
    ensures |r| == |l|
  {
    if paths == [] then l
    else ChunkLight(g, m, b, FilesLight(fs, g, m, b, l, paths[..|paths| - 1]), fs.read(paths[|paths| - 1]))
  }

  /** With no lighting mode, loading any list of files writes no light. */
  lemma {:induction false} FilesNoLight(fs: FileSystem, g: Geometry, m: Modes, b: Bounds, l: seq<bv8>, paths: seq<string>)
    requires Fits(g) && Covers(g, b) && !AnyLight(m)
    ensures FilesLight(fs, g, m, b, l, paths) == l
  {
    if paths != [] {
      FilesNoLight(fs, g, m, b, l, paths[..|paths| - 1]);
      ChunkNoLight(g, m, b, l, fs.read(paths[|paths| - 1]));
    }
  }

  /** Files that are missing, unparsable or rejected leave the terrain as it was. */
  lemma {:induction false} RejectedFilesKeepTerrain(
    fs: FileSystem, g: Geometry, m: Modes, b: Bounds, t: seq<bv8>, paths: seq<string>)
    requires Fits(g) && Covers(g, b) && |t| == Volume(g)
    requires forall k :: 0 <= k < |paths| ==> CheckChunk(fs.read(paths[k]), b, m).Err?
    ensures FilesTerrain(fs, g, m, b, t, paths) == t
  {
    if paths != [] {
      RejectedFilesKeepTerrain(fs, g, m, b, t, paths[..|paths| - 1]);
    }
  }

  /** Loading two lists one after the other is loading their concatenation. */
  lemma {:induction false} FilesAppend(
    fs: FileSystem, g: Geometry, m: Modes, b: Bounds, t: seq<bv8>, l: seq<bv8>, s: seq<string>, r: seq<string>)
    requires Fits(g) && Covers(g, b) && |t| == Volume(g) && (AnyLight(m) ==> |l| == LightLen(g))
    ensures FilesTerrain(fs, g, m, b, FilesTerrain(fs, g, m, b, t, s), r) == FilesTerrain(fs, g, m, b, t, s + r)
    ensures FilesLight(fs, g, m, b, FilesLight(fs, g, m, b, l, s), r) == FilesLight(fs, g, m, b, l, s + r)
  {
    if r == [] {
      assert s + r == s;
    } else {
      FilesAppend(fs, g, m, b, t, l, s, r[..|r| - 1]);
      assert (s + r)[..|s + r| - 1] == s + r[..|r| - 1];
      assert (s + r)[|s + r| - 1] == r[|r| - 1];
    }
  }

  /**
    Coordinates in a chunk file name "c.<x>.<z>.dat": x is parsed from the text after
    "c.", z from the text after the next '.' (from the empty text when there is none).
   */
  method ChunkCoords(codec: Codec, name: string) returns (valX: int, valZ: int)
    requires |name| >= 2
    ensures valX == ChunkFound(codec, "", name).x && valZ == ChunkFound(codec, "", name).z
  {
    var s := name[2..];
    valX := codec.base10(s);
    var d := 0;
    while d < |s| && s[d] != '.'
      invariant 0 <= d <= |s|
      invariant forall j :: 0 <= j < d ==> s[j] != '.'
    {
      d := d + 1;
    }
    AfterDotAt(s, d);
    valZ := codec.base10(if d < |s| then s[d + 1..] else []);
  }

  /**
    The loader's state: S_FROMX/S_FROMZ/S_TOX/S_TOZ, the list of chunk files a scan
    found, and the g_Terrain and g_Light buffers (an empty array stands for a buffer
    not allocated yet).
   */
  class WorldLoader {
    var bounds: Bounds
    var chunks: seq<string>
    var terrain: array<bv8>
    var light: array<bv8>

    /** The two buffers are distinct arrays. */
    ghost predicate Valid()
      reads this
    {
      terrain != light
    }

    /** The buffers are allocated for geometry g and modes m. */
    ghost predicate Sized(g: Geometry, m: Modes)
      reads this
    {
      terrain.Length == Volume(g) && (AnyLight(m) ==> light.Length == LightLen(g))
    }

    constructor (b: Bounds)
      ensures Valid() && bounds == b && chunks == []
      ensures terrain.Length == 0 && light.Length == 0
    {
      bounds := b;
      chunks := [];
      terrain := new bv8[0];
      light := new bv8[0];
    }

    /**
      Scans world directory fromPath: fails, changing nothing, unless it holds
      level.dat and has a subdirectory; otherwise the chunk list becomes every
      chunk file of the group/shard tree in traversal order and the bounds their
      extent, made exclusive.
     */
    method ScanWorldDirectory(fs: FileSystem, codec: Codec, fromPath: string) returns (ok: bool)
      modifies this`bounds, this`chunks
      ensures ok <==> IsAlphaWorld(fs, fromPath + "/") && DirNames(fs.list(fromPath)) != []
      ensures !ok ==> bounds == old(bounds) && chunks == old(chunks)
      ensures ok ==>
        var found := WorldChunks(fs, codec, fromPath + "/", DirNames(fs.list(fromPath)));
        chunks == Paths(found) && bounds == Exclusive(Extent(Sentinel, found))
    {
      if !IsAlphaWorld(fs, fromPath + "/") {
        return false;
      }
      var entries := fs.list(fromPath);
      var subdirs: seq<string> := [];
      var k := 0;
      while k < |entries|
        invariant 0 <= k <= |entries|
        invariant subdirs == DirNames(entries[..k])
      {
        assert entries[..k + 1][..k] == entries[..k];
        if entries[k].isDir {
          subdirs := subdirs + [entries[k].name];
        }
        k := k + 1;
      }
      assert entries[..k] == entries;
      if subdirs == [] {
        return false;
      }
      chunks := [];
      bounds := Sentinel;
      var base := fromPath + "/";
      var i := 0;
      while i < |subdirs|
        invariant 0 <= i <= |subdirs|
        invariant chunks == Paths(WorldChunks(fs, codec, base, subdirs[..i]))
        invariant bounds == Extent(Sentinel, WorldChunks(fs, codec, base, subdirs[..i]))
      {
        ghost var before := WorldChunks(fs, codec, base, subdirs[..i]);
        ghost var group := GroupChunks(fs, codec, base + subdirs[i], fs.list(base + subdirs[i]));
        ScanGroup(fs, codec, base + subdirs[i], fs.list(base + subdirs[i]));
        assert subdirs[..i + 1][..i] == subdirs[..i];
        PathsAppend(before, group);
        ExtentAppend(Sentinel, before, group);
        i := i + 1;
      }
      assert subdirs[..i] == subdirs;
      bounds := Bounds(bounds.fromX, bounds.fromZ, bounds.toX + 1, bounds.toZ + 1);
      return true;
    }

    /** Scans group directory `group` with listing `entries`: appends the chunks of each of its shard directories. */
    method ScanGroup(fs: FileSystem, codec: Codec, group: string, entries: seq<Entry>)
      modifies this`bounds, this`chunks
      ensures chunks == old(chunks) + Paths(GroupChunks(fs, codec, group, entries))
      ensures bounds == Extent(old(bounds), GroupChunks(fs, codec, group, entries))
    {
      ghost var c0, b0 := chunks, bounds;
      var k := 0;
      while k < |entries|
        invariant 0 <= k <= |entries|
        invariant chunks == c0 + Paths(GroupChunks(fs, codec, group, entries[..k]))
        invariant bounds == Extent(b0, GroupChunks(fs, codec, group, entries[..k]))
      {
        ghost var before := GroupChunks(fs, codec, group, entries[..k]);
        ghost var next := EntryChunks(fs, codec, group, entries[k]);
        GroupChunksStep(fs, codec, group, entries, k);
        ScanEntry(fs, codec, group, entries[k]);
        PathsExtend(c0, before, next);
        ExtentAppend(b0, before, next);
        k := k + 1;
      }
      assert entries[..k] == entries;
    }

    /** Takes one entry of a group directory into account: a shard directory is scanned, a file skipped. */
    method ScanEntry(fs: FileSystem, codec: Codec, group: string, e: Entry)
      modifies this`bounds, this`chunks
      ensures chunks == old(chunks) + Paths(EntryChunks(fs, codec, group, e))
      ensures bounds == Extent(old(bounds), EntryChunks(fs, codec, group, e))
    {
      if e.isDir {
        var path := group + "/" + e.name;
        ScanShard(codec, path, fs.list(path));
      } else {
        assert Paths([]) == [];
      }
    }

    /**
      Scans one shard directory with listing `entries`: each chunk file ("c." at the
      start of a file name) is appended with its coordinates folded into the bounds.
     */
    method ScanShard(codec: Codec, path: string, entries: seq<Entry>)
      modifies this`bounds, this`chunks
      ensures chunks == old(chunks) + Paths(ShardChunks(codec, path, entries))
      ensures bounds == Extent(old(bounds), ShardChunks(codec, path, entries))
    {
      var k := 0;
      while k < |entries|
        invariant 0 <= k <= |entries|
        invariant chunks == old(chunks) + Paths(ShardChunks(codec, path, entries[..k]))
        invariant bounds == Extent(old(bounds), ShardChunks(codec, path, entries[..k]))
      {
        ghost var before := ShardChunks(codec, path, entries[..k]);
        assert entries[..k + 1][..k] == entries[..k];
        var chunk := entries[k];
        if !chunk.isDir && |chunk.name| >= 2 && chunk.name[0] == 'c' && chunk.name[1] == '.' {
          var full := path + "/" + chunk.name;
          var valX, valZ := ChunkCoords(codec, chunk.name);
          Record(full, valX, valZ);
          ghost var f := ChunkFound(codec, path, chunk.name);
          assert f == Found(full, valX, valZ);
          assert ShardChunks(codec, path, entries[..k + 1]) == before + [f];
          assert (before + [f])[..|before|] == before;
          PathsExtend(old(chunks), before, [f]);
        } else {
          assert ShardChunks(codec, path, entries[..k + 1]) == before + [];
          assert before + [] == before;
        }
        k := k + 1;
      }
      assert entries[..k] == entries;
    }

    /** Takes chunk file `full` at (valX, valZ) into the list and the bounds, each side on its own. */
    method Record(full: string, valX: int, valZ: int)
      modifies this`bounds, this`chunks
      ensures chunks == old(chunks) + [full]
      ensures bounds == Widen(old(bounds), Found(full, valX, valZ))
    {
      if valX < bounds.fromX {
        bounds := bounds.(fromX := valX);
      }
      if valX > bounds.toX {
        bounds := bounds.(toX := valX);
      }
      if valZ < bounds.fromZ {
        bounds := bounds.(fromZ := valZ);
      }
      if valZ > bounds.toZ {
        bounds := bounds.(toZ := valZ);
      }
      chunks := chunks + [full];
    }

    /**
      Loads every chunk file of the list: fails, changing nothing, when the list is
      empty; otherwise allocates zeroed buffers, composites the files in list order
      and empties the list.
     */
    method LoadEntireTerrain(fs: FileSystem, g: Geometry, m: Modes) returns (ok: bool)
      requires Valid() && Fits(g) && Covers(g, bounds)
      modifies this`terrain, this`light, this`chunks
      ensures Valid()
      ensures ok <==> old(chunks) != []
      ensures !ok ==> terrain == old(terrain) && light == old(light) && chunks == old(chunks)
      ensures ok ==> chunks == [] && fresh(terrain) && Sized(g, m)
      ensures ok ==> terrain[..] == FilesTerrain(fs, g, m, bounds, Zeros(Volume(g)), old(chunks))
      ensures ok && AnyLight(m) ==> fresh(light) && light[..] == FilesLight(fs, g, m, bounds, Zeros(LightLen(g)), old(chunks))
      ensures ok && !AnyLight(m) ==> light == old(light)
    {
      if chunks == [] {
        return false;
      }
      AllocateTerrain(g, m);
      ghost var t0, l0 := terrain[..], light[..];
      var i := 0;
      while i < |chunks|
        invariant 0 <= i <= |chunks| && chunks == old(chunks)
        invariant Valid() && Sized(g, m) && fresh(terrain) && (AnyLight(m) ==> fresh(light))
        invariant !AnyLight(m) ==> light == old(light)
        invariant terrain[..] == FilesTerrain(fs, g, m, bounds, t0, chunks[..i])
        invariant light[..] == FilesLight(fs, g, m, bounds, l0, chunks[..i])
      {
        assert chunks[..i + 1][..i] == chunks[..i];
        LoadChunk(fs, g, m, chunks[i]);
        i := i + 1;
      }
      assert chunks[..i] == old(chunks);
      chunks := [];
      return true;
    }

    /**
      Loads the chunks of the bounds by name: fails without allocating on an empty
      path; otherwise allocates zeroed buffers, adds a trailing '/', fails unless
      the path is a world, and composites the chunk of every (x, z) of the bounds,
      row by row.
     */
    method LoadTerrain(fs: FileSystem, codec: Codec, g: Geometry, m: Modes, fromPath: Option<string>) returns (ok: bool)
      requires Valid() && Fits(g) && Covers(g, bounds)
      modifies this`terrain, this`light
      ensures Valid()
      ensures fromPath.None? || fromPath.value == [] ==> !ok && terrain == old(terrain) && light == old(light)
      ensures fromPath.Some? && fromPath.value != [] ==>
        && fresh(terrain) && Sized(g, m)
        && (AnyLight(m) ==> fresh(light))
        && (!AnyLight(m) ==> light == old(light))
        && (ok <==> IsAlphaWorld(fs, Slashed(fromPath.value)))
        && (!ok ==> terrain[..] == Zeros(Volume(g)) && (AnyLight(m) ==> light[..] == Zeros(LightLen(g))))
        && (ok ==> terrain[..] == FilesTerrain(fs, g, m, bounds, Zeros(Volume(g)),
                                               Grid(codec, Slashed(fromPath.value), bounds, Height(bounds))))
        && (ok && AnyLight(m) ==> light[..] == FilesLight(fs, g, m, bounds, Zeros(LightLen(g)),
                                                          Grid(codec, Slashed(fromPath.value), bounds, Height(bounds))))
    {
      if fromPath.None? || fromPath.value == [] {
        return false;
      }
      AllocateTerrain(g, m);
      var path := fromPath.value;
      if path[|path| - 1] != '/' {
        path := path + "/";
      }
      if !IsAlphaWorld(fs, path) {
        return false;
      }
      LoadRows(fs, codec, g, m, path);
      return true;
    }

    /** Loads the rows of the bounds in turn, z running from S_FROMZ up to S_TOZ. */
    method LoadRows(fs: FileSystem, codec: Codec, g: Geometry, m: Modes, path: string)
      requires Valid() && Fits(g) && Covers(g, bounds) && Sized(g, m)
      modifies terrain, if AnyLight(m) then {light} else {}
      ensures terrain[..] == FilesTerrain(fs, g, m, bounds, old(terrain[..]), Grid(codec, path, bounds, Height(bounds)))
      ensures light[..] == FilesLight(fs, g, m, bounds, old(light[..]), Grid(codec, path, bounds, Height(bounds)))
    {
      ghost var t0, l0 := terrain[..], light[..];
      var fromZ, toZ := bounds.fromZ, bounds.toZ;
      var chunkZ := fromZ;
      while chunkZ < toZ
        invariant fromZ <= chunkZ && chunkZ - fromZ <= Height(bounds)
        invariant bounds.fromZ == fromZ && bounds.toZ == toZ
        invariant terrain[..] == FilesTerrain(fs, g, m, bounds, t0, Grid(codec, path, bounds, chunkZ - fromZ))
        invariant light[..] == FilesLight(fs, g, m, bounds, l0, Grid(codec, path, bounds, chunkZ - fromZ))
      {
        ghost var done := Grid(codec, path, bounds, chunkZ - fromZ);
        ghost var row := Row(codec, path, chunkZ, bounds.fromX, Width(bounds));
        LoadRow(fs, codec, g, m, path, chunkZ);
        FilesAppend(fs, g, m, bounds, t0, l0, done, row);
        GridStep(codec, path, bounds, chunkZ);
        chunkZ := chunkZ + 1;
      }
      assert chunkZ - fromZ == Height(bounds);
    }

    /** Loads the chunks of row chunkZ of the bounds, x running from S_FROMX up to S_TOX. */
    method LoadRow(fs: FileSystem, codec: Codec, g: Geometry, m: Modes, path: string, chunkZ: int)
      requires Valid() && Fits(g) && Covers(g, bounds) && Sized(g, m)
      modifies terrain, if AnyLight(m) then {light} else {}
      ensures terrain[..] == FilesTerrain(fs, g, m, bounds, old(terrain[..]), Row(codec, path, chunkZ, bounds.fromX, Width(bounds)))
      ensures light[..] == FilesLight(fs, g, m, bounds, old(light[..]), Row(codec, path, chunkZ, bounds.fromX, Width(bounds)))
    {
      ghost var t0, l0 := terrain[..], light[..];
      var fromX, toX := bounds.fromX, bounds.toX;
      var chunkX := fromX;
      while chunkX < toX
        invariant fromX <= chunkX && chunkX - fromX <= Width(bounds)
        invariant bounds.fromX == fromX && bounds.toX == toX
        invariant terrain[..] == FilesTerrain(fs, g, m, bounds, t0, Row(codec, path, chunkZ, fromX, chunkX - fromX))
        invariant light[..] == FilesLight(fs, g, m, bounds, l0, Row(codec, path, chunkZ, fromX, chunkX - fromX))
      {
        ghost var row := Row(codec, path, chunkZ, fromX, chunkX - fromX);
        var thispath := ChunkPath(codec, path, chunkX, chunkZ);
        RowStep(codec, path, chunkZ, fromX, chunkX - fromX);
        assert (row + [thispath])[..|row|] == row;
        LoadChunk(fs, g, m, thispath);
        chunkX := chunkX + 1;
      }
      assert chunkX - fromX == Width(bounds);
    }

    /**
      Loads one chunk file into the buffers: a file that is missing, unparsable,
      outside the bounds or short of the arrays the modes need changes nothing;
      an accepted one has its voxels copied and its light composited.
     */
    method LoadChunk(fs: FileSystem, g: Geometry, m: Modes, file: string)
      requires Valid() && Fits(g) && Covers(g, bounds) && Sized(g, m)
      modifies terrain, if AnyLight(m) then {light} else {}
      ensures terrain[..] == ChunkTerrain(g, m, bounds, old(terrain[..]), fs.read(file))
      ensures light[..] == ChunkLight(g, m, bounds, old(light[..]), fs.read(file))
    {
      var r := CheckChunk(fs.read(file), bounds, m);
      if r.Err? {
        return;
      }
      var c := r.value;
      ChunkAccepted(g, m, bounds, terrain[..], light[..], fs.read(file), c);
      var offsetz := (c.z - bounds.fromZ) * g.chunkZ;
      var offsetx := (c.x - bounds.fromX) * g.chunkX;
      CompositeChunk(g, m, c, offsetx, offsetz);
    }

    /** Visits every voxel of chunk c placed at (ox, oz): x outermost, then z, then y. */
    method CompositeChunk(g: Geometry, m: Modes, c: Chunk, ox: int, oz: int)
      requires Valid() && Placed(g, c, ox, oz) && LightReady(m, c) && Sized(g, m)
      modifies terrain, if AnyLight(m) then {light} else {}
      ensures terrain[..] == TerrainUpTo(g, c, ox, oz, old(terrain[..]), g.chunkX, 0, 0)
      ensures light[..] == LightUpTo(g, m, c, ox, oz, old(light[..]), g.chunkX, 0, 0)
    {
      ghost var t0, l0 := terrain[..], light[..];
      var x := 0;
      while x < g.chunkX
        invariant 0 <= x <= g.chunkX
        invariant terrain[..] == TerrainUpTo(g, c, ox, oz, t0, x, 0, 0)
        invariant light[..] == LightUpTo(g, m, c, ox, oz, l0, x, 0, 0)
      {
        var z := 0;
        while z < g.chunkZ
          invariant 0 <= z <= g.chunkZ
          invariant terrain[..] == TerrainUpTo(g, c, ox, oz, t0, x, z, 0)
          invariant light[..] == LightUpTo(g, m, c, ox, oz, l0, x, z, 0)
        {
          var y := 0;
          while y < g.mapY
            invariant 0 <= y <= g.mapY
            invariant terrain[..] == TerrainUpTo(g, c, ox, oz, t0, x, z, y)
            invariant light[..] == LightUpTo(g, m, c, ox, oz, l0, x, z, y)
          {
            CompositeVoxel(g, m, c, ox, oz, x, y, z);
            y := y + 1;
          }
          z := z + 1;
        }
        x := x + 1;
      }
    }

    /**
      Visits chunk-local voxel (x, y, z) of chunk c placed at (ox, oz): its block id
      goes to its rotated terrain cell, and its light as VoxelLight says.
     */
    method CompositeVoxel(g: Geometry, m: Modes, c: Chunk, ox: int, oz: int, x: int, y: int, z: int)
      requires Valid() && Placed(g, c, ox, oz) && LightReady(m, c) && Local(g, x, y, z) && Sized(g, m)
      modifies terrain, if AnyLight(m) then {light} else {}
      ensures terrain[..] == old(terrain[..])[g.blockAt(x + ox, y, z + oz) := BlockId(g, c, x, y, z)]
      ensures light[..] == VoxelLight(g, m, c, ox, oz, old(light[..]), x, y, z)
    {
      ChunkOffsetsInRange(g, x, y, z);
      assert InBox(g, x + ox, y, z + oz);
      var id := c.blocks[y + (z + x * g.chunkZ) * g.sliceY];
      terrain[g.blockAt(x + ox, y, z + oz)] := id;
      if m.underground && id == TORCH {
        FloodTorch(g, ox, oz, x, y, z);
      } else if m.skylight && y % 2 == 0 {
        var j := y / 2 + (z + x * g.chunkZ) * (g.sliceY / 2);
        light[g.lightAt(x + ox, y, z + oz)] := Blend(c.blockLight[j], c.skyLight[j], m.night);
      } else if m.night && y % 2 == 0 {
        var j := y / 2 + (z + x * g.chunkZ) * (g.sliceY / 2);
        light[g.lightAt(x + ox, y, z + oz)] := c.blockLight[j];
      }
    }

    /**
      Floods the light around a torch at chunk-local (x, y, z) of the chunk placed at
      (ox, oz): every point it reaches gets light 0xFF.
     */
    method FloodTorch(g: Geometry, ox: int, oz: int, x: int, y: int, z: int)
      requires Seated(g, ox, oz) && Local(g, x, y, z) && light.Length == LightLen(g)
      modifies light
      ensures light[..] == Flood(g, ox, oz, old(light[..]), x, y, z)
    {
      var w := TorchWindow(g, ox, oz, x, y, z);
      TorchWindowFloodable(g, ox, oz, x, y, z);
      ghost var l0 := light[..];
      var ty := y - 9;
      while ty < y + 9
        invariant y - 9 <= ty <= y + 9
        invariant light[..] == FloodUpTo(g, ox, oz, w, l0, Clip(ty, w.loY, w.hiY), w.loZ, w.loX)
      {
        if ty < 0 {
          ty := ty + 1;
          continue;
        }
        if ty >= g.mapY / 2 {
          break;
        }
        FloodLayer(g, ox, oz, w, l0, x, ty, z);
        ty := ty + 1;
      }
    }

    /** Floods layer ty of the torch window w, row by row. */
    method FloodLayer(g: Geometry, ox: int, oz: int, w: Window, ghost l0: seq<bv8>, x: int, ty: int, z: int)
      requires Floodable(g, ox, oz, w) && |l0| == LightLen(g) && light.Length == LightLen(g)
      requires w.loZ == Max(0, z - 18) && w.hiZ == Max(w.loZ, Min(z + 18, g.mapZ - oz))
      requires w.loX == Max(0, x - 18) && w.hiX == Max(w.loX, Min(x + 18, g.mapX - ox))
      requires w.loY <= ty < w.hiY
      requires light[..] == FloodUpTo(g, ox, oz, w, l0, ty, w.loZ, w.loX)
      modifies light
      ensures light[..] == FloodUpTo(g, ox, oz, w, l0, ty + 1, w.loZ, w.loX)
    {
      var tz := z - 18;
      while tz < z + 18
        invariant z - 18 <= tz <= z + 18
        invariant light[..] == FloodUpTo(g, ox, oz, w, l0, ty, Clip(tz, w.loZ, w.hiZ), w.loX)
      {
        if tz < 0 {
          tz := tz + 1;
          continue;
        }
        if tz + oz >= g.mapZ {
          break;
        }
        FloodRow(g, ox, oz, w, l0, x, ty, tz);
        tz := tz + 1;
      }
    }

    /** Floods row (ty, tz) of the torch window w. */
    method FloodRow(g: Geometry, ox: int, oz: int, w: Window, ghost l0: seq<bv8>, x: int, ty: int, tz: int)
      requires Floodable(g, ox, oz, w) && |l0| == LightLen(g) && light.Length == LightLen(g)
      requires w.loX == Max(0, x - 18) && w.hiX == Max(w.loX, Min(x + 18, g.mapX - ox))
      requires w.loY <= ty < w.hiY && w.loZ <= tz < w.hiZ
      requires light[..] == FloodUpTo(g, ox, oz, w, l0, ty, tz, w.loX)
      modifies light
      ensures light[..] == FloodUpTo(g, ox, oz, w, l0, ty, tz + 1, w.loX)
    {
      var tx := x - 18;
      while tx < x + 18
        invariant x - 18 <= tx <= x + 18
        invariant light[..] == FloodUpTo(g, ox, oz, w, l0, ty, tz, Clip(tx, w.loX, w.hiX))
      {
        if tx < 0 {
          tx := tx + 1;
          continue;
        }
        if tx + ox >= g.mapX {
          break;
        }
        light[g.lightAt(tx + ox, ty, tz + oz)] := 0xFF;
        tx := tx + 1;
      }
    }

    /**
      Allocates the buffers for geometry g: a zeroed terrain buffer of one byte per
      voxel and, when a lighting mode is on, a zeroed light buffer of half a byte per
      voxel plus one.
     */
    method AllocateTerrain(g: Geometry, m: Modes)
      modifies this`terrain, this`light
      ensures Valid() && Sized(g, m) && fresh(terrain)
      ensures terrain[..] == Zeros(Volume(g))
      ensures AnyLight(m) ==> fresh(light) && light[..] == Zeros(LightLen(g))
      ensures !AnyLight(m) ==> light == old(light)
    {
      var terrainsize := g.mapZ * g.mapX * g.mapY;
      terrain := new bv8[terrainsize](_ => 0);
      if m.night || m.underground || m.skylight {
        light := new bv8[terrainsize / 2 + 1](_ => 0);
      }
    }
  }

  /** v cut into [lo, hi]. */
  function Clip(v: int, lo: int, hi: int): (r: int)
    requires lo <= hi
    ensures lo <= r <= hi && (lo <= v <= hi ==> r == v)
  {
    if v < lo then lo else if v > hi then hi else v
  }
}
