# mcmap world loader, modelled in Dafny

mcmap renders isometric maps of Minecraft Alpha worlds. Its world loader
(`worldloader.cpp`) turns a world save into two flat byte buffers:

- **g_Terrain**: one block id per voxel.
- **g_Light**: one light nibble per voxel.

It exports four functions (`scanWorldDirectory`, `loadEntireTerrain`, `loadTerrain`, `calcTerrainSize`); the two load drivers both call the internal step `loadChunk`:

- **scanWorldDirectory** walks the two-level group/shard directory tree of a world.
  - It records the path of every non-directory entry of a shard directory whose name starts with `c.`, whatever follows.
  - It folds the coordinates parsed from the names into the bounds `S_FROMX/S_FROMZ/S_TOX/S_TOZ`.
  - At the end it makes the upper bounds exclusive.
- **loadEntireTerrain** allocates the buffers and loads every recorded chunk file in list order.
- **loadTerrain** allocates the buffers and loads the chunk of every (x, z) of the bounds, row by row, by the path that chunk must have:
  - the group directory is `base36((x + 640000) % 64)`;
  - the shard directory is `base36((z + 640000) % 64)`;
  - the file name is `c.<base36 x>.<base36 z>.dat`.
- **calcTerrainSize** gives the bytes the terrain and light buffers take.
- **loadChunk** (internal, `static`) composites one decoded chunk:
  - It rejects the chunk, writing nothing, unless it has a `Level`, both positions inside the bounds, and byte arrays of the minimum lengths the lighting modes need.
  - It copies every voxel's block id into its rotated terrain cell.
  - It writes light through one of three branches: a torch flood in underground mode, a nibble-wise skylight blend, or a plain BlockLight copy in night mode.

The model keeps the loader's state as a class, `Loader.WorldLoader`. Its fields are:

- the bounds;
- the chunk list;
- the two buffers, as arrays.

The scan, the load drivers and the per-voxel compositing are methods with their loops. Each method is proved against a specification function:

| Function | Specifies |
|---|---|
| `WorldChunks` / `GroupChunks` / `ShardChunks` | what a scan finds |
| `Extent` | the bounds a scan computes |
| `Grid` | the paths a direct load asks for |
| `FilesTerrain` / `FilesLight` | the buffers after loading a list of files |
| `TerrainUpTo` / `LightUpTo` / `FloodUpTo` | the buffers after a prefix of a chunk's voxel walk |

Lemmas then state what those functions mean:

- the bounds are the minimum and the maximum plus one of the chunk coordinates;
- every voxel lands in its rotated cell and no other cell changes;
- the flood sets exactly the points it reaches;
- a rejected chunk writes nothing;
- the name a direct load builds parses back to its own coordinates.

What the loader takes from code outside this file becomes a parameter:

- `World.Geometry`: the map and chunk sizes, `SLICESIZE_Y`, and the rotated index macros `BLOCKROTATED`/`SETLIGHTROTATED`, as index functions.
- `World.FileSystem`: directory listings, the `level.dat` test and the NBT decoding.
- `World.Codec`: the base-10/base-36 helpers.

`World.Fits` and `World.Injective` state what the loader relies on about the geometry.

## Model

| member | source | states |
|---|---|---|
| Loader.WorldLoader.ScanWorldDirectory | worldloader.cpp:23-111 | succeeds exactly when the path holds level.dat and has a subdirectory; on failure bounds and list are unchanged; on success the list is every chunk file of the tree in traversal order and the bounds their extent made exclusive |
| Loader.WorldLoader.ScanGroup | worldloader.cpp:58-101 | scanning one group directory appends the chunks of its shard directories in listing order and folds them into the bounds |
| Loader.WorldLoader.ScanEntry | worldloader.cpp:63-99 | a shard directory entry contributes its chunks, any other entry nothing |
| Loader.WorldLoader.ScanShard | worldloader.cpp:70-95 | exactly the non-directory entries named "c." are appended, with their coordinates folded into the bounds, in listing order |
| Scan.Widen | worldloader.cpp:81-92 | taking one chunk into account lowers fromX/fromZ to the minimum of the old side and the chunk's coordinate and raises toX/toZ to the maximum, each side independently |
| Loader.WorldLoader.Record | worldloader.cpp:81-93 | each side of the bounds widens independently to take in the chunk, and its path is appended |
| World.IsAlphaWorld | worldloader.cpp:236-240 | a path is a world save when level.dat exists directly under it (the definition ScanWorldDirectory and LoadTerrain decide their results by) |
| Scan.DirNames | worldloader.cpp:35-44 | the names of the root's subdirectories in listing order, no more of them than entries (the list the scan then walks) |
| Scan.DirNamesEmpty | worldloader.cpp:35-44 | the subdirectory names collected from the root are empty exactly when no entry of the root is a directory, which is when the scan gives up |
| Scan.IsChunkFile | worldloader.cpp:71 | a shard entry is a chunk file exactly when it is not a directory and its name starts with "c." (the definition the scan's contracts and NameRoundTrip use) |
| Scan.ChunkFound | worldloader.cpp:72-79 | the record kept for a chunk file: its full path and the x and z parsed from its name (the definition ChunkCoords and Record are proved against) |
| Loader.ChunkCoords | worldloader.cpp:73-79 | x is parsed from the text after "c.", z from the text after the next '.', or from the empty text when there is none |
| Scan.AfterDotAt | worldloader.cpp:78-79 | the text after the first dot is the suffix behind it, wherever the dot is, and empty when there is none |
| Scan.ExtentIsMinMax | worldloader.cpp:81-92 | the folded bounds are below or at the start and every chunk coordinate, and each side is the start value or some chunk's coordinate |
| Scan.ExtentAppend | worldloader.cpp:81-92 | folding two runs of chunks in turn is folding their concatenation |
| Scan.ScanBounds | worldloader.cpp:50-104 | after a scan every chunk lies inside the half-open bounds; with no chunk they are (10000000, -9999999) on both axes; with coordinates inside the sentinels from is attained and to is one past an attained coordinate |
| Scan.PathsAppend | worldloader.cpp:93 | the paths of two runs of chunks are the paths of each, one after the other |
| Loader.WorldLoader.LoadEntireTerrain | worldloader.cpp:113-128 | fails, changing nothing, exactly when the list is empty; otherwise fresh zeroed buffers receive every listed file in list order and the list is emptied |
| Loader.FilesNoLight | worldloader.cpp:120-124 | with no lighting mode, loading any list of files writes no light |
| Loader.RejectedFilesKeepTerrain | worldloader.cpp:158-183 | files that are all rejected leave the terrain as it was |
| Loader.FilesAppend | worldloader.cpp:144-150 | loading two lists in turn is loading their concatenation |
| Loader.WorldLoader.LoadTerrain | worldloader.cpp:130-154 | an absent or empty path fails without allocating; otherwise the buffers are fresh and zeroed before the level.dat test, which decides the result, and on success every chunk path of the bounds is loaded row by row |
| Loader.WorldLoader.LoadRows | worldloader.cpp:144-150 | the rows z = S_FROMZ .. S_TOZ - 1 are loaded in turn |
| Loader.WorldLoader.LoadRow | worldloader.cpp:146-149 | the chunks x = S_FROMX .. S_TOX - 1 of one row are loaded in turn |
| Naming.Slashed | worldloader.cpp:135-137 | the path ends in '/', and is the input itself exactly when that already did |
| Naming.CRem | worldloader.cpp:147 | C's remainder: the sign of the dividend, magnitude below the divisor, quotient times divisor plus remainder is the dividend |
| Naming.ShardIndex | worldloader.cpp:147 | for coordinates from -640000 up the group/shard index is the coordinate modulo 64; below that it is not positive |
| Naming.ChunkName | worldloader.cpp:147 | the file name built for (x, z) starts with "c." and ends in ".dat" |
| Naming.ChunkPath | worldloader.cpp:147 | the path built for (x, z) starts with the world path and ends with the chunk's file name |
| Naming.NameRoundTrip | worldloader.cpp:147 | the file name a direct load builds is a chunk file name the scan parses back to the same coordinates |
| Naming.GridLength | worldloader.cpp:144-149 | the first n rows of the bounds name n times the width paths |
| Naming.GridAt | worldloader.cpp:144-149 | every (x, z) of the bounds is asked for once, at position (z - fromZ) * width + (x - fromX), by its own path |
| Naming.GridStep | worldloader.cpp:144-146 | one more row extends the paths asked for by that row |
| Composite.CheckChunk | worldloader.cpp:158-183 | accepted exactly when the file parses, has a Level with both positions inside the bounds and every array the modes need at its minimum length; the accepted chunk carries the declared position and those arrays; the out-of-bounds rejection happens exactly for a positioned chunk outside the bounds |
| Composite.ChunkRejected | worldloader.cpp:158-183 | a rejected chunk file writes neither terrain nor light |
| Composite.AcceptedIsPlaced | worldloader.cpp:184-185 | an accepted chunk's offsets put its whole column inside the world buffer |
| Composite.ChunkAccepted | worldloader.cpp:158-190 | an accepted chunk is placed with the arrays the modes need, and loading it is the full voxel walk at its offsets |
| World.ChunkOffsetsInRange | worldloader.cpp:175-190 | every voxel of a chunk is read from inside the 32768-byte Blocks and 16384-byte light arrays the loader checks for |
| Loader.WorldLoader.LoadChunk | worldloader.cpp:156-225 | the buffers become the spec of loading one file: unchanged for a rejected file, the whole voxel walk for an accepted one |
| Loader.WorldLoader.CompositeChunk | worldloader.cpp:187-224 | the x, z, y loops visit the voxels of the chunk in order, each as CompositeVoxel says |
| Loader.WorldLoader.CompositeVoxel | worldloader.cpp:189-221 | the voxel's block id goes to its rotated terrain cell, and the light takes exactly one branch: torch flood, skylight blend, night copy or nothing |
| Composite.TerrainUpToWritten | worldloader.cpp:187-190 | every voxel visited so far holds its block id in its rotated terrain cell |
| Composite.TerrainUpToKept | worldloader.cpp:187-190 | a terrain cell no voxel of the chunk maps to keeps its value |
| Composite.BlockCellsDiffer | worldloader.cpp:190 | the assumed injectivity of BLOCKROTATED (World.Injective), stated for one pair of voxels: two distinct voxels of the world never share a terrain cell; it is a property of the geometry the loader relies on, not of the loader's code |
| Composite.CopyEffect | worldloader.cpp:187-190 | after the walk every voxel's id is in its rotated cell and no other terrain cell changed |
| Composite.VoxelLight | worldloader.cpp:191-221 | the light one voxel produces: apart from a torch in underground mode it writes at most the voxel's own light byte, nothing on odd layers, and nothing with no lighting mode |
| Composite.Blend | worldloader.cpp:207-218 | each nibble of the blended byte is the larger of the block-light nibble and the sky nibble, the latter dimmed to max(0, v / 3 - 2) at night |
| Composite.NibbleBlend | worldloader.cpp:214-218 | blending one light nibble with one sky nibble gives a nibble, the larger of the two levels |
| Composite.HighNibble | worldloader.cpp:209 | the shifted, masked byte is below 16 and is the byte's high nibble |
| Composite.LowNibble | worldloader.cpp:210 | the masked byte is below 16 and is the byte's low nibble |
| Composite.Pack | worldloader.cpp:218 | packing two nibbles gives a byte whose high and low nibbles are those two |
| Composite.BlendExample | worldloader.cpp:207-218 | light 0x33 against sky 0xCC gives 0xCC by day and 0x33 at night |
| Composite.NoModeNoLight | worldloader.cpp:191-221 | with no lighting mode the voxel walk writes no light |
| Composite.ChunkNoLight | worldloader.cpp:191-221 | with no lighting mode a chunk file writes no light |
| Loader.WorldLoader.FloodTorch | worldloader.cpp:194-206 | the layer loop skips ty below 0, stops at MAPSIZE_Y / 2, and leaves the light as the whole flood of the torch |
| Loader.WorldLoader.FloodLayer | worldloader.cpp:197-205 | one layer of the flood, rows tz skipped below 0 and stopped where the shifted row tz + offsetz leaves the map (the corrected cut, see Findings; the source cuts at local tz >= MAPSIZE_Z) |
| Loader.WorldLoader.FloodRow | worldloader.cpp:200-204 | one row of the flood, points tx skipped below 0 and stopped where the shifted point tx + offsetx leaves the map (the corrected cut, see Findings; the source cuts at local tx >= MAPSIZE_X), each set to 0xFF |
| Composite.TorchWindow | worldloader.cpp:194-202 | the window the loops walk holds exactly the points the flood reaches |
| Composite.TorchWindowFloodable | worldloader.cpp:194-203 | every point of the window of a torch in a placed chunk is a voxel of the world |
| Composite.FloodUpToSets | worldloader.cpp:194-206 | every window point visited so far holds 0xFF |
| Composite.FloodUpToKeeps | worldloader.cpp:194-206 | a light byte no window point maps to keeps its value |
| Composite.FloodEffect | worldloader.cpp:194-206 | the flood sets every point it reaches to 0xFF, at the point shifted by the chunk offsets, and leaves every byte no reached point maps to as it was |
| Composite.ReachesAsWritten | worldloader.cpp:194-203 | the points the source's flood visits: ty in [max(0, y-9), min(y+9, MAPSIZE_Y/2)), local tz and tx within 18 of the torch and cut at 0 and at MAPSIZE_Z / MAPSIZE_X in chunk-local coordinates |
| Composite.Reaches | worldloader.cpp:194-203 | the points the corrected flood visits: as written, but with tz + offsetz and tx + offsetx cut at the map's depth and width |
| Composite.FloodAsWrittenLeavesMap | worldloader.cpp:197-203 | with the x clip in chunk-local coordinates, a torch in the second of two chunk columns writes at world x = 47 of a 32-wide map |
| Composite.ReachesInsideMap | worldloader.cpp:197-203 | the corrected flood reaches exactly the points of the written one whose shifted position is inside the map, and each is a voxel of the world |
| Loader.CalcTerrainSize | worldloader.cpp:227-234 | one byte per voxel, plus the light buffer less its spare byte when a lighting mode is on |
| Loader.WorldLoader.AllocateTerrain | worldloader.cpp:242-255 | a fresh zeroed terrain buffer of one byte per voxel and, with a lighting mode on, a fresh zeroed light buffer of half a byte per voxel plus one |
| Loader.Zeros | worldloader.cpp:247-248 | the buffer holds n bytes, each zero |

## Left out

- Terminal output is not modelled: `printf`, `printProgress`, and the floating-point MiB report of the allocation.
- Memory management is not modelled: `strdup`/`free` of path strings, and allocation failure of `new`. Paths are `seq<string>` and buffers are Dafny arrays.
- Directory iteration (`Dir::open/next/close`) is modelled by `FileSystem.list`. A directory that cannot be opened lists no entries, which gives the same outcome as the source at each of its three `open` calls. The "." and ".." entries are the listing's concern.
- `fileExists`, the NBT parser (`nbt.h`) and the `base10`/`base36`/`clamp` helpers (`helper.h`) are not part of this model. They appear as the `FileSystem` and `Codec` parameters.
- Composite.Clamp: modelled as saturation to [0, 255], since `helper.h` is not part of this model.
- Composite.TORCH: taken as block id 50, since `colors.h` is not part of this model.
- `globals.h` is not part of this model. Its sizes and its `BLOCKROTATED`/`SETLIGHTROTATED` index macros are the abstract `Geometry`. The loader's reliance on them is stated as the `Fits`/`Injective` preconditions, and the buffer is assumed to cover the bounds (`Covers`).
- Integer width is not modelled. `int32_t` and `size_t` arithmetic is on unbounded integers, so coordinates near the int range and buffer sizes that overflow are not covered.
- Loader.ChunkCoords: for a chunk name with no '.' after "c.", the source parses z from one byte past the string's terminator. The model parses the empty text instead.
- Loader.WorldLoader.FloodTorch: the flood keeps the source's other clips as written. A point below local x or z = 0 is skipped rather than moved into the neighbouring chunk, and layers stop at MAPSIZE_Y / 2. Only the upper x/z clip is the corrected one (see Findings), so the source's writes outside the map are not modelled.
- Loader.WorldLoader.FloodLayer: stops at tz + offsetz >= MAPSIZE_Z, the corrected cut, not at the source's chunk-local tz >= MAPSIZE_Z (worldloader.cpp:199); the source's rows beyond the map are not modelled (see Findings).
- Loader.WorldLoader.FloodRow: stops at tx + offsetx >= MAPSIZE_X, the corrected cut, not at the source's chunk-local tx >= MAPSIZE_X (worldloader.cpp:202); the source's points beyond the map are not modelled (see Findings).
- Scan.ScanBounds: the bounds need not be ordered. When no chunk file is found, the code leaves the degenerate sentinel bounds, so from > to on both axes.
- Naming.NameRoundTrip: the two loading strategies are related only through the chunk names and `Naming.GridAt`. No lemma states that the two drivers load the same buffers for the same world.

## Findings

| source | as written | input that shows it | evidently intended | confidence | as-written member | corrected member |
|---|---|---|---|---|---|---|
| worldloader.cpp:197-203 | The torch flood cuts tz and tx at MAPSIZE_Z and MAPSIZE_X in chunk-local coordinates, but writes at tz + offsetz and tx + offsetx. | Bounds with two chunk columns (fromX = 0, toX = 2), MAPSIZE_X = 32, CHUNKSIZE_X = 16. A torch at local x = 15 of chunk x = 1 floods tx = 31 < 32, which is written at world x = 47, outside the map. | Cut against the map in world coordinates: tx + offsetx < MAPSIZE_X and tz + offsetz < MAPSIZE_Z. Every flooded point is then a voxel of the world. | medium, not executed | Composite.FloodAsWrittenLeavesMap | Composite.ReachesInsideMap |
