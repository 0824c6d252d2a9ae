/**
  What a scan of a world directory finds: the chunk files of the two-level
  group/shard tree in traversal order, and the bounds folded over their names.
 */
module Scan {
  import opened World

  /** A chunk file found by the scan: its full path and the coordinates in its name. */
  datatype Found = Found(path: string, x: int, z: int)

  /** Sentinel bounds a scan starts from, before any chunk is seen. */
  const Sentinel := Bounds(10000000, 10000000, -10000000, -10000000)

  /** A shard entry is a chunk file when it is not a directory and its name starts with "c.". */
  predicate IsChunkFile(e: Entry)
  {
    !e.isDir && |e.name| >= 2 && e.name[0] == 'c' && e.name[1] == '.'
  }

  /** The text after the first '.' of s; empty when s has none. */
  function AfterDot(s: string): (r: string)
    ensures |r| <= |s|
  {
    if s == [] then [] else if s[0] == '.' then s[1..] else AfterDot(s[1..])
  }

  /** AfterDot is the suffix behind the first dot, wherever that dot is. */
  lemma {:induction false} AfterDotAt(s: string, i: nat)
    requires i <= |s| && forall k :: 0 <= k < i ==> s[k] != '.'
    ensures i < |s| && s[i] == '.' ==> AfterDot(s) == s[i + 1..]
    ensures i == |s| ==> AfterDot(s) == []
  {
    if i > 0 {
      AfterDotAt(s[1..], i - 1);
    }
  }

  /** The record the scan keeps for chunk file `name` in shard directory `path`. */
  function ChunkFound(codec: Codec, path: string, name: string): Found
    requires |name| >= 2
  {
    Found(path + "/" + name, codec.base10(name[2..]), codec.base10(AfterDot(name[2..])))
  }

  /** Names of the subdirectories in a listing, in listing order. */
  function DirNames(entries: seq<Entry>): (r: seq<string>)
    ensures |r| <= |entries|
  {
    if entries == [] then []
    else
      var last := entries[|entries| - 1];
      DirNames(entries[..|entries| - 1]) + (if last.isDir then [last.name] else [])
  }

  /** A listing has no subdirectory name exactly when none of its entries is a directory. */
  lemma {:induction false} DirNamesEmpty(entries: seq<Entry>)
    ensures DirNames(entries) == [] <==> forall k :: 0 <= k < |entries| ==> !entries[k].isDir
  {
    if entries != [] {
      var init := entries[..|entries| - 1];
      DirNamesEmpty(init);
      assert forall k :: 0 <= k < |init| ==> init[k] == entries[k];
    }
  }

  /** Chunk files of one shard directory `path` with listing `entries`. */
  function ShardChunks(codec: Codec, path: string, entries: seq<Entry>): seq<Found>
  {
    if entries == [] then []
    else
      var last := entries[|entries| - 1];
      ShardChunks(codec, path, entries[..|entries| - 1])
      + (if IsChunkFile(last) then [ChunkFound(codec, path, last.name)] else [])
  }

  /** Chunk files under entry e of group directory `group`: a shard's chunks, or none for a file. */
  function EntryChunks(fs: FileSystem, codec: Codec, group: string, e: Entry): seq<Found>
  {
    if e.isDir then ShardChunks(codec, group + "/" + e.name, fs.list(group + "/" + e.name)) else []
  }

  /** Chunk files of one group directory `group` with listing `entries`: its shards in order. */
  function GroupChunks(fs: FileSystem, codec: Codec, group: string, entries: seq<Entry>): seq<Found>
  {
    if entries == [] then []
    else
      GroupChunks(fs, codec, group, entries[..|entries| - 1]) + EntryChunks(fs, codec, group, entries[|entries| - 1])
  }

  /** Listing one more entry of a group appends that entry's chunks. */
  lemma GroupChunksStep(fs: FileSystem, codec: Codec, group: string, entries: seq<Entry>, k: nat)
    requires k < |entries|
    ensures GroupChunks(fs, codec, group, entries[..k + 1])
      == GroupChunks(fs, codec, group, entries[..k]) + EntryChunks(fs, codec, group, entries[k])
  {
    assert entries[..k + 1][..k] == entries[..k];
  }

  /** Chunk files of the whole world under `base` (ending in '/'), group by group. */
  function WorldChunks(fs: FileSystem, codec: Codec, base: string, groups: seq<string>): seq<Found>
  {
    if groups == [] then []
    else
      var group := base + groups[|groups| - 1];
      WorldChunks(fs, codec, base, groups[..|groups| - 1]) + GroupChunks(fs, codec, group, fs.list(group))
  }

  function Paths(found: seq<Found>): (r: seq<string>)
    ensures |r| == |found| && forall k :: 0 <= k < |found| ==> r[k] == found[k].path
  {
    seq(|found|, k requires 0 <= k < |found| => found[k].path)
  }

  /** Paths of two runs of chunks one after the other. */
  lemma PathsAppend(s: seq<Found>, t: seq<Found>)
    ensures Paths(s + t) == Paths(s) + Paths(t)
  {
    assert forall k :: 0 <= k < |s + t| ==> Paths(s + t)[k] == (Paths(s) + Paths(t))[k];
  }

  /** A list of paths extended by two runs of chunks one after the other. */
  lemma PathsExtend(prefix: seq<string>, s: seq<Found>, t: seq<Found>)
    ensures prefix + Paths(s + t) == (prefix + Paths(s)) + Paths(t)
  {
    PathsAppend(s, t);
    assert prefix + (Paths(s) + Paths(t)) == (prefix + Paths(s)) + Paths(t);
  }

  /**
    Bounds after taking one more chunk into account: each side widens independently,
    the lower sides to the minimum and the upper sides to the maximum.
   */
  function Widen(b: Bounds, f: Found): (r: Bounds)
    ensures r.fromX <= b.fromX && r.fromX <= f.x && (r.fromX == b.fromX || r.fromX == f.x)
    ensures r.fromZ <= b.fromZ && r.fromZ <= f.z && (r.fromZ == b.fromZ || r.fromZ == f.z)
    ensures r.toX >= b.toX && r.toX >= f.x && (r.toX == b.toX || r.toX == f.x)
    ensures r.toZ >= b.toZ && r.toZ >= f.z && (r.toZ == b.toZ || r.toZ == f.z)
  {
    Bounds(
      if f.x < b.fromX then f.x else b.fromX,
      if f.z < b.fromZ then f.z else b.fromZ,
      if f.x > b.toX then f.x else b.toX,
      if f.z > b.toZ then f.z else b.toZ)
  }

  /** Bounds after taking all of `found` into account, in order, starting from b. */
  function Extent(b: Bounds, found: seq<Found>): Bounds
  {
    if found == [] then b else Widen(Extent(b, found[..|found| - 1]), found[|found| - 1])
  }

  /** Folding two runs of chunks one after the other is folding their concatenation. */
  lemma {:induction false} ExtentAppend(b: Bounds, s: seq<Found>, t: seq<Found>)
    ensures Extent(Extent(b, s), t) == Extent(b, s + t)
  {
    if t != [] {
      ExtentAppend(b, s, t[..|t| - 1]);
      assert (s + t)[..|s + t| - 1] == s + t[..|t| - 1];
      assert (s + t)[|s + t| - 1] == t[|t| - 1];
      calc {
        Extent(Extent(b, s), t);
        Widen(Extent(Extent(b, s), t[..|t| - 1]), t[|t| - 1]);
        Widen(Extent(b, s + t[..|t| - 1]), t[|t| - 1]);
        Extent(b, s + t);
      }
    } else {
      assert s + t == s;
    }
  }

  /**
    The folded bounds are the minimum and maximum of the start value and every chunk
    coordinate: below or at each, and equal to the start or to one of them.
   */
  lemma {:induction false} ExtentIsMinMax(b: Bounds, found: seq<Found>)
    ensures var e := Extent(b, found);
      && e.fromX <= b.fromX && e.fromZ <= b.fromZ && e.toX >= b.toX && e.toZ >= b.toZ
      && (forall k :: 0 <= k < |found| ==>
            e.fromX <= found[k].x <= e.toX && e.fromZ <= found[k].z <= e.toZ)
      && (e.fromX == b.fromX || exists k :: 0 <= k < |found| && e.fromX == found[k].x)
      && (e.fromZ == b.fromZ || exists k :: 0 <= k < |found| && e.fromZ == found[k].z)
      && (e.toX == b.toX || exists k :: 0 <= k < |found| && e.toX == found[k].x)
      && (e.toZ == b.toZ || exists k :: 0 <= k < |found| && e.toZ == found[k].z)
  {
    if found != [] {
      var init := found[..|found| - 1];
      ExtentIsMinMax(b, init);
      var e := Extent(b, found);
      assert forall k :: 0 <= k < |init| ==> init[k] == found[k];
      if e.fromX != b.fromX && e.fromX != found[|found| - 1].x {
        var k :| 0 <= k < |init| && Extent(b, init).fromX == init[k].x;
        assert e.fromX == found[k].x;
      }
      if e.fromZ != b.fromZ && e.fromZ != found[|found| - 1].z {
        var k :| 0 <= k < |init| && Extent(b, init).fromZ == init[k].z;
        assert e.fromZ == found[k].z;
      }
      if e.toX != b.toX && e.toX != found[|found| - 1].x {
        var k :| 0 <= k < |init| && Extent(b, init).toX == init[k].x;
        assert e.toX == found[k].x;
      }
      if e.toZ != b.toZ && e.toZ != found[|found| - 1].z {
        var k :| 0 <= k < |init| && Extent(b, init).toZ == init[k].z;
        assert e.toZ == found[k].z;
      }
    }
  }

  /** Upper bounds made exclusive, as the scan leaves them. */
  function Exclusive(b: Bounds): Bounds
  {
    Bounds(b.fromX, b.fromZ, b.toX + 1, b.toZ + 1)
  }

  /**
    What a finished scan reports: every chunk found lies inside the half-open bounds;
    with no chunk the bounds are the degenerate (10000000, -9999999) on both axes;
    and when every coordinate lies within the sentinels, fromX/fromZ is attained by
    some chunk and toX/toZ is one past a coordinate some chunk has.
   */
  lemma ScanBounds(found: seq<Found>)
    ensures var e := Exclusive(Extent(Sentinel, found));
      && (forall k :: 0 <= k < |found| ==> Contains(e, found[k].x, found[k].z))
      && (found == [] ==> e == Bounds(10000000, 10000000, -9999999, -9999999))
      && (found != [] && (forall k :: 0 <= k < |found| ==>
            -10000000 <= found[k].x <= 10000000 && -10000000 <= found[k].z <= 10000000) ==>
            (exists k :: 0 <= k < |found| && e.fromX == found[k].x)
            && (exists k :: 0 <= k < |found| && e.fromZ == found[k].z)
            && (exists k :: 0 <= k < |found| && e.toX == found[k].x + 1)
            && (exists k :: 0 <= k < |found| && e.toZ == found[k].z + 1))
  {
    ExtentIsMinMax(Sentinel, found);
    var e := Extent(Sentinel, found);
    if found != [] && (forall k :: 0 <= k < |found| ==>
        -10000000 <= found[k].x <= 10000000 && -10000000 <= found[k].z <= 10000000) {
      if e.fromX == Sentinel.fromX {
        assert found[0].x >= e.fromX;
        assert e.fromX == found[0].x;
      }
      if e.fromZ == Sentinel.fromZ {
        assert e.fromZ == found[0].z;
      }
      if e.toX == Sentinel.toX {
        assert e.toX == found[0].x;
      }
      if e.toZ == Sentinel.toZ {
        assert e.toZ == found[0].z;
      }
    }
  }
}
