/**
  The chunk file paths the loader builds from chunk coordinates when it loads a
  rectangle directly: group and shard directories named by the coordinates
  modulo 64, and a file named by the coordinates, all in base 36.
 */
module Naming {
  import opened World
  import opened Scan

  /** C's quotient on int: truncated toward zero. */
  function CQuot(a: int, n: int): int
    requires n > 0
  {
    if a >= 0 then a / n else -((-a) / n)
  }

  /** C's remainder on int: what is left over by the truncated quotient, so it takes the sign of a. */
  function CRem(a: int, n: int): (r: int)
    requires n > 0
    ensures a >= 0 ==> 0 <= r < n
    ensures a < 0 ==> -n < r <= 0
    ensures CQuot(a, n) * n + r == a
  {
    if a >= 0 then a % n
    else
      var q, m := (-a) / n, (-a) % n;
      assert q * n + m == -a;
      assert -q * n == -(q * n);
      -m
  }

  /**
    For every coordinate not below -640000 the shifted remainder the loader takes
    is the residue of the coordinate modulo 64; below that it goes negative.
   */
  lemma ShardIndex(c: int)
    ensures c >= -640000 ==> CRem(c + 640000, 64) == c % 64
    ensures c < -640000 ==> CRem(c + 640000, 64) <= 0
  {
    if c >= -640000 {
      assert 640000 == 64 * 10000;
      assert (c + 64 * 10000) % 64 == c % 64;
    }
  }

  /** The file name of the chunk at (x, z): a chunk file name ("c." first) ending in ".dat". */
  function ChunkName(codec: Codec, x: int, z: int): (r: string)
    ensures |r| >= 6 && r[0] == 'c' && r[1] == '.' && r[|r| - 4..] == ".dat"
  {
    "c." + codec.base36(x) + "." + codec.base36(z) + ".dat"
  }

  /** Path of the chunk at (x, z) under a world path that ends in '/': the path, then the directories, then the name. */
  function ChunkPath(codec: Codec, path: string, x: int, z: int): (r: string)
    ensures |r| >= |path| + |ChunkName(codec, x, z)|
    ensures r[..|path|] == path && r[|r| - |ChunkName(codec, x, z)|..] == ChunkName(codec, x, z)
  {
    path + codec.base36(CRem(x + 640000, 64)) + "/" + codec.base36(CRem(z + 640000, 64)) + "/" + ChunkName(codec, x, z)
  }

  /** The world path with a trailing '/' added when it lacks one. */
  function Slashed(path: string): (r: string)
    requires path != []
    ensures r != [] && r[|r| - 1] == '/'
    ensures r == path || r == path + "/"
    ensures path[|path| - 1] == '/' <==> r == path
  {
    if path[|path| - 1] != '/' then path + "/" else path
  }

  /**
    The base-36 conversions read back what they write: a number's text has no '.',
    and parsing it stops at a '.' or the end of the text.
   */
  ghost predicate Inverse(codec: Codec)
  {
    && (forall n: int, k :: 0 <= k < |codec.base36(n)| ==> codec.base36(n)[k] != '.')
    && (forall n: int, rest: string :: (rest == [] || rest[0] == '.') ==> codec.base10(codec.base36(n) + rest) == n)
  }

  /**
    The file name a direct load asks for is one the directory scan takes for a chunk
    file and parses back to the same coordinates. Only the name is related: the
    group and shard directories the scan walks are not tied to the modulo-64 naming.
   */
  lemma NameRoundTrip(codec: Codec, dir: string, x: int, z: int)
    requires Inverse(codec)
    ensures |ChunkName(codec, x, z)| >= 2
    ensures IsChunkFile(Entry(ChunkName(codec, x, z), false))
    ensures ChunkFound(codec, dir, ChunkName(codec, x, z)) == Found(dir + "/" + ChunkName(codec, x, z), x, z)
  {
    var name := ChunkName(codec, x, z);
    var sx, sz := codec.base36(x), codec.base36(z);
    var tail := name[2..];
    assert tail == sx + ("." + sz + ".dat");
    assert tail[|sx|] == '.';
    assert forall k :: 0 <= k < |sx| ==> tail[k] == sx[k];
    AfterDotAt(tail, |sx|);
    assert AfterDot(tail) == sz + ".dat";
    assert codec.base10(sx + ("." + sz + ".dat")) == x;
    var ext := ".dat";
    assert ext[0] == '.';
    assert codec.base10(sz + ext) == z;
  }

  /** The n paths of one row z of a rectangle, x running up from fromX. */
  function Row(codec: Codec, path: string, z: int, fromX: int, n: nat): seq<string>
  {
    seq(n, k requires 0 <= k < n => ChunkPath(codec, path, fromX + k, z))
  }

  /** One more chunk of a row is the path of the next x. */
  lemma RowStep(codec: Codec, path: string, z: int, fromX: int, n: nat)
    ensures Row(codec, path, z, fromX, n + 1) == Row(codec, path, z, fromX, n) + [ChunkPath(codec, path, fromX + n, z)]
  {
  }

  function Width(b: Bounds): nat
  {
    if b.toX > b.fromX then b.toX - b.fromX else 0
  }

  function Height(b: Bounds): nat
  {
    if b.toZ > b.fromZ then b.toZ - b.fromZ else 0
  }

  /** The paths of the first `rows` rows of the bounds, in the order they are loaded. */
  function Grid(codec: Codec, path: string, b: Bounds, rows: nat): seq<string>
  {
    if rows == 0 then []
    else Grid(codec, path, b, rows - 1) + Row(codec, path, b.fromZ + rows - 1, b.fromX, Width(b))
  }

  /** Loading row z after the rows below it extends the grid by that row. */
  lemma GridStep(codec: Codec, path: string, b: Bounds, z: int)
    requires b.fromZ <= z
    ensures Grid(codec, path, b, z + 1 - b.fromZ) == Grid(codec, path, b, z - b.fromZ) + Row(codec, path, z, b.fromX, Width(b))
  {
    var n: nat := z + 1 - b.fromZ;
    assert b.fromZ + n - 1 == z && n - 1 == z - b.fromZ;
  }

  /** The first `rows` rows hold rows * width paths. */
  lemma {:induction false} GridLength(codec: Codec, path: string, b: Bounds, rows: nat)
    ensures |Grid(codec, path, b, rows)| == rows * Width(b)
  {
    if rows > 0 {
      GridLength(codec, path, b, rows - 1);
      assert (rows - 1) * Width(b) + Width(b) == rows * Width(b);
    }
  }

  /**
    A direct load of the bounds asks for every chunk of the rectangle exactly once,
    row by row: position (z - fromZ) * width + (x - fromX) holds the path of (x, z).
   */
  lemma {:induction false} GridAt(codec: Codec, path: string, b: Bounds, rows: nat, x: int, z: int)
    requires b.fromX <= x < b.toX && b.fromZ <= z < b.fromZ + rows
    ensures 0 <= (z - b.fromZ) * Width(b) + (x - b.fromX) < |Grid(codec, path, b, rows)|
    ensures Grid(codec, path, b, rows)[(z - b.fromZ) * Width(b) + (x - b.fromX)] == ChunkPath(codec, path, x, z)
  {
    var w := Width(b);
    var prev := Grid(codec, path, b, rows - 1);
    GridLength(codec, path, b, rows - 1);
    if z < b.fromZ + rows - 1 {
      GridAt(codec, path, b, rows - 1, x, z);
    } else {
      assert (z - b.fromZ) * w == (rows - 1) * w;
    }
  }
}
