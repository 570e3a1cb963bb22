/**
 * The vertex and index buffers that ConstructSphereMesh (engine/renderer/primitives/uvsphere.cpp)
 * builds for a UV sphere drawn as one triangle strip. The vectors filled by push_back are
 * sequences; what each loop nest pushes is specified as a flattening (Seqs.Concat) of the
 * chunks one iteration pushes. Vertex coordinates go through the cos and sin of a MathLib.
 */
module UVSphere {
  import opened CMath
  import opened Glm
  import opened Seqs

  /** The PI written in the function itself. */
  const SPHERE_PI: real := 3.14159265359
  /** Unsigned int arithmetic of the index computation stays below this bound. */
  const UINT_LIMIT: int := 0x1_0000_0000
  /** The largest value of the `int` segment counts; `x_segments + 1` is computed in int. */
  const INT_MAX: int := 0x7FFF_FFFF
  const GL_TRIANGLE_STRIP: int := 5

  // ---------------------------------------------------------------------------
  // Vertices

  /**
   * The point pushed at column x of row y: (cos 2πu sin πv, cos πv, sin 2πu sin πv). With
   * sin² + cos² = 1 it lies on the unit sphere, and so does the normal, which is the same vector.
   */
  function Position(m: MathLib, xs: nat, ys: nat, x: nat, y: nat): (pos: Vec3)
    requires xs > 0 && ys > 0
    ensures Pythagorean(m) ==> pos.x * pos.x + pos.y * pos.y + pos.z * pos.z == 1.0
  {
    var xSegment := x as real / xs as real;
    var ySegment := y as real / ys as real;
    var ca, sa := m.cos(xSegment * SPHERE_PI * 2.0), m.sin(xSegment * SPHERE_PI * 2.0);
    var cb, sb := m.cos(ySegment * SPHERE_PI), m.sin(ySegment * SPHERE_PI);
    assert Pythagorean(m) ==> (ca * sb) * (ca * sb) + cb * cb + (sa * sb) * (sa * sb) == 1.0 by {
      if Pythagorean(m) {
        assert sa * sa + ca * ca == 1.0;
        assert sb * sb + cb * cb == 1.0;
        assert (ca * sb) * (ca * sb) + (sa * sb) * (sa * sb) == (sa * sa + ca * ca) * (sb * sb);
      }
    }
    Vec3(ca * sb, cb, sa * sb)
  }

  /** Position written out as the column loop computes it. */
  lemma PositionUnfolds(m: MathLib, xs: nat, ys: nat, x: nat, y: nat)
    requires xs > 0 && ys > 0
    ensures var xSegment, ySegment := x as real / xs as real, y as real / ys as real;
            Position(m, xs, ys, x, y)
              == Vec3(m.cos(xSegment * SPHERE_PI * 2.0) * m.sin(ySegment * SPHERE_PI),
                      m.cos(ySegment * SPHERE_PI),
                      m.sin(xSegment * SPHERE_PI * 2.0) * m.sin(ySegment * SPHERE_PI))
  {
  }

  /**
   * The texture coordinate pushed at column x of row y: (x / xs, y / ys), non-negative, and
   * at most 1 in each coordinate that stays within its segment count.
   */
  function TexCoord(xs: nat, ys: nat, x: nat, y: nat): (t: Vec2)
    requires xs > 0 && ys > 0
    ensures t.x * xs as real == x as real && t.y * ys as real == y as real
    ensures 0.0 <= t.x && 0.0 <= t.y
    ensures x <= xs ==> t.x <= 1.0
    ensures y <= ys ==> t.y <= 1.0
  {
    Vec2(x as real / xs as real, y as real / ys as real)
  }

  /** One row of the vertex grid. The column loop is bounded by y_segments, so a row has ys + 1 points. */
  function PositionRow(m: MathLib, xs: nat, ys: nat, y: nat): (row: seq<Vec3>)
    requires xs > 0 && ys > 0
    ensures |row| == ys + 1
  {
    seq(ys + 1, x requires 0 <= x => Position(m, xs, ys, x, y))
  }

  function TexRow(xs: nat, ys: nat, y: nat): (row: seq<Vec2>)
    requires xs > 0 && ys > 0
    ensures |row| == ys + 1
  {
    seq(ys + 1, x requires 0 <= x => TexCoord(xs, ys, x, y))
  }

  /** The whole `positions` vector: the ys + 1 rows one after another. */
  function Positions(m: MathLib, xs: nat, ys: nat): seq<Vec3>
    requires xs > 0 && ys > 0
  {
    Concat(seq(ys + 1, y requires 0 <= y => PositionRow(m, xs, ys, y)))
  }

  /** The whole `uv` vector. */
  function TexCoords(xs: nat, ys: nat): seq<Vec2>
    requires xs > 0 && ys > 0
  {
    Concat(seq(ys + 1, y requires 0 <= y => TexRow(xs, ys, y)))
  }

  /** The column loop of row y: one point, one texture coordinate and one normal per column. */
  method PushGridRow(m: MathLib, xs: nat, ys: nat, y: nat, positions0: seq<Vec3>, uv0: seq<Vec2>, normals0: seq<Vec3>)
    returns (positions: seq<Vec3>, uv: seq<Vec2>, normals: seq<Vec3>)
    requires xs > 0 && ys > 0
    ensures positions == positions0 + PositionRow(m, xs, ys, y)
    ensures uv == uv0 + TexRow(xs, ys, y)
    ensures normals == normals0 + PositionRow(m, xs, ys, y)
  {
    positions, uv, normals := positions0, uv0, normals0;
    ghost var row, texRow := PositionRow(m, xs, ys, y), TexRow(xs, ys, y);
    for x := 0 to ys + 1
      invariant positions == positions0 + row[..x]
      invariant uv == uv0 + texRow[..x]
      invariant normals == normals0 + row[..x]
    {
      var xSegment := x as real / xs as real;
      var ySegment := y as real / ys as real;
      var xPos := m.cos(xSegment * SPHERE_PI * 2.0) * m.sin(ySegment * SPHERE_PI);
      var yPos := m.cos(ySegment * SPHERE_PI);
      var zPos := m.sin(xSegment * SPHERE_PI * 2.0) * m.sin(ySegment * SPHERE_PI);
      PositionUnfolds(m, xs, ys, x, y);
      assert Vec3(xPos, yPos, zPos) == row[x];
      assert Vec2(xSegment, ySegment) == texRow[x];
      positions := positions + [Vec3(xPos, yPos, zPos)];
      uv := uv + [Vec2(xSegment, ySegment)];
      normals := normals + [Vec3(xPos, yPos, zPos)];
      TakeOneMore(row, x);
      TakeOneMore(texRow, x);
    }
    assert row[..ys + 1] == row;
    assert texRow[..ys + 1] == texRow;
  }

  /** The first loop nest: positions, uv and normals, one entry of each per grid point. */
  method BuildVertices(m: MathLib, xs: nat, ys: nat) returns (positions: seq<Vec3>, uv: seq<Vec2>, normals: seq<Vec3>)
    requires xs > 0 && ys > 0
    ensures positions == Positions(m, xs, ys)
    ensures uv == TexCoords(xs, ys)
    ensures normals == positions
  {
    positions, uv, normals := [], [], [];
    for y := 0 to ys + 1
      invariant positions == normals == Concat(seq(y, y' requires 0 <= y' => PositionRow(m, xs, ys, y')))
      invariant uv == Concat(seq(y, y' requires 0 <= y' => TexRow(xs, ys, y')))
    {
      ghost var rows := seq(y, y' requires 0 <= y' => PositionRow(m, xs, ys, y'));
      ghost var texRows := seq(y, y' requires 0 <= y' => TexRow(xs, ys, y'));
      positions, uv, normals := PushGridRow(m, xs, ys, y, positions, uv, normals);
      assert seq(y + 1, y' requires 0 <= y' => PositionRow(m, xs, ys, y')) == rows + [PositionRow(m, xs, ys, y)];
      assert seq(y + 1, y' requires 0 <= y' => TexRow(xs, ys, y')) == texRows + [TexRow(xs, ys, y)];
      ConcatSnoc(rows, PositionRow(m, xs, ys, y));
      ConcatSnoc(texRows, TexRow(xs, ys, y));
    }
  }

  /** positions, uv and normals each hold (ys + 1)² entries, x_segments notwithstanding. */
  lemma VertexCounts(m: MathLib, xs: nat, ys: nat)
    requires xs > 0 && ys > 0
    ensures |Positions(m, xs, ys)| == (ys + 1) * (ys + 1)
    ensures |TexCoords(xs, ys)| == (ys + 1) * (ys + 1)
  {
    ConcatUniformLength(seq(ys + 1, y requires 0 <= y => PositionRow(m, xs, ys, y)), ys + 1);
    ConcatUniformLength(seq(ys + 1, y requires 0 <= y => TexRow(xs, ys, y)), ys + 1);
  }

  /** Entry y * (ys + 1) + x is the point and the texture coordinate of column x, row y. */
  lemma VertexAt(m: MathLib, xs: nat, ys: nat, x: nat, y: nat)
    requires xs > 0 && ys > 0 && x <= ys && y <= ys
    ensures y * (ys + 1) + x < |Positions(m, xs, ys)|
    ensures y * (ys + 1) + x < |TexCoords(xs, ys)|
    ensures Positions(m, xs, ys)[y * (ys + 1) + x] == Position(m, xs, ys, x, y)
    ensures TexCoords(xs, ys)[y * (ys + 1) + x] == Vec2(x as real / xs as real, y as real / ys as real)
  {
    var rows := seq(ys + 1, y' requires 0 <= y' => PositionRow(m, xs, ys, y'));
    var texRows := seq(ys + 1, y' requires 0 <= y' => TexRow(xs, ys, y'));
    ConcatUniformAt(rows, ys + 1, y, x);
    ConcatUniformAt(texRows, ys + 1, y, x);
    assert (ys + 1) * y == y * (ys + 1);
  }

  // ---------------------------------------------------------------------------
  // Strip indices

  /** Index row * n + col of a grid n wide names row `row`, column `col`. */
  lemma GridCell(n: nat, row: nat, col: nat)
    requires col < n
    ensures (row * n + col) / n == row && (row * n + col) % n == col
  {
    var k := row * n + col;
    var q, r := k / n, k % n;
    assert n * q + r == n * row + col;
    if q > row {
      MulMonotone(n, row + 1, q);
    } else if q < row {
      MulMonotone(n, q + 1, row);
    }
  }

  /**
   * The two indices pushed for the j-th column visited in strip row y, decoded as (row,
   * column) of the grid xs + 1 wide: both name column j on an even row, visited left to
   * right, and column xs - j on an odd one, visited right to left; the upper row y comes
   * first on an even row, the lower row y + 1 on an odd one.
   */
  function StripPair(xs: nat, y: nat, j: nat): (pair: seq<nat>)
    requires j <= xs
    ensures |pair| == 2
    ensures pair[0] % (xs + 1) == pair[1] % (xs + 1) == if y % 2 == 0 then j else xs - j
    ensures pair[0] / (xs + 1) == if y % 2 == 0 then y else y + 1
    ensures pair[1] / (xs + 1) == if y % 2 == 0 then y + 1 else y
  {
    var x := if y % 2 == 0 then j else xs - j;
    GridCell(xs + 1, y, x);
    GridCell(xs + 1, y + 1, x);
    if y % 2 == 0 then [y * (xs + 1) + x, (y + 1) * (xs + 1) + x]
    else [(y + 1) * (xs + 1) + x, y * (xs + 1) + x]
  }

  /** One strip row: a pair for each of its xs + 1 columns. */
  function StripRow(xs: nat, y: nat): (row: seq<nat>)
    ensures |row| == 2 * (xs + 1)
  {
    var pairs := seq(xs + 1, j requires 0 <= j <= xs => StripPair(xs, y, j));
    ConcatUniformLength(pairs, 2);
    Concat(pairs)
  }

  /** The whole `indices` vector: ys strip rows, 2 (xs + 1) ys indices in all. */
  function StripIndices(xs: nat, ys: nat): (indices: seq<nat>)
    ensures |indices| == 2 * (xs + 1) * ys
  {
    var rows := seq(ys, y requires 0 <= y => StripRow(xs, y));
    ConcatUniformLength(rows, 2 * (xs + 1));
    Concat(rows)
  }

  /** An even strip row: x from 0 up to xs, the upper vertex row first. */
  method PushForwardRow(xs: nat, y: nat, indices0: seq<nat>) returns (indices: seq<nat>)
    requires y % 2 == 0
    ensures indices == indices0 + StripRow(xs, y)
  {
    indices := indices0;
    ghost var pairs := seq(xs + 1, j requires 0 <= j <= xs => StripPair(xs, y, j));
    for x := 0 to xs + 1
      invariant indices == indices0 + Concat(pairs[..x])
    {
      indices := indices + [y * (xs + 1) + x];
      indices := indices + [(y + 1) * (xs + 1) + x];
      assert pairs[x] == [y * (xs + 1) + x, (y + 1) * (xs + 1) + x];
      ConcatTakeOneMore(pairs, x);
    }
    assert pairs[..xs + 1] == pairs;
  }

  /** An odd strip row: x from xs down to 0, the lower vertex row first. */
  method PushBackwardRow(xs: nat, y: nat, indices0: seq<nat>) returns (indices: seq<nat>)
    requires y % 2 == 1
    ensures indices == indices0 + StripRow(xs, y)
  {
    indices := indices0;
    ghost var pairs := seq(xs + 1, j requires 0 <= j <= xs => StripPair(xs, y, j));
    var x: int := xs;
    while x >= 0
      invariant -1 <= x <= xs
      invariant indices == indices0 + Concat(pairs[..xs - x])
      decreases x
    {
      indices := indices + [(y + 1) * (xs + 1) + x];
      indices := indices + [y * (xs + 1) + x];
      ghost var j := xs - x;
      assert pairs[j] == [(y + 1) * (xs + 1) + x, y * (xs + 1) + x];
      ConcatTakeOneMore(pairs, j);
      assert xs - (x - 1) == j + 1;
      x := x - 1;
    }
    assert pairs[..xs + 1] == pairs;
  }

  /**
   * The second loop nest. Its int `x_segments + 1` does not overflow while xs < INT_MAX, and
   * its unsigned index arithmetic does not wrap while the grid has at most 2^32 vertices.
   */
  method BuildStripIndices(xs: nat, ys: nat) returns (indices: seq<nat>)
    requires xs < INT_MAX && (xs + 1) * (ys + 1) <= UINT_LIMIT
    ensures indices == StripIndices(xs, ys)
  {
    indices := [];
    for y := 0 to ys
      invariant indices == Concat(seq(y, y' requires 0 <= y' => StripRow(xs, y')))
    {
      ghost var rows := seq(y, y' requires 0 <= y' => StripRow(xs, y'));
      if y % 2 == 0 {
        indices := PushForwardRow(xs, y, indices);
      } else {
        indices := PushBackwardRow(xs, y, indices);
      }
      assert seq(y + 1, y' requires 0 <= y' => StripRow(xs, y')) == rows + [StripRow(xs, y)];
      ConcatSnoc(rows, StripRow(xs, y));
    }
  }

  /** The j-th column visited in row y sits at entries 2 (xs + 1) y + 2 j and the one after it. */
  lemma StripAt(xs: nat, ys: nat, y: nat, j: nat, c: nat, k: nat)
    requires y < ys && j <= xs && c < 2 && k == 2 * (xs + 1) * y + 2 * j + c
    ensures k < |StripIndices(xs, ys)|
    ensures StripIndices(xs, ys)[k] == StripPair(xs, y, j)[c]
  {
    var rows := seq(ys, y' requires 0 <= y' => StripRow(xs, y'));
    var pairs := seq(xs + 1, j' requires 0 <= j' <= xs => StripPair(xs, y, j'));
    ConcatUniformAt(pairs, 2, j, c);
    ConcatUniformAt(rows, 2 * (xs + 1), y, 2 * j + c);
  }

  /** Both entries of a pair of row y < ys name a vertex of the (ys + 1) × (xs + 1) grid. */
  lemma StripPairBound(xs: nat, ys: nat, y: nat, j: nat, c: nat)
    requires y < ys && j <= xs && c < 2
    ensures StripPair(xs, y, j)[c] < (ys + 1) * (xs + 1)
  {
    var n := xs + 1;
    assert StripPair(xs, y, j)[c] <= (y + 1) * n + xs;
    MulMonotone(n, y + 2, ys + 1);
    assert n * (y + 2) == (y + 1) * n + n;
    assert n * (ys + 1) == (ys + 1) * n;
  }

  /** Euclidean division of k by len. */
  lemma Divide(len: nat, k: nat) returns (q: nat, r: nat)
    requires len > 0
    ensures r < len && k == len * q + r
  {
    q, r := k / len, k % len;
  }

  /** Entry k of ys strip rows belongs to row y, column j, slot c. */
  lemma StripLocate(xs: nat, ys: nat, k: nat) returns (y: nat, j: nat, c: nat)
    requires k < 2 * (xs + 1) * ys
    ensures y < ys && j <= xs && c < 2 && k == 2 * (xs + 1) * y + 2 * j + c
  {
    var len := 2 * (xs + 1);
    var t;
    y, t := Divide(len, k);
    j, c := Divide(2, t);
    if y >= ys {
      MulMonotone(len, ys, y);
    }
  }

  /** Every entry names a vertex of the (ys + 1) × (xs + 1) grid the strip assumes. */
  lemma StripIndexBound(xs: nat, ys: nat, k: nat)
    requires k < |StripIndices(xs, ys)|
    ensures StripIndices(xs, ys)[k] < (ys + 1) * (xs + 1)
  {
    var y, j, c := StripLocate(xs, ys, k);
    StripAt(xs, ys, y, j, c, k);
    StripPairBound(xs, ys, y, j, c);
  }

  /** The last strip row always reaches the bottom-right vertex (xs, ys) of the grid. */
  lemma StripCorner(xs: nat, ys: nat) returns (k: nat)
    requires ys > 0
    ensures k < |StripIndices(xs, ys)| && StripIndices(xs, ys)[k] == ys * (xs + 1) + xs
  {
    var y := ys - 1;
    var j, c := if y % 2 == 0 then xs else 0, if y % 2 == 0 then 1 else 0;
    k := 2 * (xs + 1) * y + 2 * j + c;
    StripAt(xs, ys, y, j, c, k);
  }

  /** With x_segments <= y_segments every strip index names an entry of `positions`. */
  lemma StripInBoundsNarrow(m: MathLib, xs: nat, ys: nat, k: nat)
    requires 0 < xs <= ys && k < |StripIndices(xs, ys)|
    ensures StripIndices(xs, ys)[k] < |Positions(m, xs, ys)|
  {
    VertexCounts(m, xs, ys);
    StripIndexBound(xs, ys, k);
    MulMonotone(ys + 1, xs + 1, ys + 1);
    assert (ys + 1) * (xs + 1) <= (ys + 1) * (ys + 1);
  }

  /** With x_segments > y_segments the corner index lies past the end of `positions`. */
  lemma StripOutOfBoundsWide(m: MathLib, xs: nat, ys: nat) returns (k: nat)
    requires xs > ys > 0
    ensures k < |StripIndices(xs, ys)| && StripIndices(xs, ys)[k] >= |Positions(m, xs, ys)|
  {
    VertexCounts(m, xs, ys);
    k := StripCorner(xs, ys);
    MulMonotone(ys, ys + 2, xs + 1);
    assert ys * (ys + 2) + ys + 1 == (ys + 1) * (ys + 1) + ys;
  }

  /**
   * Every strip index addresses an entry of `positions`, which holds (ys + 1)² points,
   * exactly when x_segments <= y_segments.
   */
  lemma StripInBounds(m: MathLib, xs: nat, ys: nat)
    requires xs > 0 && ys > 0
    ensures (forall k | 0 <= k < |StripIndices(xs, ys)| :: StripIndices(xs, ys)[k] < |Positions(m, xs, ys)|)
        <==> xs <= ys
  {
    if xs <= ys {
      forall k | 0 <= k < |StripIndices(xs, ys)| ensures StripIndices(xs, ys)[k] < |Positions(m, xs, ys)| {
        StripInBoundsNarrow(m, xs, ys, k);
      }
    } else {
      var k := StripOutOfBoundsWide(m, xs, ys);
    }
  }

  // ---------------------------------------------------------------------------
  // Interleaved vertex data

  /** The loop at lines 56-69 reads uv[i] and normals[i] for every position i when those vectors are non-empty. */
  predicate Parallel(positions: seq<Vec3>, uv: seq<Vec2>, normals: seq<Vec3>)
  {
    && (|uv| > 0 ==> |positions| <= |uv|)
    && (|normals| > 0 ==> |positions| <= |normals|)
  }

  /** How many floats a vertex record holds: 3 for the position, 2 for uv and 3 for the normal when present. */
  function RecordWidth(uv: seq<Vec2>, normals: seq<Vec3>): nat
  {
    3 + (if |uv| > 0 then 2 else 0) + (if |normals| > 0 then 3 else 0)
  }

  /**
   * The floats pushed for vertex i: its position first, then its uv when uv is non-empty,
   * and its normal last when normals is non-empty.
   */
  function VertexRecord(positions: seq<Vec3>, uv: seq<Vec2>, normals: seq<Vec3>, i: nat): (r: seq<real>)
    requires Parallel(positions, uv, normals) && i < |positions|
    ensures |r| == RecordWidth(uv, normals)
    ensures r[..3] == [positions[i].x, positions[i].y, positions[i].z]
    ensures |uv| > 0 ==> r[3..5] == [uv[i].x, uv[i].y]
    ensures |normals| > 0 ==> r[|r| - 3..] == [normals[i].x, normals[i].y, normals[i].z]
  {
    [positions[i].x, positions[i].y, positions[i].z]
      + (if |uv| > 0 then [uv[i].x, uv[i].y] else [])
      + (if |normals| > 0 then [normals[i].x, normals[i].y, normals[i].z] else [])
  }

  /** The whole `data` vector: one record of the same width per position. */
  function VertexData(positions: seq<Vec3>, uv: seq<Vec2>, normals: seq<Vec3>): (data: seq<real>)
    requires Parallel(positions, uv, normals)
    ensures |data| == RecordWidth(uv, normals) * |positions|
  {
    var records := seq(|positions|, i requires 0 <= i < |positions| => VertexRecord(positions, uv, normals, i));
    ConcatUniformLength(records, RecordWidth(uv, normals));
    Concat(records)
  }

  /** The body of the third loop: push the floats of vertex i. */
  method PushVertexRecord(positions: seq<Vec3>, uv: seq<Vec2>, normals: seq<Vec3>, i: nat, data0: seq<real>)
    returns (data: seq<real>)
    requires Parallel(positions, uv, normals) && i < |positions|
    ensures data == data0 + VertexRecord(positions, uv, normals, i)
  {
    data := data0;
    data := data + [positions[i].x];
    data := data + [positions[i].y];
    data := data + [positions[i].z];
    ghost var withPosition := data;
    if |uv| > 0 {
      data := data + [uv[i].x];
      data := data + [uv[i].y];
    }
    ghost var withUv := data;
    assert withUv == withPosition + (if |uv| > 0 then [uv[i].x, uv[i].y] else []);
    if |normals| > 0 {
      data := data + [normals[i].x];
      data := data + [normals[i].y];
      data := data + [normals[i].z];
    }
    assert data == withUv + (if |normals| > 0 then [normals[i].x, normals[i].y, normals[i].z] else []);
  }

  /**
   * The third loop. Its `unsigned int` counter reaches positions.size() only when that size
   * is below 2^32; otherwise it wraps first and the loop never ends.
   */
  method InterleaveVertexData(positions: seq<Vec3>, uv: seq<Vec2>, normals: seq<Vec3>) returns (data: seq<real>)
    requires Parallel(positions, uv, normals) && |positions| < UINT_LIMIT
    ensures data == VertexData(positions, uv, normals)
  {
    ghost var records := seq(|positions|, i requires 0 <= i < |positions| => VertexRecord(positions, uv, normals, i));
    data := [];
    for i := 0 to |positions|
      invariant data == Concat(records[..i])
    {
      data := PushVertexRecord(positions, uv, normals, i, data);
      ConcatTakeOneMore(records, i);
    }
    assert records[..|positions|] == records;
  }

  /**
   * With uv and normals as long as positions, `data` has 8 floats per vertex, laid out as
   * the attribute pointers read them: position at 0-2, uv at 3-4, normal at 5-7.
   */
  lemma VertexDataLayout(positions: seq<Vec3>, uv: seq<Vec2>, normals: seq<Vec3>, i: nat)
    requires |uv| == |positions| && |normals| == |positions| && i < |positions|
    ensures |VertexData(positions, uv, normals)| == 8 * |positions|
    ensures VertexData(positions, uv, normals)[8 * i .. 8 * i + 8]
         == [positions[i].x, positions[i].y, positions[i].z, uv[i].x, uv[i].y,
             normals[i].x, normals[i].y, normals[i].z]
  {
    var records := seq(|positions|, i' requires 0 <= i' < |positions| => VertexRecord(positions, uv, normals, i'));
    var data := VertexData(positions, uv, normals);
    ConcatUniformLength(records, 8);
    forall c | 0 <= c < 8 ensures data[8 * i + c] == records[i][c] {
      ConcatUniformAt(records, 8, i, c);
    }
    assert data[8 * i .. 8 * i + 8] == records[i];
  }

  // ---------------------------------------------------------------------------
  // The mesh

  /** The fields of engine::Mesh that the function sets apart from the GL object names. */
  class Mesh {
    var renderType: int
    var indicies: int
  }

  /**
   * ConstructSphereMesh without the GL calls: the three buffers it uploads, and the mesh's
   * render type and index count.
   */
  method ConstructSphereMesh(m: MathLib, xSegments: int, ySegments: int, mesh: Mesh)
    returns (positions: seq<Vec3>, uv: seq<Vec2>, normals: seq<Vec3>, indices: seq<nat>, data: seq<real>)
    requires xSegments > 0 && ySegments > 0
    requires xSegments < INT_MAX && (xSegments + 1) * (ySegments + 1) <= UINT_LIMIT
    requires (ySegments + 1) * (ySegments + 1) < UINT_LIMIT
    modifies mesh`renderType, mesh`indicies
    ensures positions == Positions(m, xSegments, ySegments) && normals == positions
    ensures uv == TexCoords(xSegments, ySegments)
    ensures indices == StripIndices(xSegments, ySegments)
    ensures Parallel(positions, uv, normals) && data == VertexData(positions, uv, normals)
    ensures mesh.renderType == GL_TRIANGLE_STRIP && mesh.indicies == |indices|
  {
    positions, uv, normals := BuildVertices(m, xSegments, ySegments);
    VertexCounts(m, xSegments, ySegments);
    indices := BuildStripIndices(xSegments, ySegments);
    data := InterleaveVertexData(positions, uv, normals);
    mesh.renderType := GL_TRIANGLE_STRIP;
    mesh.indicies := |indices|;
  }

  /**
   * The universe scene's sphere, ConstructSphereMesh(256, 256, ...): 257² vertices of 8
   * floats, 2 · 257 · 256 strip indices, every one of them a valid vertex.
   */
  lemma UniverseSphere(m: MathLib)
    ensures |Positions(m, 256, 256)| == 257 * 257
    ensures |TexCoords(256, 256)| == 257 * 257
    ensures |StripIndices(256, 256)| == 2 * 257 * 256
    ensures forall k | 0 <= k < |StripIndices(256, 256)| :: StripIndices(256, 256)[k] < |Positions(m, 256, 256)|
    ensures |VertexData(Positions(m, 256, 256), TexCoords(256, 256), Positions(m, 256, 256))| == 8 * 257 * 257
  {
    VertexCounts(m, 256, 256);
    StripInBounds(m, 256, 256);
    VertexDataLayout(Positions(m, 256, 256), TexCoords(256, 256), Positions(m, 256, 256), 0);
  }
}
