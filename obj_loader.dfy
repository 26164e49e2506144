/** `MeshLoader.obj` of `src/gameObject.js`: reads the `v`, `vt` and `f`
    lines of a Wavefront OBJ text, fans every face into triangles, adds up
    the face normals per vertex and builds a `Mesh`. */
module ObjLoader {
  import opened Numbers
  import opened MeshGeometry
  import opened Text
  import opened LegacyScene

  /** The host's `parseFloat` and `parseInt`; a string they cannot read gives NaN. */
  datatype Parsers = Parsers(parseFloat: string -> Number, parseInt: string -> Number)

  /** The four arrays the line loop fills: `verts`, `uvCoords`, `tris`, `uvs`. */
  datatype ObjData = ObjData(verts: seq<Number>, uvCoords: seq<Number>, tris: seq<Number>, uvs: seq<Number>)

  const Empty: ObjData := ObjData([], [], [], [])

  /** `fields.map(parse)`. */
  function ParseAll(parse: string -> Number, fields: seq<string>): seq<Number> {
    seq(|fields|, i requires 0 <= i < |fields| => parse(fields[i]))
  }

  /* ---------------------------------------------------------------- */
  /* Faces                                                             */
  /* ---------------------------------------------------------------- */

  /** `parseInt(slots[k]) - 1` for one face corner split on `/`; a slot
      past the end is `undefined`, which parses as NaN. */
  function SlotIndex(parsers: Parsers, slots: seq<string>, k: nat): Number {
    Minus(if k < |slots| then parsers.parseInt(slots[k]) else NaN, Real(1.0))
  }

  /** Slot `k` of every corner, as an index from zero. */
  function Corners(parsers: Parsers, split: seq<seq<string>>, k: nat): (r: seq<Number>)
    ensures |r| == |split|
  {
    seq(|split|, i requires 0 <= i < |split| => SlotIndex(parsers, split[i], k))
  }

  /** `uvCoords[n]`: the element at a whole index in range, otherwise
      `undefined`, which the `Float32Array` of the mesh stores as NaN. */
  function UvAt(uvCoords: seq<Number>, n: Number): Number {
    if n.Real? && n.val == n.val.Floor as real && 0 <= n.val.Floor < |uvCoords| then uvCoords[n.val.Floor] else NaN
  }

  /** The uv value of every corner, looked up by its slot-2 index. */
  function CornerUvs(uvCoords: seq<Number>, text: seq<Number>): (r: seq<Number>)
    ensures |r| == |text|
  {
    seq(|text|, i requires 0 <= i < |text| => UvAt(uvCoords, text[i]))
  }

  /** The first `n` triangles of the fan around corner 0: triangle `i` is
      `c[0], c[i + 1], c[i + 2]`. */
  function Fan<T>(c: seq<T>, n: nat): seq<T>
    requires n == 0 || n + 2 <= |c|
  {
    if n == 0 then [] else Fan(c, n - 1) + [c[0], c[n], c[n + 1]]
  }

  /** The whole fan of a polygon: `k - 2` triangles for `k` corners, none
      for fewer than three. */
  function FanOf<T>(c: seq<T>): seq<T> {
    if |c| < 3 then [] else Fan(c, |c| - 2)
  }

  /** Triangle `i` of the fan sits at positions `3i .. 3i + 2`. */
  lemma {:induction false} FanLayout<T>(c: seq<T>, n: nat)
    requires n == 0 || n + 2 <= |c|
    ensures |Fan(c, n)| == 3 * n
    ensures forall i :: 0 <= i < n ==>
      Fan(c, n)[3 * i] == c[0] && Fan(c, n)[3 * i + 1] == c[i + 1] && Fan(c, n)[3 * i + 2] == c[i + 2]
  {
    if n > 0 {
      FanLayout(c, n - 1);
    }
  }

  /** A polygon of `k` corners gives `k - 2` triangles, and none when it
      has fewer than three corners. */
  lemma FanOfCount<T>(c: seq<T>)
    ensures |FanOf(c)| == if |c| < 3 then 0 else 3 * (|c| - 2)
  {
    if |c| >= 3 {
      FanLayout(c, |c| - 2);
    }
  }

  /** For a triangle the fan is the triangle itself. */
  lemma FanOfTriangle<T>(c: seq<T>)
    requires |c| == 3
    ensures FanOf(c) == c
  {
    assert Fan(c, 1) == Fan(c, 0) + [c[0], c[1], c[2]];
  }

  /** The corners of a face: every field split on `/`. */
  function SplitCorners(fields: seq<string>): (r: seq<seq<string>>)
    ensures |r| == |fields|
  {
    seq(|fields|, i requires 0 <= i < |fields| => SplitOn(fields[i], '/'))
  }

  /** The indices an `f` line pushes: the three corners of a triangle as
      they are, otherwise the fan of all corners. */
  function FaceTris(parsers: Parsers, split: seq<seq<string>>): seq<Number> {
    var vert := Corners(parsers, split, 0);
    if |split| == 3 then [vert[0], vert[1], vert[2]] else FanOf(vert)
  }

  /** The uv values an `f` line pushes, corner for corner with its indices. */
  function FaceUvs(parsers: Parsers, uvCoords: seq<Number>, split: seq<seq<string>>): seq<Number> {
    var uv := CornerUvs(uvCoords, Corners(parsers, split, 2));
    if |split| == 3 then [uv[0], uv[1], uv[2]] else FanOf(uv)
  }

  /** One `f` line: slot 0 of every corner fanned into `tris`, and the uv
      value of every fanned corner into `uvs`. */
  function FaceStep(parsers: Parsers, d: ObjData, fields: seq<string>): ObjData {
    var split := SplitCorners(fields);
    d.(tris := d.tris + FaceTris(parsers, split), uvs := d.uvs + FaceUvs(parsers, d.uvCoords, split))
  }

  /** The face of exactly three corners, pushed directly, is its own fan. */
  lemma FaceIsFan(parsers: Parsers, uvCoords: seq<Number>, split: seq<seq<string>>)
    ensures FaceTris(parsers, split) == FanOf(Corners(parsers, split, 0))
    ensures FaceUvs(parsers, uvCoords, split) == FanOf(CornerUvs(uvCoords, Corners(parsers, split, 2)))
  {
    if |split| == 3 {
      var vert := Corners(parsers, split, 0);
      var uv := CornerUvs(uvCoords, Corners(parsers, split, 2));
      FanOfTriangle(vert);
      FanOfTriangle(uv);
      assert [vert[0], vert[1], vert[2]] == vert && [uv[0], uv[1], uv[2]] == uv;
    }
  }

  /** The kind of a line: its first two characters. */
  function Kind(line: string): string
    requires |line| >= 2
  {
    [line[0], line[1]]
  }

  /** One line of the file; lines shorter than two characters and lines of
      any other kind (`vn`, `o`, `#`, ...) change nothing. */
  function LineStep(parsers: Parsers, d: ObjData, line: string): ObjData {
    if |line| < 2 then d
    else if Kind(line) == "v " then d.(verts := d.verts + ParseAll(parsers.parseFloat, Fields(line[2..])))
    else if Kind(line) == "vt" then d.(uvCoords := d.uvCoords + ParseAll(parsers.parseFloat, Fields(line[2..])))
    else if Kind(line) == "f " then FaceStep(parsers, d, Fields(line[2..]))
    else d
  }

  /** The arrays after reading `lines` in order. */
  function Parse(parsers: Parsers, lines: seq<string>): ObjData {
    if |lines| == 0 then Empty else LineStep(parsers, Parse(parsers, lines[..|lines| - 1]), lines[|lines| - 1])
  }

  /** After any text, `tris` holds whole triangles and `uvs` one value per
      triangle corner. */
  lemma {:induction false} ParseShape(parsers: Parsers, lines: seq<string>)
    ensures |Parse(parsers, lines).tris| % 3 == 0
    ensures |Parse(parsers, lines).uvs| == |Parse(parsers, lines).tris|
  {
    if |lines| > 0 {
      ParseShape(parsers, lines[..|lines| - 1]);
      LineStepKeepsShape(parsers, Parse(parsers, lines[..|lines| - 1]), lines[|lines| - 1]);
    }
  }

  /** One line keeps `tris` whole triangles and `uvs` as long as `tris`. */
  lemma LineStepKeepsShape(parsers: Parsers, d: ObjData, line: string)
    requires |d.tris| % 3 == 0 && |d.uvs| == |d.tris|
    ensures var r := LineStep(parsers, d, line);
            |r.tris| % 3 == 0 && |r.uvs| == |r.tris|
  {
    LineStepAppends(parsers, d, line);
    ShapeOfGrowth(d, LineStep(parsers, d, line));
  }

  /** Growing `tris` and `uvs` by the same whole number of triangles keeps
      the shape. */
  lemma ShapeOfGrowth(d: ObjData, r: ObjData)
    requires |d.tris| % 3 == 0 && |d.uvs| == |d.tris| && |d.tris| <= |r.tris|
    requires |r.tris| - |d.tris| == |r.uvs| - |d.uvs| && (|r.tris| - |d.tris|) % 3 == 0
    ensures |r.tris| % 3 == 0 && |r.uvs| == |r.tris|
  {
  }

  /** A face line appends one triangle per fan step: `k - 2` triangles for
      `k` corners (none below three), each made of corner 0 and two
      consecutive corners, every index one less than written, and one uv
      value per corner pushed. Coordinates are untouched. */
  lemma FaceLineTriangles(parsers: Parsers, d: ObjData, fields: seq<string>)
    ensures var r := FaceStep(parsers, d, fields);
            var split := SplitCorners(fields);
            var n := if |fields| < 3 then 0 else |fields| - 2;
            && r.verts == d.verts && r.uvCoords == d.uvCoords
            && |r.tris| == |d.tris| + 3 * n && r.tris[..|d.tris|] == d.tris
            && |r.uvs| == |d.uvs| + 3 * n && r.uvs[..|d.uvs|] == d.uvs
            && forall i :: 0 <= i < n ==>
                 && r.tris[|d.tris| + 3 * i] == SlotIndex(parsers, split[0], 0)
                 && r.tris[|d.tris| + 3 * i + 1] == SlotIndex(parsers, split[i + 1], 0)
                 && r.tris[|d.tris| + 3 * i + 2] == SlotIndex(parsers, split[i + 2], 0)
                 && r.uvs[|d.uvs| + 3 * i] == UvAt(d.uvCoords, SlotIndex(parsers, split[0], 2))
                 && r.uvs[|d.uvs| + 3 * i + 1] == UvAt(d.uvCoords, SlotIndex(parsers, split[i + 1], 2))
                 && r.uvs[|d.uvs| + 3 * i + 2] == UvAt(d.uvCoords, SlotIndex(parsers, split[i + 2], 2))
  {
    var split := SplitCorners(fields);
    var vert := Corners(parsers, split, 0);
    var uv := CornerUvs(d.uvCoords, Corners(parsers, split, 2));
    var r := FaceStep(parsers, d, fields);
    FaceIsFan(parsers, d.uvCoords, split);
    assert r.tris == d.tris + FanOf(vert) && r.uvs == d.uvs + FanOf(uv);
    AppendedFan(d.tris, vert);
    AppendedFan(d.uvs, uv);
  }

  /** A fan appended to `pre`: `pre` stays in front, and triangle `i` of the
      fan follows it at positions `3i .. 3i + 2`. */
  lemma AppendedFan<T>(pre: seq<T>, c: seq<T>)
    ensures var r := pre + FanOf(c);
            var n := if |c| < 3 then 0 else |c| - 2;
            && |r| == |pre| + 3 * n && r[..|pre|] == pre
            && forall i :: 0 <= i < n ==>
                 r[|pre| + 3 * i] == c[0] && r[|pre| + 3 * i + 1] == c[i + 1] && r[|pre| + 3 * i + 2] == c[i + 2]
  {
    FanOfCount(c);
    if |c| >= 3 {
      FanLayout(c, |c| - 2);
    }
    assert (pre + FanOf(c))[..|pre|] == pre;
  }

  /** An `f` line appends the same whole number of triangles to `tris` and
      to `uvs` and leaves the rest alone. */
  lemma FaceStepAppends(parsers: Parsers, d: ObjData, fields: seq<string>)
    ensures var r := FaceStep(parsers, d, fields);
            r.verts == d.verts && r.uvCoords == d.uvCoords && Grows(d, r)
  {
    var split := SplitCorners(fields);
    var tris := FaceTris(parsers, split);
    var uvs := FaceUvs(parsers, d.uvCoords, split);
    FaceIsFan(parsers, d.uvCoords, split);
    FanOfCount(Corners(parsers, split, 0));
    FanOfCount(CornerUvs(d.uvCoords, Corners(parsers, split, 2)));
    assert (d.tris + tris)[..|d.tris|] == d.tris;
    assert (d.uvs + uvs)[..|d.uvs|] == d.uvs;
    TripleIsMultipleOfThree(if |fields| < 3 then 0 else |fields| - 2);
  }

  lemma TripleIsMultipleOfThree(n: nat)
    ensures (3 * n) % 3 == 0
  {
  }

  /** A line adds as many uv values as triangle corners, in whole triangles. */
  lemma LineStepGrowth(parsers: Parsers, d: ObjData, line: string)
    ensures var r := LineStep(parsers, d, line);
            exists k: nat :: |r.tris| == |d.tris| + 3 * k && |r.uvs| == |d.uvs| + 3 * k
  {
    LineStepAppends(parsers, d, line);
    var r := LineStep(parsers, d, line);
    var k := (|r.tris| - |d.tris|) / 3;
    assert |r.tris| == |d.tris| + 3 * k;
  }

  /** Every line only appends: what was read before stays in place, and
      `tris` and `uvs` grow by the same whole number of triangles. Lines
      that are too short or of another kind leave the arrays as they are. */
  lemma LineStepAppends(parsers: Parsers, d: ObjData, line: string)
    ensures Grows(d, LineStep(parsers, d, line))
    ensures |line| < 2 || Kind(line) !in {"v ", "vt", "f "} ==> LineStep(parsers, d, line) == d
  {
    var r := LineStep(parsers, d, line);
    if |line| < 2 || Kind(line) !in {"v ", "vt", "f "} {
      assert r == d;
    } else if Kind(line) == "v " {
      assert r == d.(verts := d.verts + ParseAll(parsers.parseFloat, Fields(line[2..])));
      assert r.verts[..|d.verts|] == d.verts;
    } else if Kind(line) == "vt" {
      assert r == d.(uvCoords := d.uvCoords + ParseAll(parsers.parseFloat, Fields(line[2..])));
      assert r.uvCoords[..|d.uvCoords|] == d.uvCoords;
    } else {
      assert r == FaceStep(parsers, d, Fields(line[2..]));
      FaceStepAppends(parsers, d, Fields(line[2..]));
    }
  }

  /** `r` is `d` with values appended to its arrays, `tris` and `uvs`
      growing together by whole triangles. */
  ghost predicate Grows(d: ObjData, r: ObjData) {
    && |d.verts| <= |r.verts| && r.verts[..|d.verts|] == d.verts
    && |d.uvCoords| <= |r.uvCoords| && r.uvCoords[..|d.uvCoords|] == d.uvCoords
    && |d.tris| <= |r.tris| && r.tris[..|d.tris|] == d.tris
    && |d.uvs| <= |r.uvs| && r.uvs[..|d.uvs|] == d.uvs
    && |r.tris| - |d.tris| == |r.uvs| - |d.uvs| && (|r.tris| - |d.tris|) % 3 == 0
  }

  /* ---------------------------------------------------------------- */
  /* Loader                                                            */
  /* ---------------------------------------------------------------- */

  /** The inner part of the line loop for an `f` line: the corners split
      on `/`, a triangle pushed directly or the fan pushed triangle by
      triangle. */
  method PushFace(parsers: Parsers, d: ObjData, fields: seq<string>) returns (r: ObjData)
    ensures r == FaceStep(parsers, d, fields)
  {
    var split := SplitCorners(fields);
    var vert := Corners(parsers, split, 0);
    var text := Corners(parsers, split, 2);
    var tris, uvs := d.tris, d.uvs;
    if |split| == 3 {
      tris := tris + [vert[0], vert[1], vert[2]];
      uvs := uvs + [UvAt(d.uvCoords, text[0]), UvAt(d.uvCoords, text[1]), UvAt(d.uvCoords, text[2])];
      assert CornerUvs(d.uvCoords, text)[..3] == [UvAt(d.uvCoords, text[0]), UvAt(d.uvCoords, text[1]), UvAt(d.uvCoords, text[2])];
    } else {
      tris, uvs := PushFan(vert, text, d.uvCoords, tris, uvs);
    }
    r := d.(tris := tris, uvs := uvs);
  }

  /** The loop over the fan of a face that is not a triangle: triangle `i`
      pushes corners `0`, `i + 1`, `i + 2` and their uv values. */
  method PushFan(vert: seq<Number>, text: seq<Number>, uvCoords: seq<Number>, tris0: seq<Number>, uvs0: seq<Number>)
    returns (tris: seq<Number>, uvs: seq<Number>)
    requires |text| == |vert|
    ensures tris == tris0 + FanOf(vert) && uvs == uvs0 + FanOf(CornerUvs(uvCoords, text))
  {
    ghost var uv := CornerUvs(uvCoords, text);
    tris, uvs := tris0, uvs0;
    var i := 0;
    while i < |vert| - 2
      invariant 0 <= i && (i == 0 || i + 2 <= |vert|)
      invariant tris == tris0 + Fan(vert, i) && uvs == uvs0 + Fan(uv, i)
    {
      tris := tris + [vert[0], vert[i + 1], vert[i + 2]];
      uvs := uvs + [UvAt(uvCoords, text[0]), UvAt(uvCoords, text[i + 1]), UvAt(uvCoords, text[i + 2])];
      i := i + 1;
    }
    assert i == (if |vert| < 3 then 0 else |vert| - 2);
  }

  /** The line loop of `MeshLoader.obj`: the text split on newlines and
      every line read in order. */
  method ReadLines(parsers: Parsers, text: string) returns (d: ObjData)
    ensures d == Parse(parsers, SplitOn(text, '\n'))
  {
    var lines := SplitOn(text, '\n');
    d := Empty;
    for n := 0 to |lines|
      invariant d == Parse(parsers, lines[..n])
    {
      assert lines[..n + 1][..n] == lines[..n];
      var line := lines[n];
      if |line| < 2 {
        continue;
      }
      var kind := [line[0], line[1]];
      if kind == "v " {
        d := d.(verts := d.verts + ParseAll(parsers.parseFloat, Fields(line[2..])));
      } else if kind == "vt" {
        d := d.(uvCoords := d.uvCoords + ParseAll(parsers.parseFloat, Fields(line[2..])));
      } else if kind == "f " {
        d := PushFace(parsers, d, Fields(line[2..]));
      }
    }
    assert lines[..|lines|] == lines;
  }

  /** What the normals pass of the loader needs: whole coordinate triples
      without NaN, and every triangle corner a whole index of an existing
      vertex. */
  predicate Loadable(d: ObjData) {
    && |d.verts| % 3 == 0
    && (forall i :: 0 <= i < |d.verts| ==> d.verts[i].Real?)
    && forall i :: 0 <= i < |d.tris| ==>
         d.tris[i].Real? && d.tris[i].val == d.tris[i].val.Floor as real
         && 0 <= d.tris[i].val.Floor && 3 * d.tris[i].val.Floor + 2 < |d.verts|
  }

  /** The coordinates as reals. */
  function Coordinates(xs: seq<Number>): (r: seq<real>)
    requires forall i :: 0 <= i < |xs| ==> xs[i].Real?
    ensures |r| == |xs| && forall i :: 0 <= i < |xs| ==> xs[i] == Real(r[i])
  {
    seq(|xs|, i requires 0 <= i < |xs| => xs[i].val)
  }

  /** The triangle corners as whole indices. */
  function Indices(xs: seq<Number>): (r: seq<int>)
    requires forall i :: 0 <= i < |xs| ==> xs[i].Real? && xs[i].val == xs[i].val.Floor as real
    ensures |r| == |xs| && forall i :: 0 <= i < |xs| ==> xs[i] == Real(r[i] as real)
  {
    seq(|xs|, i requires 0 <= i < |xs| => xs[i].val.Floor)
  }

  /** The per-vertex normals of what was read. */
  function ObjNormals(math: HostMath, parsers: Parsers, lines: seq<string>): seq<real>
    requires Loadable(Parse(parsers, lines))
  {
    ParseShape(parsers, lines);
    var d := Parse(parsers, lines);
    VertexNormals(math, Coordinates(d.verts), Indices(d.tris))
  }

  /** `MeshLoader.obj(text)`: the arrays read from the lines become the
      buffers of a new mesh, with the per-vertex normals computed from the
      triangles (the sum of the adjacent face normals, then scaled to unit
      length unless zero). */
  method Obj(math: HostMath, parsers: Parsers, text: string) returns (mesh: Mesh)
    requires Loadable(Parse(parsers, SplitOn(text, '\n')))
    ensures fresh(mesh) && !mesh.isBound
    ensures var d := Parse(parsers, SplitOn(text, '\n'));
            && mesh.vertices[..] == Coordinates(d.verts)
            && mesh.triangles[..] == Uint16Buffer(d.tris)
            && mesh.normals[..] == ObjNormals(math, parsers, SplitOn(text, '\n'))
            && mesh.uvs[..] == d.uvs
  {
    var d := ReadLines(parsers, text);
    ParseShape(parsers, SplitOn(text, '\n'));
    var verts, tris := Coordinates(d.verts), Indices(d.tris);
    var norms := ComputeNormals(math, verts, tris);
    mesh := new Mesh(verts, d.tris, norms[..], d.uvs);
  }
}
