/**
 * Voxel-to-grain indexing (fitellipsoid/preprocessing.py, `grains`).
 *
 * Each line of the voxel file names one voxel: fields 3, 4 and 5 are its
 * x, y, z coordinates, the second-to-last field its grain ID and the last field
 * its phase. The file is read into three dictionaries keyed by grain ID: the
 * voxel records of each grain in file order, the distinct corner points of the
 * grain's voxels, and the grain's phase. Python dictionaries iterate in
 * insertion order, so the model keeps that order as an explicit sequence.
 */
module Preprocessing {
  import opened Wrappers
  import opened Points

  /** One line of the voxel file, split on spaces, with its fields read as integers. */
  type Line = seq<int>

  /** The record `[x, y, z, phase]` kept for one voxel. */
  datatype Voxel = Voxel(x: int, y: int, z: int, phase: int)

  /** Reading a line that has too few fields raises IndexError: line `index` of the file. */
  datatype ReadError = ShortLine(index: nat)

  /**
   * The three dictionaries returned by `grains`. `order` is their common
   * iteration order: grain IDs by first appearance in the file.
   */
  datatype Preprocessed = Preprocessed(
    order: seq<int>,
    rve: map<int, seq<Voxel>>,
    vertices: map<int, seq<Point>>,
    phases: map<int, int>)

  /** Fields 3, 4, 5, -2 and -1 all exist only when a line has at least six fields. */
  predicate Readable(line: Line) {
    |line| >= 6
  }

  predicate AllReadable(lines: seq<Line>) {
    forall k :: 0 <= k < |lines| ==> Readable(lines[k])
  }

  function GrainId(line: Line): int
    requires Readable(line)
  {
    line[|line| - 2]
  }

  function Record(line: Line): Voxel
    requires Readable(line)
  {
    Voxel(line[3], line[4], line[5], line[|line| - 1])
  }

  predicate Distinct(s: seq<int>) {
    forall i, j :: 0 <= i < j < |s| ==> s[i] != s[j]
  }

  /** The records of grain `g`, one per line naming `g`, in file order. */
  function RecordsOf(lines: seq<Line>, g: int): seq<Voxel>
    requires AllReadable(lines)
  {
    if lines == [] then []
    else
      var last := lines[|lines| - 1];
      RecordsOf(lines[..|lines| - 1], g) + (if GrainId(last) == g then [Record(last)] else [])
  }

  /** The grain IDs of the file, each once, in order of first appearance. */
  function GrainOrder(lines: seq<Line>): seq<int>
    requires AllReadable(lines)
  {
    if lines == [] then []
    else
      var prev := GrainOrder(lines[..|lines| - 1]);
      var g := GrainId(lines[|lines| - 1]);
      if g in prev then prev else prev + [g]
  }

  /** Corner `(x - dx, y - dy, z - dz)` of voxel `v`. */
  function Corner(v: Voxel, dx: int, dy: int, dz: int): Point {
    Point(v.x - dx, v.y - dy, v.z - dz)
  }

  /** One block of rows: the voxels' coordinates minus `[dx, dy, dz]`. */
  function Shifted(vs: seq<Voxel>, dx: int, dy: int, dz: int): seq<Point> {
    seq(|vs|, k requires 0 <= k < |vs| => Corner(vs[k], dx, dy, dz))
  }

  /** `p` is one of the eight corners of one of the voxels `vs`. */
  ghost predicate IsCornerOf(p: Point, vs: seq<Voxel>) {
    exists k, dx, dy, dz ::
      0 <= k < |vs| && 0 <= dx <= 1 && 0 <= dy <= 1 && 0 <= dz <= 1 && p == Corner(vs[k], dx, dy, dz)
  }

  /** The row array `u` after its eight blocks have been appended, in the order of the source. */
  function Expansion(vs: seq<Voxel>): seq<Point> {
    Shifted(vs, 0, 0, 0) + Shifted(vs, 1, 0, 0) + Shifted(vs, 0, 1, 0) + Shifted(vs, 0, 0, 1)
    + Shifted(vs, 1, 1, 0) + Shifted(vs, 1, 0, 1) + Shifted(vs, 0, 1, 1) + Shifted(vs, 1, 1, 1)
  }

  /** What `fitPhase` needs of the three dictionaries: consistent keys, a voxel per grain, enough vertices for a covariance. */
  ghost predicate WellFormed(pre: Preprocessed) {
    && Distinct(pre.order)
    && (forall g :: g in pre.rve <==> g in pre.order)
    && pre.vertices.Keys == pre.rve.Keys
    && pre.phases.Keys == pre.rve.Keys
    && (forall g | g in pre.rve :: |pre.rve[g]| >= 1 && |pre.vertices[g]| >= 2)
  }

  /**
   * `grains`: fails on the first line with fewer than six fields; otherwise
   * groups the records by grain, expands every voxel into its eight corners,
   * keeps each distinct corner once in lexicographic order, and takes each
   * grain's phase from its first voxel.
   */
  method Grains(lines: seq<Line>) returns (r: Result<Preprocessed, ReadError>)
    ensures r.Err? <==> !AllReadable(lines)
    ensures r.Err? ==>
      var k := r.error.index;
      k < |lines| && !Readable(lines[k]) && AllReadable(lines[..k])
    ensures r.Ok? ==> AllReadable(lines) && WellFormed(r.value)
    ensures r.Ok? ==> r.value.order == GrainOrder(lines)
    ensures r.Ok? ==> forall g | g in r.value.rve :: r.value.rve[g] == RecordsOf(lines, g)
    ensures r.Ok? ==> forall g | g in r.value.rve ::
      && StrictlySorted(r.value.vertices[g])
      && (forall p :: p in r.value.vertices[g] <==> IsCornerOf(p, r.value.rve[g]))
      && 8 <= |r.value.vertices[g]| <= 8 * |r.value.rve[g]|
    ensures r.Ok? ==> forall g | g in r.value.rve :: r.value.phases[g] == r.value.rve[g][0].phase
  {
    var grouped := GroupRecords(lines);
    if grouped.Err? {
      return Err(grouped.error);
    }
    var (order, rve) := grouped.value;
    var vertices: map<int, seq<Point>> := map[];
    var phases: map<int, int> := map[];
    var j := 0;
    while j < |order|
      invariant 0 <= j <= |order|
      invariant Expanded(rve, vertices, phases, order[..j])
    {
      var g := order[j];
      assert g in order;
      var voxels := rve[g];
      var u := Shifted(voxels, 0, 0, 0);
      u := u + Shifted(voxels, 1, 0, 0);
      u := u + Shifted(voxels, 0, 1, 0);
      u := u + Shifted(voxels, 0, 0, 1);
      u := u + Shifted(voxels, 1, 1, 0);
      u := u + Shifted(voxels, 1, 0, 1);
      u := u + Shifted(voxels, 0, 1, 1);
      u := u + Shifted(voxels, 1, 1, 1);
      assert u == Expansion(voxels);
      ExpandStep(rve, vertices, phases, order[..j], g);
      vertices := vertices[g := Unique(u)];
      phases := phases[g := voxels[0].phase];
      assert order[..j + 1] == order[..j] + [g];
      j := j + 1;
    }
    assert order[..j] == order;
    assert forall g :: g in vertices <==> g in rve;
    assert vertices.Keys == rve.Keys;
    return Ok(Preprocessed(order, rve, vertices, phases));
  }

  /**
   * The state of the second loop of `grains` after the grains `gs`: each has
   * its distinct corners, sorted, and the phase of its first voxel.
   */
  ghost predicate Expanded(rve: map<int, seq<Voxel>>, vertices: map<int, seq<Point>>, phases: map<int, int>, gs: seq<int>) {
    && (forall g :: g in vertices <==> g in gs)
    && phases.Keys == vertices.Keys
    && forall g | g in vertices ::
      && g in rve
      && StrictlySorted(vertices[g])
      && (forall p :: p in vertices[g] <==> IsCornerOf(p, rve[g]))
      && 8 <= |vertices[g]| <= 8 * |rve[g]|
      && phases[g] == rve[g][0].phase
  }

  /** Expanding one more grain of at least one voxel keeps the second loop's state. */
  lemma ExpandStep(rve: map<int, seq<Voxel>>, vertices: map<int, seq<Point>>, phases: map<int, int>, gs: seq<int>, g: int)
    requires Expanded(rve, vertices, phases, gs)
    requires g in rve && |rve[g]| >= 1
    ensures Expanded(rve, vertices[g := Unique(Expansion(rve[g]))], phases[g := rve[g][0].phase], gs + [g])
  {
    ExpansionIsCorners(rve[g]);
    VertexCount(rve[g]);
  }

  /** The first loop of `grains`: one record per line, appended to the list of the line's grain. */
  method GroupRecords(lines: seq<Line>) returns (r: Result<(seq<int>, map<int, seq<Voxel>>), ReadError>)
    ensures r.Err? <==> !AllReadable(lines)
    ensures r.Err? ==>
      var k := r.error.index;
      k < |lines| && !Readable(lines[k]) && AllReadable(lines[..k])
    ensures r.Ok? ==> AllReadable(lines)
    ensures r.Ok? ==> r.value.0 == GrainOrder(lines) && Distinct(r.value.0)
    ensures r.Ok? ==> forall g :: g in r.value.1 <==> g in r.value.0
    ensures r.Ok? ==> forall g | g in r.value.1 :: r.value.1[g] == RecordsOf(lines, g) && r.value.1[g] != []
  {
    var rve: map<int, seq<Voxel>> := map[];
    var order: seq<int> := [];
    var i := 0;
    while i < |lines|
      invariant 0 <= i <= |lines|
      invariant AllReadable(lines[..i])
      invariant order == GrainOrder(lines[..i])
      invariant forall g :: g in rve <==> g in order
      invariant forall g | g in rve :: rve[g] == RecordsOf(lines[..i], g) && rve[g] != []
    {
      var line := lines[i];
      if |line| < 6 {
        return Err(ShortLine(i));
      }
      assert lines[..i + 1][..i] == lines[..i];
      var grainId := line[|line| - 2];
      if grainId in rve {
        rve := rve[grainId := rve[grainId] + [Record(line)]];
      } else {
        GrainOrderMembers(lines[..i], grainId);
        rve := rve[grainId := [Record(line)]];
        order := order + [grainId];
      }
      i := i + 1;
    }
    assert lines[..i] == lines;
    GrainOrderDistinct(lines);
    return Ok((order, rve));
  }

  // ----- Grouping -----

  /** A grain appears in the order exactly when some line names it. */
  lemma {:induction false} GrainOrderMembers(lines: seq<Line>, g: int)
    requires AllReadable(lines)
    ensures g in GrainOrder(lines) <==> exists k :: 0 <= k < |lines| && GrainId(lines[k]) == g
    ensures g in GrainOrder(lines) <==> RecordsOf(lines, g) != []
  {
    if lines != [] {
      var init := lines[..|lines| - 1];
      GrainOrderMembers(init, g);
      if exists k :: 0 <= k < |init| && GrainId(init[k]) == g {
        var k :| 0 <= k < |init| && GrainId(init[k]) == g;
        assert lines[k] == init[k];
      }
      if exists k :: 0 <= k < |lines| && GrainId(lines[k]) == g {
        var k :| 0 <= k < |lines| && GrainId(lines[k]) == g;
        if k < |init| {
          assert init[k] == lines[k];
        }
      }
    }
  }

  /** No grain ID is listed twice. */
  lemma {:induction false} GrainOrderDistinct(lines: seq<Line>)
    requires AllReadable(lines)
    ensures Distinct(GrainOrder(lines))
  {
    if lines != [] {
      GrainOrderDistinct(lines[..|lines| - 1]);
    }
  }

  /** Grouping respects file order: the records of a concatenation are those of each part, in turn. */
  lemma {:induction false} RecordsOfConcat(front: seq<Line>, back: seq<Line>, g: int)
    requires AllReadable(front) && AllReadable(back)
    ensures AllReadable(front + back)
    ensures RecordsOf(front + back, g) == RecordsOf(front, g) + RecordsOf(back, g)
  {
    var all := front + back;
    assert AllReadable(all) by {
      forall k | 0 <= k < |all| ensures Readable(all[k]) {
        if k < |front| { assert all[k] == front[k]; } else { assert all[k] == back[k - |front|]; }
      }
    }
    if back != [] {
      var init := back[..|back| - 1];
      assert AllReadable(init) by {
        forall k | 0 <= k < |init| ensures Readable(init[k]) { assert init[k] == back[k]; }
      }
      RecordsOfConcat(front, init, g);
      assert all[..|all| - 1] == front + init;
    } else {
      assert all == front;
    }
  }

  /**
   * The first line naming grain `g` supplies the first record of `g`; in
   * particular a grain's first appearance starts its list with that record alone.
   */
  lemma {:induction false} FirstRecord(lines: seq<Line>, g: int, k: nat)
    requires AllReadable(lines)
    requires k < |lines| && GrainId(lines[k]) == g
    requires forall j :: 0 <= j < k ==> GrainId(lines[j]) != g
    ensures RecordsOf(lines, g) != []
    ensures RecordsOf(lines, g)[0] == Record(lines[k])
    ensures RecordsOf(lines[..k + 1], g) == [Record(lines[k])]
  {
    var front, rest := lines[..k], lines[k + 1..];
    assert AllReadable(front) by {
      forall j | 0 <= j < |front| ensures Readable(front[j]) { assert front[j] == lines[j]; }
    }
    assert AllReadable(rest) by {
      forall j | 0 <= j < |rest| ensures Readable(rest[j]) { assert rest[j] == lines[k + 1 + j]; }
    }
    assert RecordsOf(front, g) == [] by {
      GrainOrderMembers(front, g);
    }
    assert RecordsOf([lines[k]], g) == [Record(lines[k])] by {
      assert [lines[k]][..0] == [];
    }
    RecordsOfConcat(front, [lines[k]], g);
    assert lines[..k + 1] == front + [lines[k]];
    RecordsOfConcat(front + [lines[k]], rest, g);
    assert lines == front + [lines[k]] + rest;
  }

  /** Total number of records held by the grains `gs`. */
  function RecordCount(lines: seq<Line>, gs: seq<int>): nat
    requires AllReadable(lines)
  {
    if gs == [] then 0 else RecordCount(lines, gs[..|gs| - 1]) + |RecordsOf(lines, gs[|gs| - 1])|
  }

  /** Adding a line adds one record, to its grain only. */
  lemma {:induction false} RecordCountStep(lines: seq<Line>, line: Line, gs: seq<int>)
    requires AllReadable(lines) && Readable(line) && Distinct(gs)
    ensures AllReadable(lines + [line])
    ensures RecordCount(lines + [line], gs) == RecordCount(lines, gs) + (if GrainId(line) in gs then 1 else 0)
  {
    var next := lines + [line];
    assert AllReadable(next) by {
      forall k | 0 <= k < |next| ensures Readable(next[k]) {
        if k < |lines| { assert next[k] == lines[k]; }
      }
    }
    assert next[..|next| - 1] == lines;
    if gs != [] {
      var init := gs[..|gs| - 1];
      assert Distinct(init);
      RecordCountStep(lines, line, init);
      assert GrainId(line) in gs <==> GrainId(line) in init || GrainId(line) == gs[|gs| - 1];
    }
  }

  /** Every line yields exactly one record: the grains together hold as many records as the file has lines. */
  lemma {:induction false} RecordsCoverLines(lines: seq<Line>)
    requires AllReadable(lines)
    ensures RecordCount(lines, GrainOrder(lines)) == |lines|
  {
    if lines != [] {
      var init, line := lines[..|lines| - 1], lines[|lines| - 1];
      assert lines == init + [line];
      RecordsCoverLines(init);
      GrainOrderDistinct(init);
      RecordCountStep(init, line, GrainOrder(init));
      var g := GrainId(line);
      if g !in GrainOrder(init) {
        GrainOrderMembers(init, g);
        var order := GrainOrder(init) + [g];
        assert order[..|order| - 1] == GrainOrder(init);
      }
    }
  }

  // ----- Corners -----

  /** The expanded rows are exactly the corners of the voxels, eight rows per voxel. */
  lemma ExpansionIsCorners(vs: seq<Voxel>)
    ensures |Expansion(vs)| == 8 * |vs|
    ensures forall p :: p in Expansion(vs) <==> IsCornerOf(p, vs)
  {
    var u := Expansion(vs);
    forall p | p in u ensures IsCornerOf(p, vs) {
      var dx, dy, dz: int;
      if p in Shifted(vs, 0, 0, 0) { dx, dy, dz := 0, 0, 0; }
      else if p in Shifted(vs, 1, 0, 0) { dx, dy, dz := 1, 0, 0; }
      else if p in Shifted(vs, 0, 1, 0) { dx, dy, dz := 0, 1, 0; }
      else if p in Shifted(vs, 0, 0, 1) { dx, dy, dz := 0, 0, 1; }
      else if p in Shifted(vs, 1, 1, 0) { dx, dy, dz := 1, 1, 0; }
      else if p in Shifted(vs, 1, 0, 1) { dx, dy, dz := 1, 0, 1; }
      else if p in Shifted(vs, 0, 1, 1) { dx, dy, dz := 0, 1, 1; }
      else { dx, dy, dz := 1, 1, 1; }
      var k :| 0 <= k < |vs| && Shifted(vs, dx, dy, dz)[k] == p;
      assert p == Corner(vs[k], dx, dy, dz);
    }
    forall p | IsCornerOf(p, vs) ensures p in u {
      var k, dx, dy, dz :| 0 <= k < |vs| && 0 <= dx <= 1 && 0 <= dy <= 1 && 0 <= dz <= 1 && p == Corner(vs[k], dx, dy, dz);
      assert Shifted(vs, dx, dy, dz)[k] == p;
    }
  }

  /** The eight corners of one voxel. */
  function CornerSet(v: Voxel): set<Point> {
    {Corner(v, 0, 0, 0), Corner(v, 1, 0, 0), Corner(v, 0, 1, 0), Corner(v, 0, 0, 1),
     Corner(v, 1, 1, 0), Corner(v, 1, 0, 1), Corner(v, 0, 1, 1), Corner(v, 1, 1, 1)}
  }

  lemma CornerSetSize(v: Voxel)
    ensures |CornerSet(v)| == 8
  {
    var sorted := [Corner(v, 1, 1, 1), Corner(v, 1, 1, 0), Corner(v, 1, 0, 1), Corner(v, 1, 0, 0),
                   Corner(v, 0, 1, 1), Corner(v, 0, 1, 0), Corner(v, 0, 0, 1), Corner(v, 0, 0, 0)];
    assert StrictlySorted(sorted);
    assert Elements(sorted) == CornerSet(v);
    SortedCard(sorted);
  }

  /** A grain keeps at least the eight corners of one voxel and at most eight per voxel. */
  lemma VertexCount(vs: seq<Voxel>)
    requires |vs| >= 1
    ensures 8 <= |Unique(Expansion(vs))| <= 8 * |vs|
  {
    ExpansionIsCorners(vs);
    var r := Unique(Expansion(vs));
    var v := vs[0];
    CornerSetSize(v);
    forall p | p in CornerSet(v) ensures p in Elements(r) {
      assert exists dx, dy, dz :: 0 <= dx <= 1 && 0 <= dy <= 1 && 0 <= dz <= 1 && p == Corner(vs[0], dx, dy, dz);
    }
    SubsetCard(CornerSet(v), Elements(r));
    SortedCard(r);
  }
}
