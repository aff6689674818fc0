/**
 * The slippy-map quad-tree of src/tile_quadtree/__init__.py.
 *
 * A `Tile` object owns its children and is grown in place by
 * `QuadTree.BuildTree`. Each tile carries a ghost `Model`, a `TileTree`
 * value that mirrors the object tree, and `Build` says, as a function on
 * those values, what `BuildTree` does. The properties of the algorithm are
 * proved about `Build`; the methods are proved to implement it.
 *
 * `deg2num` is floating-point trigonometry; it is a parameter here
 * (`BuildConfig.deg2num`), any function from a point and a zoom to tile
 * indices.
 */
module TileQuadtree {
  import opened Common

  datatype GpsPoint = GpsPoint(latitude: real, longitude: real)

  /** The value of a tile and everything below it. */
  datatype TileTree = Node(x: int, y: int, zoom: int, isLeaf: bool, children: seq<TileTree>)

  function Leaf(x: int, y: int, zoom: int): TileTree {
    Node(x, y, zoom, true, [])
  }

  /** Column and row of the i-th child: top-left, top-right, bottom-left, bottom-right. */
  function ChildX(x: int, i: int): int { 2 * x + i % 2 }
  function ChildY(y: int, i: int): int { 2 * y + i / 2 }

  /** The four children a subdivided tile receives. */
  function Quadrants(x: int, y: int, zoom: int): (qs: seq<TileTree>)
    ensures |qs| == 4
  {
    seq(4, i requires 0 <= i < 4 => Leaf(ChildX(x, i), ChildY(y, i), zoom + 1))
  }

  /** The shape every tile of the program has: a leaf exactly when it has no
      children, and otherwise the four quadrants one zoom level deeper. */
  predicate WellFormed(t: TileTree) {
    && (t.isLeaf <==> |t.children| == 0)
    && (|t.children| == 0 || |t.children| == 4)
    && forall i :: 0 <= i < |t.children| ==>
         && t.children[i].x == ChildX(t.x, i)
         && t.children[i].y == ChildY(t.y, i)
         && t.children[i].zoom == t.zoom + 1
         && WellFormed(t.children[i])
  }

  /** Every node of the tree has a zoom of at most m. */
  predicate ZoomsAtMost(t: TileTree, m: int) {
    t.zoom <= m && forall i :: 0 <= i < |t.children| ==> ZoomsAtMost(t.children[i], m)
  }

  /** `b` keeps all of `a`: the same tile, and, where `a` has children, the
      same number of children, each kept in turn. */
  predicate Extends(a: TileTree, b: TileTree) {
    && a.x == b.x && a.y == b.y && a.zoom == b.zoom
    && (!a.isLeaf ==> !b.isLeaf)
    && (|a.children| > 0 ==> |b.children| == |a.children|)
    && forall i :: 0 <= i < |a.children| && i < |b.children| ==> Extends(a.children[i], b.children[i])
  }

  /** The settings of one tree build: `max_lod`, `lod_subdivide_threshold`,
      the points of interest in insertion order, and the projection. */
  datatype BuildConfig = BuildConfig(
    maxLod: int,
    threshold: int,
    points: seq<GpsPoint>,
    deg2num: (GpsPoint, int) -> (int, int))

  /** The point's tile at this zoom is within Chebyshev distance 1 of (x, y). */
  predicate Near(cfg: BuildConfig, p: GpsPoint, x: int, y: int, zoom: int) {
    var (px, py) := cfg.deg2num(p, zoom);
    Abs(px - x) <= 1 && Abs(py - y) <= 1
  }

  /** The test made for one point inside the loop of `__subdivide`. */
  predicate Triggers(cfg: BuildConfig, p: GpsPoint, x: int, y: int, zoom: int) {
    Near(cfg, p, x, y, zoom) || zoom >= cfg.threshold
  }

  /** Some point of `pts` triggers, scanning from the front. */
  predicate SplitsAt(cfg: BuildConfig, pts: seq<GpsPoint>, x: int, y: int, zoom: int)
    decreases |pts|
  {
    |pts| > 0 && (Triggers(cfg, pts[0], x, y, zoom) || SplitsAt(cfg, pts[1..], x, y, zoom))
  }

  predicate ShouldSplit(cfg: BuildConfig, x: int, y: int, zoom: int) {
    SplitsAt(cfg, cfg.points, x, y, zoom)
  }

  /** What `__subdivide` does to a leaf. */
  function SubdivideTile(t: TileTree, cfg: BuildConfig): TileTree {
    if ShouldSplit(cfg, t.x, t.y, t.zoom) then Node(t.x, t.y, t.zoom, false, Quadrants(t.x, t.y, t.zoom)) else t
  }

  /** What `__buildTreeRecurse` does to the tree rooted at `t`. */
  function Build(t: TileTree, cfg: BuildConfig): (r: TileTree)
    requires WellFormed(t)
    ensures r.x == t.x && r.y == t.y && r.zoom == t.zoom
    decreases cfg.maxLod - t.zoom
  {
    if t.zoom < cfg.maxLod then
      var s := if t.isLeaf then SubdivideTile(t, cfg) else t;
      assert forall i :: 0 <= i < |s.children| ==> WellFormed(s.children[i]) && s.children[i].zoom == t.zoom + 1;
      Node(s.x, s.y, s.zoom, s.isLeaf, seq(|s.children|, i requires 0 <= i < |s.children| => Build(s.children[i], cfg)))
    else
      t
  }

  /** Builds each child of `t` in turn, keeping `t` itself as it is. */
  function BuildEach(t: TileTree, cfg: BuildConfig): (r: TileTree)
    requires WellFormed(t) && t.zoom < cfg.maxLod
    ensures r.x == t.x && r.y == t.y && r.zoom == t.zoom && r.isLeaf == t.isLeaf
    ensures |r.children| == |t.children|
  {
    Node(t.x, t.y, t.zoom, t.isLeaf, seq(|t.children|, i requires 0 <= i < |t.children| => Build(t.children[i], cfg)))
  }

  /** The complete quad-tree below (x, y, zoom) down to zoom `maxLod`. */
  function FullGrid(x: int, y: int, zoom: int, maxLod: int): TileTree
    decreases maxLod - zoom
  {
    if zoom < maxLod then
      Node(x, y, zoom, false, seq(4, i requires 0 <= i < 4 => FullGrid(ChildX(x, i), ChildY(y, i), zoom + 1, maxLod)))
    else
      Leaf(x, y, zoom)
  }

  function LeafCount(t: TileTree): nat {
    if |t.children| == 0 then 1 else SumLeafCounts(t.children)
  }

  function SumLeafCounts(ts: seq<TileTree>): nat
    decreases ts
  {
    if |ts| == 0 then 0 else LeafCount(ts[0]) + SumLeafCounts(ts[1..])
  }

  function Pow4(n: nat): nat {
    if n == 0 then 1 else 4 * Pow4(n - 1)
  }

  // ---------------------------------------------------------------------
  // Properties of the subdivision rule

  /** The children a subdivided tile gets, in order. */
  lemma QuadrantsInOrder(x: int, y: int, zoom: int)
    ensures Quadrants(x, y, zoom) == [
      Leaf(2 * x, 2 * y, zoom + 1), Leaf(2 * x + 1, 2 * y, zoom + 1),
      Leaf(2 * x, 2 * y + 1, zoom + 1), Leaf(2 * x + 1, 2 * y + 1, zoom + 1)]
  {
  }

  lemma QuadrantsWellFormed(x: int, y: int, zoom: int)
    ensures WellFormed(Node(x, y, zoom, false, Quadrants(x, y, zoom)))
  {
    var qs := Quadrants(x, y, zoom);
    forall i | 0 <= i < 4
      ensures WellFormed(qs[i])
    {
      assert qs[i] == Leaf(ChildX(x, i), ChildY(y, i), zoom + 1);
    }
  }

  /** A leaf is split exactly when some point lands within Chebyshev distance 1
      of it, or when there is at least one point and the zoom has reached the
      threshold. */
  lemma {:induction false} SplitsAtIff(cfg: BuildConfig, pts: seq<GpsPoint>, x: int, y: int, zoom: int)
    ensures SplitsAt(cfg, pts, x, y, zoom) <==>
      (exists i :: 0 <= i < |pts| && Near(cfg, pts[i], x, y, zoom)) || (|pts| > 0 && zoom >= cfg.threshold)
    decreases |pts|
  {
    if |pts| > 0 {
      SplitsAtIff(cfg, pts[1..], x, y, zoom);
      if Near(cfg, pts[0], x, y, zoom) {
      } else {
        forall i | 1 <= i < |pts| ensures pts[i] == pts[1..][i - 1] { }
        if exists i :: 0 <= i < |pts| && Near(cfg, pts[i], x, y, zoom) {
          var i :| 0 <= i < |pts| && Near(cfg, pts[i], x, y, zoom);
          assert Near(cfg, pts[1..][i - 1], x, y, zoom);
        }
      }
    }
  }

  /** The decision depends only on which points there are, not on their order
      or on which of them matches first. */
  lemma SplitDependsOnPointSet(cfg: BuildConfig, pts: seq<GpsPoint>, x: int, y: int, zoom: int)
    requires forall p :: p in pts <==> p in cfg.points
    ensures ShouldSplit(cfg.(points := pts), x, y, zoom) == ShouldSplit(cfg, x, y, zoom)
  {
    var cfg' := cfg.(points := pts);
    SplitsAtIff(cfg', pts, x, y, zoom);
    SplitsAtIff(cfg, cfg.points, x, y, zoom);
    if exists i :: 0 <= i < |pts| && Near(cfg, pts[i], x, y, zoom) {
      var i :| 0 <= i < |pts| && Near(cfg, pts[i], x, y, zoom);
      assert pts[i] in cfg.points;
      var j :| 0 <= j < |cfg.points| && cfg.points[j] == pts[i];
      assert Near(cfg, cfg.points[j], x, y, zoom);
    }
    if exists i :: 0 <= i < |cfg.points| && Near(cfg, cfg.points[i], x, y, zoom) {
      var i :| 0 <= i < |cfg.points| && Near(cfg, cfg.points[i], x, y, zoom);
      assert cfg.points[i] in pts;
      var j :| 0 <= j < |pts| && pts[j] == cfg.points[i];
      assert Near(cfg', pts[j], x, y, zoom);
    }
    if |pts| > 0 { assert pts[0] in cfg.points; }
    if |cfg.points| > 0 { assert cfg.points[0] in pts; }
  }

  // ---------------------------------------------------------------------
  // Properties of Build

  /** Building keeps the tree's shape: leaves have no children, inner tiles
      have exactly their four quadrants. */
  lemma {:induction false} BuildWellFormed(t: TileTree, cfg: BuildConfig)
    requires WellFormed(t)
    ensures WellFormed(Build(t, cfg))
    decreases cfg.maxLod - t.zoom
  {
    if t.zoom < cfg.maxLod {
      var s := if t.isLeaf then SubdivideTile(t, cfg) else t;
      if t.isLeaf { QuadrantsWellFormed(t.x, t.y, t.zoom); }
      forall i | 0 <= i < |s.children|
        ensures WellFormed(Build(s.children[i], cfg))
      {
        BuildWellFormed(s.children[i], cfg);
      }
    }
  }

  /** Below `maxLod`, building a tile is building each child of the tile after its subdivision step. */
  lemma BuildIsBuildEach(t: TileTree, cfg: BuildConfig)
    requires WellFormed(t) && t.zoom < cfg.maxLod
    ensures var s := if t.isLeaf then SubdivideTile(t, cfg) else t;
      WellFormed(s) && Build(t, cfg) == BuildEach(s, cfg)
  {
    if t.isLeaf { QuadrantsWellFormed(t.x, t.y, t.zoom); }
  }

  lemma BuildEachWellFormed(t: TileTree, cfg: BuildConfig)
    requires WellFormed(t) && t.zoom < cfg.maxLod
    ensures WellFormed(BuildEach(t, cfg))
  {
    forall i | 0 <= i < |t.children|
      ensures WellFormed(Build(t.children[i], cfg))
    {
      BuildWellFormed(t.children[i], cfg);
    }
  }

  /** Building never removes or re-subdivides anything: a tile that already had
      children keeps them (and they are built in turn). */
  lemma {:induction false} BuildExtends(t: TileTree, cfg: BuildConfig)
    requires WellFormed(t)
    ensures Extends(t, Build(t, cfg))
    decreases cfg.maxLod - t.zoom
  {
    if t.zoom < cfg.maxLod {
      var r := Build(t, cfg);
      if !t.isLeaf {
        forall i | 0 <= i < |t.children|
          ensures Extends(t.children[i], r.children[i])
        {
          BuildExtends(t.children[i], cfg);
        }
      }
    } else {
      ExtendsReflexive(t);
    }
  }

  lemma {:induction false} ExtendsReflexive(t: TileTree)
    ensures Extends(t, t)
  {
    forall i | 0 <= i < |t.children| ensures Extends(t.children[i], t.children[i]) {
      ExtendsReflexive(t.children[i]);
    }
  }

  /** No node deeper than `m` appears when `m` is at least `max_lod`: only
      tiles with zoom below `max_lod` are subdivided. */
  lemma {:induction false} BuildZoomBound(t: TileTree, cfg: BuildConfig, m: int)
    requires WellFormed(t) && ZoomsAtMost(t, m) && cfg.maxLod <= m
    ensures ZoomsAtMost(Build(t, cfg), m)
    decreases cfg.maxLod - t.zoom
  {
    if t.zoom < cfg.maxLod {
      var s := if t.isLeaf then SubdivideTile(t, cfg) else t;
      forall i | 0 <= i < |s.children|
        ensures ZoomsAtMost(Build(s.children[i], cfg), m)
      {
        if t.isLeaf && s != t {
          assert s.children[i] == Leaf(ChildX(t.x, i), ChildY(t.y, i), t.zoom + 1);
        }
        BuildZoomBound(s.children[i], cfg, m);
      }
    }
  }

  /** A leaf below `max_lod` ends up subdivided exactly when ShouldSplit holds
      for it; at or beyond `max_lod` nothing changes. */
  lemma BuildSplitsLeafIff(t: TileTree, cfg: BuildConfig)
    requires WellFormed(t) && t.isLeaf
    ensures !Build(t, cfg).isLeaf <==> t.zoom < cfg.maxLod && ShouldSplit(cfg, t.x, t.y, t.zoom)
    ensures !Build(t, cfg).isLeaf ==> |Build(t, cfg).children| == 4
  {
  }

  /** With no points of interest the tree is left exactly as it was, whatever
      the threshold: the threshold test only runs inside the per-point loop. */
  lemma {:induction false} BuildWithoutPoints(t: TileTree, cfg: BuildConfig)
    requires WellFormed(t) && cfg.points == []
    ensures Build(t, cfg) == t
    decreases cfg.maxLod - t.zoom
  {
    if t.zoom < cfg.maxLod {
      forall i | 0 <= i < |t.children|
        ensures Build(t.children[i], cfg) == t.children[i]
      {
        BuildWithoutPoints(t.children[i], cfg);
      }
    }
  }

  /** The tree built depends only on the set of points, so neither their order
      nor which point matches first matters. */
  lemma {:induction false} BuildDependsOnPointSet(t: TileTree, cfg: BuildConfig, pts: seq<GpsPoint>)
    requires WellFormed(t)
    requires forall p :: p in pts <==> p in cfg.points
    ensures Build(t, cfg.(points := pts)) == Build(t, cfg)
    decreases cfg.maxLod - t.zoom
  {
    var cfg' := cfg.(points := pts);
    if t.zoom < cfg.maxLod {
      SplitDependsOnPointSet(cfg, pts, t.x, t.y, t.zoom);
      var s := if t.isLeaf then SubdivideTile(t, cfg) else t;
      assert s == if t.isLeaf then SubdivideTile(t, cfg') else t;
      forall i | 0 <= i < |s.children|
        ensures Build(s.children[i], cfg') == Build(s.children[i], cfg)
      {
        BuildDependsOnPointSet(s.children[i], cfg, pts);
      }
    }
  }

  /** Building twice is the same as building once: every leaf left below
      `max_lod` was tested and failed, and fails again. */
  lemma {:induction false} BuildIdempotent(t: TileTree, cfg: BuildConfig)
    requires WellFormed(t)
    ensures WellFormed(Build(t, cfg)) && Build(Build(t, cfg), cfg) == Build(t, cfg)
    decreases cfg.maxLod - t.zoom
  {
    BuildWellFormed(t, cfg);
    if t.zoom < cfg.maxLod {
      var r := Build(t, cfg);
      var s := if t.isLeaf then SubdivideTile(t, cfg) else t;
      if t.isLeaf && s == t {
        assert r == t;
      } else {
        assert !r.isLeaf;
        forall i | 0 <= i < |s.children|
          ensures Build(r.children[i], cfg) == r.children[i]
        {
          BuildIdempotent(s.children[i], cfg);
        }
        assert Build(r, cfg).children == r.children;
      }
    }
  }

  /** Once there is a point and the zoom has reached the threshold, a leaf is
      grown into the complete grid down to `max_lod`. */
  lemma {:induction false} BuildFullGrid(x: int, y: int, zoom: int, cfg: BuildConfig)
    requires |cfg.points| > 0 && cfg.threshold <= zoom
    ensures Build(Leaf(x, y, zoom), cfg) == FullGrid(x, y, zoom, cfg.maxLod)
    decreases cfg.maxLod - zoom
  {
    if zoom < cfg.maxLod {
      assert Triggers(cfg, cfg.points[0], x, y, zoom);
      var qs := Quadrants(x, y, zoom);
      forall i | 0 <= i < 4
        ensures Build(qs[i], cfg) == FullGrid(ChildX(x, i), ChildY(y, i), zoom + 1, cfg.maxLod)
      {
        BuildFullGrid(ChildX(x, i), ChildY(y, i), zoom + 1, cfg);
      }
    }
  }

  lemma {:induction false} UniformSum(ts: seq<TileTree>, n: nat)
    requires forall i :: 0 <= i < |ts| ==> LeafCount(ts[i]) == n
    ensures SumLeafCounts(ts) == |ts| * n
    decreases |ts|
  {
    if |ts| > 0 {
      UniformSum(ts[1..], n);
    }
  }

  /** The complete grid from `zoom` to `maxLod` has 4^(maxLod - zoom) leaves. */
  lemma {:induction false} FullGridLeafCount(x: int, y: int, zoom: int, maxLod: int)
    requires zoom <= maxLod
    ensures LeafCount(FullGrid(x, y, zoom, maxLod)) == Pow4(maxLod - zoom)
    decreases maxLod - zoom
  {
    if zoom < maxLod {
      var g := FullGrid(x, y, zoom, maxLod);
      forall i | 0 <= i < 4 ensures LeafCount(g.children[i]) == Pow4(maxLod - zoom - 1) {
        FullGridLeafCount(ChildX(x, i), ChildY(y, i), zoom + 1, maxLod);
      }
      UniformSum(g.children, Pow4(maxLod - zoom - 1));
    }
  }

  // ---------------------------------------------------------------------
  // The objects

  class Tile {
    const x: int
    const y: int
    const zoom: int
    var children: seq<Tile>
    var isLeaf: bool

    ghost var Model: TileTree
    ghost var Repr: set<Tile>

    /** The object tree below this tile is a strict tree (children own disjoint
        footprints) whose values are Model, and Model has the program's shape. */
    ghost predicate Valid()
      reads this, Repr
      decreases Repr
    {
      && this in Repr
      && Model.x == x && Model.y == y && Model.zoom == zoom && Model.isLeaf == isLeaf
      && |Model.children| == |children|
      && WellFormed(Model)
      && (forall i :: 0 <= i < |children| ==>
            && children[i] in Repr
            && children[i].Repr <= Repr
            && this !in children[i].Repr
            && children[i].Model == Model.children[i]
            && children[i].Valid())
      && (forall i, j :: 0 <= i < j < |children| ==> children[i].Repr !! children[j].Repr)
    }

    /** `Tile(x, y, zoom)`: a leaf without children. */
    constructor (x: int, y: int, zoom: int)
      ensures Valid() && fresh(Repr) && Repr == {this}
      ensures Model == Leaf(x, y, zoom)
      ensures this.x == x && this.y == y && this.zoom == zoom
    {
      this.x, this.y, this.zoom := x, y, zoom;
      children := [];
      isLeaf := true;
      Model := Leaf(x, y, zoom);
      Repr := {this};
    }
  }

  class QuadTree {
    const root: Tile
    const maxLod: int
    const lodSubdivideThreshold: int
    const deg2num: (GpsPoint, int) -> (int, int)
    var gpsPoints: seq<GpsPoint>

    constructor (root: Tile, maxLod: int, lodSubdivideThreshold: int, deg2num: (GpsPoint, int) -> (int, int))
      ensures this.root == root && this.maxLod == maxLod
      ensures this.lodSubdivideThreshold == lodSubdivideThreshold && this.deg2num == deg2num
      ensures gpsPoints == []
    {
      this.root := root;
      this.maxLod := maxLod;
      this.lodSubdivideThreshold := lodSubdivideThreshold;
      this.deg2num := deg2num;
      gpsPoints := [];
    }

    function Config(): BuildConfig
      reads this
    {
      BuildConfig(maxLod, lodSubdivideThreshold, gpsPoints, deg2num)
    }

    /** Appends one point of interest; the earlier points are unchanged. */
    method AddPoint(lat: real, lon: real)
      modifies this
      ensures gpsPoints == old(gpsPoints) + [GpsPoint(lat, lon)]
    {
      gpsPoints := gpsPoints + [GpsPoint(lat, lon)];
    }

    /** Lines 55-65 of `__subdivide`: four new leaves one level down, top-left,
        top-right, bottom-left, bottom-right. */
    static method NewQuadrants(x: int, y: int, zoom: int) returns (cs: seq<Tile>)
      ensures |cs| == 4
      ensures forall j :: 0 <= j < 4 ==>
        && fresh(cs[j]) && cs[j].Repr == {cs[j]} && cs[j].Valid()
        && cs[j].Model == Quadrants(x, y, zoom)[j]
      ensures forall j, k :: 0 <= j < k < 4 ==> cs[j] != cs[k]
    {
      QuadrantsInOrder(x, y, zoom);
      var topLeft := new Tile(x * 2, y * 2, zoom + 1);
      var topRight := new Tile(x * 2 + 1, y * 2, zoom + 1);
      var bottomLeft := new Tile(x * 2, y * 2 + 1, zoom + 1);
      var bottomRight := new Tile(x * 2 + 1, y * 2 + 1, zoom + 1);
      cs := [topLeft, topRight, bottomLeft, bottomRight];
    }

    /** Lines 55-67 of `__subdivide`: the leaf gets its four quadrants and stops being a leaf. */
    static method SplitLeaf(tile: Tile)
      requires tile.Valid() && tile.isLeaf
      modifies tile
      ensures tile.Valid() && fresh(tile.Repr - old(tile.Repr))
      ensures tile.Model == Node(tile.x, tile.y, tile.zoom, false, Quadrants(tile.x, tile.y, tile.zoom))
    {
      var cs := NewQuadrants(tile.x, tile.y, tile.zoom);
      QuadrantsWellFormed(tile.x, tile.y, tile.zoom);
      tile.children := cs;
      tile.isLeaf := false;
      tile.Repr := tile.Repr + {cs[0], cs[1], cs[2], cs[3]};
      tile.Model := Node(tile.x, tile.y, tile.zoom, false, Quadrants(tile.x, tile.y, tile.zoom));
      forall j | 0 <= j < 4
        ensures cs[j].Repr == {cs[j]} && cs[j].Valid() && cs[j] in tile.Repr
      {
      }
    }

    /** `__subdivide`: scans the points in order and gives the leaf its four
        quadrants at the first point that triggers. */
    method Subdivide(tile: Tile)
      requires tile.Valid() && tile.isLeaf
      modifies tile
      ensures tile.Valid() && fresh(tile.Repr - old(tile.Repr))
      ensures tile.Model == SubdivideTile(old(tile.Model), Config())
    {
      var i := 0;
      while i < |gpsPoints|
        invariant 0 <= i <= |gpsPoints|
        invariant unchanged(tile)
        invariant ShouldSplit(Config(), tile.x, tile.y, tile.zoom) == SplitsAt(Config(), gpsPoints[i..], tile.x, tile.y, tile.zoom)
      {
        var (px, py) := deg2num(gpsPoints[i], tile.zoom);
        if (Abs(px - tile.x) <= 1 && Abs(py - tile.y) <= 1) || tile.zoom >= lodSubdivideThreshold {
          assert Triggers(Config(), gpsPoints[i..][0], tile.x, tile.y, tile.zoom);
          SplitLeaf(tile);
          return;
        }
        assert gpsPoints[i..][1..] == gpsPoints[i + 1..];
        i := i + 1;
      }
    }

    /** `__buildTreeRecurse`: below `max_lod`, subdivides a leaf, then recurses
        into whatever children the tile has, in order. */
    method BuildTreeRecurse(tile: Tile)
      requires tile.Valid()
      modifies tile.Repr
      ensures tile.Valid() && fresh(tile.Repr - old(tile.Repr))
      ensures tile.Model == Build(old(tile.Model), Config())
      decreases maxLod - tile.zoom, 1
    {
      if tile.zoom < maxLod {
        if tile.isLeaf {
          Subdivide(tile);
        }
        ghost var mid := tile.Model;
        assert mid == if old(tile.Model).isLeaf then SubdivideTile(old(tile.Model), Config()) else old(tile.Model);
        BuildIsBuildEach(old(tile.Model), Config());
        BuildChildren(tile);
      }
    }

    /** The loop of `__buildTreeRecurse` over the children of a tile below `max_lod`. */
    method BuildChildren(tile: Tile)
      requires tile.Valid() && tile.zoom < maxLod
      modifies tile.Repr
      ensures tile.Valid() && fresh(tile.Repr - old(tile.Repr))
      ensures tile.Model == BuildEach(old(tile.Model), Config())
      decreases maxLod - tile.zoom, 0
    {
      ghost var mid := tile.Model;
      var cs := tile.children;
      var i := 0;
      while i < |cs|
        invariant 0 <= i <= |cs|
        invariant tile.children == cs && tile.isLeaf == mid.isLeaf && tile.Model == mid
        invariant tile in tile.Repr && fresh(tile.Repr - old(tile.Repr))
        invariant forall j :: 0 <= j < |cs| ==>
          && cs[j] in tile.Repr
          && cs[j].Repr <= tile.Repr
          && tile !in cs[j].Repr
          && cs[j].Valid()
        invariant forall j, k :: 0 <= j < k < |cs| ==> cs[j].Repr !! cs[k].Repr
        invariant forall j :: 0 <= j < i ==> cs[j].Model == Build(mid.children[j], Config())
        invariant forall j :: i <= j < |cs| ==> cs[j].Model == mid.children[j]
      {
        label Before:
        BuildTreeRecurse(cs[i]);
        forall j | 0 <= j < |cs| && j != i
          ensures cs[j].Repr == old@Before(cs[j].Repr) && cs[j].Model == old@Before(cs[j].Model) && cs[j].Valid()
        {
          assert cs[j] in old@Before(cs[j].Repr);
        }
        tile.Repr := tile.Repr + cs[i].Repr;
        i := i + 1;
      }
      BuildEachWellFormed(mid, Config());
      tile.Model := BuildEach(mid, Config());
    }

    /** `BuildTree`: grows the tree under `root` in place. */
    method BuildTree()
      requires root.Valid()
      modifies root.Repr
      ensures root.Valid() && fresh(root.Repr - old(root.Repr))
      ensures root.Model == Build(old(root.Model), Config())
    {
      BuildTreeRecurse(root);
    }
  }
}
