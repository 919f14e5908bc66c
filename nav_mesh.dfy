/**
 * `ThreedNavMeshComponent`: a walkability grid laid over the floor of a
 * group of physic objects. The grid has one cell per `cellSize` metres of
 * the floor's bounding box; cells under an obstacle's bounding box are not
 * walkable. Bounding boxes and the floor's local-to-world transform are
 * three.js/cannon-es geometry and are inputs here.
 */
module NavMesh {
  import opened Wrappers
  import opened JsValues
  import opened ThreedModels
  import opened SceneGraph
  import opened BaseComponents
  import opened GroupGameObject

  /** The messages of the errors thrown below. */
  const UndefinedMesh: string := "Cannot read properties of undefined (reading 'updateWorldMatrix')"

  const DefaultCellSize: real := 0.1
  const NavMeshKey: string := "navMesh"

  /** `Math.ceil`. */
  function Ceil(r: real): (c: int)
    ensures r <= c as real < r + 1.0
  {
    -((-r).Floor)
  }

  /** `Math.floor`. */
  function Floor(r: real): (c: int)
    ensures c as real <= r < c as real + 1.0
  {
    r.Floor
  }

  /** three.js `clamp(value, min, max)`: `max(min, min(max, value))`, so `min` wins when the bounds cross. */
  function Clamp(v: int, lo: int, hi: int): (r: int)
    ensures lo <= hi ==> lo <= r <= hi
    ensures lo <= v <= hi ==> r == v
    ensures hi < lo ==> r == lo
  {
    if hi < v then (if lo > hi then lo else hi) else if v < lo then lo else v
  }

  /** `Box3.getSize` of the floor, x and z extents (never negative). */
  datatype Size = Size(x: real, z: real)

  /** A body's axis-aligned bounding box after `updateAABB`. */
  datatype Aabb = Aabb(lower: Vector3, upper: Vector3)

  datatype Coords = Coords(x: int, y: int)

  /** The inclusive cell rectangle between two grid corners. */
  datatype Rect = Rect(lo: Coords, hi: Coords)

  predicate InRect(r: Rect, x: int, y: int)
  {
    r.lo.x <= x <= r.hi.x && r.lo.y <= y <= r.hi.y
  }

  /** The grid's size: one cell per `cellSize` of the floor box, rounded up. */
  function Width(size: Size, cellSize: real): nat
    // The cell size is a positive length: 0.1 m unless the component is built with another.
    requires size.x >= 0.0 && cellSize > 0.0
  {
    var w := Ceil(size.x / cellSize);
    assert w >= 0;
    w
  }

  function Height(size: Size, cellSize: real): nat
    // The cell size is a positive length: 0.1 m unless the component is built with another.
    requires size.z >= 0.0 && cellSize > 0.0
  {
    var h := Ceil(size.z / cellSize);
    assert h >= 0;
    h
  }

  /** The cell under a world position, before clamping: the floor is centred on the grid. */
  function RawCell(p: Vector3, size: Size, cellSize: real): Coords
    // The cell size is a positive length: 0.1 m unless the component is built with another.
    requires cellSize > 0.0
  {
    Coords(Floor(p.x / cellSize + size.x / (2.0 * cellSize)), Floor(p.z / cellSize + size.z / (2.0 * cellSize)))
  }

  /** `getGridCoords` as written: each coordinate clamped into `[0, width]` and `[0, height]`. */
  function GridCoordsAsWritten(p: Vector3, size: Size, cellSize: real, width: nat, height: nat): (c: Coords)
    // The cell size is a positive length: 0.1 m unless the component is built with another.
    requires cellSize > 0.0
    ensures 0 <= c.x <= width && 0 <= c.y <= height
  {
    var raw := RawCell(p, size, cellSize);
    Coords(Clamp(raw.x, 0, width), Clamp(raw.y, 0, height))
  }

  /**
   * A point on the floor's far edge: a 1 m floor with 0.5 m cells has a 2 by 2
   * grid, and its corner (0.5, 0, 0.5) maps to cell (2, 2), one past the last
   * cell on each axis; marking it reads a node the grid does not have.
   */
  lemma FarEdgeLeavesGrid()
    ensures var size := Size(1.0, 1.0);
            Width(size, 0.5) == 2 && Height(size, 0.5) == 2 &&
            GridCoordsAsWritten(Vector3(0.5, 0.0, 0.5), size, 0.5, 2, 2) == Coords(2, 2)
  {
    var size := Size(1.0, 1.0);
    assert RawCell(Vector3(0.5, 0.0, 0.5), size, 0.5) == Coords(2, 2);
  }

  /** `getGridCoords` clamped to the last cell instead, so a non-empty grid always contains the result. */
  function GridCoords(p: Vector3, size: Size, cellSize: real, width: nat, height: nat): (c: Coords)
    // The cell size is a positive length: 0.1 m unless the component is built with another.
    requires cellSize > 0.0
    ensures width > 0 && height > 0 ==> 0 <= c.x < width && 0 <= c.y < height
    ensures var raw := RawCell(p, size, cellSize);
            width > 0 && height > 0 && 0 <= raw.x < width && 0 <= raw.y < height ==> c == raw
  {
    var raw := RawCell(p, size, cellSize);
    Coords(Clamp(raw.x, 0, width - 1), Clamp(raw.y, 0, height - 1))
  }

  /** Where the two clampings agree: inside the grid both return the raw cell. */
  lemma GridCoordsAgreeInside(p: Vector3, size: Size, cellSize: real, width: nat, height: nat)
    // The cell size is a positive length: 0.1 m unless the component is built with another.
    requires cellSize > 0.0
    requires var raw := RawCell(p, size, cellSize); 0 <= raw.x < width && 0 <= raw.y < height
    ensures GridCoords(p, size, cellSize, width, height) == GridCoordsAsWritten(p, size, cellSize, width, height)
  {
  }

  predicate IsObstacle(b: Rigidbody)
  {
    Get(b.node.userData, NavMeshKey) == Str("obstacle")
  }

  predicate IsFloor(n: Node)
  {
    Get(n.userData, NavMeshKey) == Str("floor")
  }

  /** The cell rectangles of the obstacle bodies, in body order. */
  function ObstacleRects(bodies: seq<Rigidbody>, bounds: seq<Aabb>, toWorld: Vector3 -> Vector3,
                         size: Size, cellSize: real, width: nat, height: nat): (r: seq<Rect>)
    // The cell size is a positive length: 0.1 m unless the component is built with another.
    requires |bodies| == |bounds| && cellSize > 0.0
    ensures |r| <= |bodies|
    ensures forall k :: 0 <= k < |bodies| && IsObstacle(bodies[k]) ==>
              Rect(GridCoords(toWorld(bounds[k].lower), size, cellSize, width, height),
                   GridCoords(toWorld(bounds[k].upper), size, cellSize, width, height)) in r
    ensures width > 0 && height > 0 ==>
              forall i :: 0 <= i < |r| ==> 0 <= r[i].lo.x < width && 0 <= r[i].hi.x < width &&
                                           0 <= r[i].lo.y < height && 0 <= r[i].hi.y < height
  {
    if bodies == [] then []
    else
      var n := |bodies| - 1;
      var rest := ObstacleRects(bodies[..n], bounds[..n], toWorld, size, cellSize, width, height);
      var b := bounds[n];
      var own := Rect(GridCoords(toWorld(b.lower), size, cellSize, width, height),
                      GridCoords(toWorld(b.upper), size, cellSize, width, height));
      var r := rest + (if IsObstacle(bodies[n]) then [own] else []);
      assert forall k :: 0 <= k < n ==> bodies[..n][k] == bodies[k] && bounds[..n][k] == bounds[k];
      r
  }

  /** Only obstacle bodies contribute a rectangle. */
  lemma {:induction false} ObstacleRectsFromObstacles(bodies: seq<Rigidbody>, bounds: seq<Aabb>, toWorld: Vector3 -> Vector3,
                                                      size: Size, cellSize: real, width: nat, height: nat, r: Rect)
    // The cell size is a positive length: 0.1 m unless the component is built with another.
    requires |bodies| == |bounds| && cellSize > 0.0
    requires r in ObstacleRects(bodies, bounds, toWorld, size, cellSize, width, height)
    ensures exists k :: 0 <= k < |bodies| && IsObstacle(bodies[k]) &&
                        r == Rect(GridCoords(toWorld(bounds[k].lower), size, cellSize, width, height),
                                  GridCoords(toWorld(bounds[k].upper), size, cellSize, width, height))
  {
    var n := |bodies| - 1;
    var rest := ObstacleRects(bodies[..n], bounds[..n], toWorld, size, cellSize, width, height);
    if r in rest {
      ObstacleRectsFromObstacles(bodies[..n], bounds[..n], toWorld, size, cellSize, width, height, r);
      var k :| 0 <= k < n && IsObstacle(bodies[..n][k]) &&
               r == Rect(GridCoords(toWorld(bounds[..n][k].lower), size, cellSize, width, height),
                         GridCoords(toWorld(bounds[..n][k].upper), size, cellSize, width, height));
      assert bodies[..n][k] == bodies[k] && bounds[..n][k] == bounds[k];
    } else {
      assert IsObstacle(bodies[n]);
    }
  }

  /** A cell is blocked iff some rectangle covers it. */
  ghost predicate Covered(rects: seq<Rect>, x: int, y: int)
  {
    exists i :: 0 <= i < |rects| && InRect(rects[i], x, y)
  }

  /** A pathfinding grid (`PF.Grid`): `nodes[y, x]` is the walkable flag of cell (x, y). */
  class Grid {
    const width: nat
    const height: nat
    const nodes: array2<bool>

    ghost predicate Valid()
      reads this
    {
      nodes.Length0 == height && nodes.Length1 == width
    }

    /** `new PF.Grid(width, height)`: every cell walkable. */
    constructor(width: nat, height: nat)
      ensures this.width == width && this.height == height && Valid() && fresh(nodes)
      ensures forall y, x :: 0 <= y < height && 0 <= x < width ==> nodes[y, x]
    {
      this.width := width;
      this.height := height;
      nodes := new bool[height, width]((_, _) => true);
    }

    /** The nested loop of `compureGrid`: every cell of the inclusive rectangle becomes unwalkable, column by column. */
    method MarkUnwalkable(r: Rect)
      requires Valid()
      requires r.lo.x <= r.hi.x ==> 0 <= r.lo.x && r.hi.x < width
      requires r.lo.y <= r.hi.y ==> 0 <= r.lo.y && r.hi.y < height
      modifies nodes
      ensures forall y, x :: 0 <= y < height && 0 <= x < width ==> nodes[y, x] == (old(nodes[y, x]) && !InRect(r, x, y))
    {
      var x := r.lo.x;
      while x <= r.hi.x
        invariant r.lo.x <= r.hi.x ==> r.lo.x <= x <= r.hi.x + 1
        invariant r.lo.x > r.hi.x ==> x == r.lo.x
        invariant forall y', x' :: 0 <= y' < height && 0 <= x' < width ==>
                    nodes[y', x'] == (old(nodes[y', x']) && !(r.lo.x <= x' < x && r.lo.y <= y' <= r.hi.y))
      {
        var y := r.lo.y;
        while y <= r.hi.y
          invariant r.lo.y <= r.hi.y ==> r.lo.y <= y <= r.hi.y + 1
          invariant r.lo.y > r.hi.y ==> y == r.lo.y
          invariant forall y', x' :: 0 <= y' < height && 0 <= x' < width ==>
                      nodes[y', x'] == (old(nodes[y', x']) && !(r.lo.x <= x' < x && r.lo.y <= y' <= r.hi.y) &&
                                        !(x' == x && r.lo.y <= y' < y))
        {
          nodes[y, x] := false;
          y := y + 1;
        }
        assert r.lo.y > r.hi.y || y == r.hi.y + 1;
        x := x + 1;
      }
    }
  }

  /** A fresh grid of the given size with every rectangle's cells marked unwalkable. */
  method BuildGrid(width: nat, height: nat, rects: seq<Rect>) returns (g: Grid)
    requires width > 0 && height > 0 ==>
               forall i :: 0 <= i < |rects| ==> 0 <= rects[i].lo.x < width && 0 <= rects[i].hi.x < width &&
                                                0 <= rects[i].lo.y < height && 0 <= rects[i].hi.y < height
    ensures fresh(g) && fresh(g.nodes) && g.Valid() && g.width == width && g.height == height
    ensures forall y, x :: 0 <= y < height && 0 <= x < width ==> (g.nodes[y, x] <==> !Covered(rects, x, y))
  {
    g := new Grid(width, height);
    if width == 0 || height == 0 {
      return;
    }
    var i := 0;
    while i < |rects|
      invariant 0 <= i <= |rects|
      invariant fresh(g.nodes) && g.Valid() && g.width == width && g.height == height
      invariant forall y, x :: 0 <= y < height && 0 <= x < width ==> (g.nodes[y, x] <==> !Covered(rects[..i], x, y))
    {
      g.MarkUnwalkable(rects[i]);
      forall y, x | 0 <= y < height && 0 <= x < width
        ensures g.nodes[y, x] <==> !Covered(rects[..i + 1], x, y)
      {
        assert rects[..i + 1][i] == rects[i];
        if Covered(rects[..i + 1], x, y) && !InRect(rects[i], x, y) {
          var j :| 0 <= j < i + 1 && InRect(rects[..i + 1][j], x, y);
          assert rects[..i][j] == rects[j];
        }
        if Covered(rects[..i], x, y) {
          var j :| 0 <= j < i && InRect(rects[..i][j], x, y);
          assert rects[..i + 1][j] == rects[j];
        }
      }
      i := i + 1;
    }
    assert rects[..i] == rects;
  }

  /** The floor found by `createGrid`'s traversal: the last floor-tagged node, or the one found before. */
  function LastFloor(nodes: seq<Node>, previous: Option<Node>): (r: Option<Node>)
    ensures r.Some? && r != previous ==> IsFloor(r.value) && r.value in nodes
    ensures (exists n :: n in nodes && IsFloor(n)) ==> r.Some? && IsFloor(r.value) && r.value in nodes
    ensures (forall n :: n in nodes ==> !IsFloor(n)) ==> r == previous
  {
    if nodes == [] then previous
    else if IsFloor(nodes[|nodes| - 1]) then Some(nodes[|nodes| - 1])
    else
      var r := LastFloor(nodes[..|nodes| - 1], previous);
      assert forall n :: n in nodes && n != nodes[|nodes| - 1] ==> n in nodes[..|nodes| - 1];
      r
  }

  /** What three.js and cannon-es compute for the scene at a call: the floor's box size and transform, and each body's box. */
  datatype Geometry = Geometry(floorSize: Size, toWorld: Vector3 -> Vector3, bounds: seq<Aabb>)

  class ThreedNavMeshComponent {
    const base: ThreedBaseComponent
    const group: ThreedGroupGameObjectComponent
    const cellSize: real
    var floor: Option<Node>
    var floorBox: Option<Size>
    var floorToWorld: Vector3 -> Vector3
    var grid: Option<Grid>

    /** A measured floor box comes with its floor. */
    ghost predicate Measured()
      reads this, if grid.Some? then {grid.value} else {}
    {
      cellSize > 0.0 &&
      (floorBox.Some? ==> floorBox.value.x >= 0.0 && floorBox.value.z >= 0.0 && floor.Some?) &&
      (grid.Some? ==> grid.value.Valid())
    }

    /** Besides, there is a grid exactly when the floor box is known, and it has the box's size. */
    ghost predicate Valid()
      reads this, if grid.Some? then {grid.value} else {}
    {
      Measured() &&
      (floorBox.Some? <==> grid.Some?) &&
      (floorBox.Some? ==> grid.value.width == Width(floorBox.value, cellSize) &&
                          grid.value.height == Height(floorBox.value, cellSize))
    }

    /** `cellSize` defaults to 0.1 m. */
    constructor(base: ThreedBaseComponent, group: ThreedGroupGameObjectComponent, cellSize: Option<real>)
      requires cellSize.Some? ==> cellSize.value > 0.0
      ensures this.base == base && this.group == group
      ensures this.cellSize == cellSize.UnwrapOr(DefaultCellSize)
      ensures floor.None? && floorBox.None? && grid.None? && Valid()
    {
      this.base := base;
      this.group := group;
      this.cellSize := cellSize.UnwrapOr(DefaultCellSize);
      floor, floorBox, grid := None, None, None;
      floorToWorld := v => v;
    }

    /** The grid a call of `compureGrid` leaves for this geometry. */
    ghost predicate GridMatches(g: Grid, geometry: Geometry)
      reads this, group, g, g.nodes
      // The cell size is a positive length: 0.1 m unless the component is built with another.
      requires floorBox.Some? && cellSize > 0.0 && floorBox.value.x >= 0.0 && floorBox.value.z >= 0.0
      requires |geometry.bounds| == |group.rigidbodies|
    {
      var size := floorBox.value;
      var w := Width(size, cellSize);
      var h := Height(size, cellSize);
      g.Valid() && g.width == w && g.height == h &&
      forall y, x :: 0 <= y < h && 0 <= x < w ==>
        (g.nodes[y, x] <==> !Covered(ObstacleRects(group.rigidbodies, geometry.bounds, floorToWorld, size, cellSize, w, h), x, y))
    }

    /**
     * `compureGrid`: nothing without a floor box; otherwise a new grid of
     * the floor's size whose unwalkable cells are exactly those under an
     * obstacle body's box.
     */
    method ComputeGrid(geometry: Geometry) returns (r: Option<Grid>)
      requires Measured() && (floorBox.None? ==> grid.None?) && |geometry.bounds| == |group.rigidbodies|
      modifies this
      ensures Valid()
      ensures floor == old(floor) && floorBox == old(floorBox) && floorToWorld == old(floorToWorld)
      ensures old(floorBox).None? ==> r.None? && grid == old(grid)
      ensures old(floorBox).Some? ==> r.Some? && grid == r && fresh(r.value) && fresh(r.value.nodes) && GridMatches(r.value, geometry)
    {
      if floorBox.None? {
        return None;
      }
      var size := floorBox.value;
      var w := Width(size, cellSize);
      var h := Height(size, cellSize);
      var rects := ObstacleRects(group.rigidbodies, geometry.bounds, floorToWorld, size, cellSize, w, h);
      var g := BuildGrid(w, h, rects);
      grid := Some(g);
      r := grid;
    }

    /**
     * `createGrid`: the last floor-tagged node of the group's mesh becomes
     * the floor and its box is measured; without any floor three.js is
     * asked for the box of `undefined` and throws.
     */
    method CreateGrid(geometry: Geometry) returns (r: Result<()>)
      requires Valid() && |geometry.bounds| == |group.rigidbodies|
      requires geometry.floorSize.x >= 0.0 && geometry.floorSize.z >= 0.0
      modifies this
      ensures Valid()
      ensures floor == LastFloor(Traverse(group.mesh), old(floor))
      ensures r.Failure? <==> floor.None?
      ensures r.Failure? ==> floorBox == old(floorBox) && grid == old(grid)
      ensures r.Success? ==> floorBox == Some(geometry.floorSize) && floorToWorld == geometry.toWorld &&
                             grid.Some? && fresh(grid.value) && fresh(grid.value.nodes) && GridMatches(grid.value, geometry)
    {
      var found := FindFloor(Traverse(group.mesh), floor);
      floor := found;
      if floor.None? {
        return Failure(UndefinedMesh);
      }
      floorBox := Some(geometry.floorSize);
      floorToWorld := geometry.toWorld;
      var _ := ComputeGrid(geometry);
      r := Success(());
    }

    /** `initialize`: binds the scene manager and builds the grid. */
    method Initialize(manager: nat, geometry: Geometry) returns (r: Result<()>)
      requires Valid() && |geometry.bounds| == |group.rigidbodies|
      requires geometry.floorSize.x >= 0.0 && geometry.floorSize.z >= 0.0
      modifies this, base
      ensures Valid() && base.initialized
      ensures r.Failure? <==> floor.None?
      ensures r.Success? ==> floorBox == Some(geometry.floorSize) && grid.Some? && GridMatches(grid.value, geometry)
    {
      base.Initialize(manager);
      r := CreateGrid(geometry);
    }

    /**
     * `getGrid`: the cached grid, built first when there is none; a forced
     * update always builds a new one.
     */
    method GetGrid(forceUpdate: bool, geometry: Geometry) returns (r: Result<Option<Grid>>)
      requires Valid() && |geometry.bounds| == |group.rigidbodies|
      requires geometry.floorSize.x >= 0.0 && geometry.floorSize.z >= 0.0
      modifies this
      ensures Valid()
      ensures old(grid).Some? && !forceUpdate ==> r == Success(old(grid)) && grid == old(grid)
      ensures r.Success? && r.value.Some? ==> grid == r.value
      ensures old(grid).Some? && forceUpdate ==> r.Success? && r.value.Some? && fresh(r.value.value) && GridMatches(r.value.value, geometry)
    {
      if grid.None? {
        var created := CreateGrid(geometry);
        if created.Failure? {
          return Failure(created.error);
        }
      }
      if forceUpdate {
        var g := ComputeGrid(geometry);
        return Success(g);
      }
      return Success(grid);
    }

    /** `getGridCoords`: no coordinates before the floor box is known, otherwise the clamped cell under the point. */
    function GetGridCoords(position: Vector3): (r: Option<Coords>)
      reads this, if grid.Some? then {grid.value} else {}
      requires Valid()
      ensures floorBox.None? <==> r.None?
      ensures r.Some? && grid.value.width > 0 && grid.value.height > 0 ==>
                0 <= r.value.x < grid.value.width && 0 <= r.value.y < grid.value.height
    {
      if floorBox.None? then None
      else Some(GridCoords(floorToWorld(position), floorBox.value, cellSize, grid.value.width, grid.value.height))
    }
  }

  /** The traversal of `createGrid`: every floor-tagged node replaces the floor found so far. */
  method FindFloor(nodes: seq<Node>, previous: Option<Node>) returns (floor: Option<Node>)
    ensures floor == LastFloor(nodes, previous)
  {
    floor := previous;
    var i := 0;
    while i < |nodes|
      invariant 0 <= i <= |nodes|
      invariant floor == LastFloor(nodes[..i], previous)
    {
      assert nodes[..i + 1][..i] == nodes[..i];
      if IsFloor(nodes[i]) {
        floor := Some(nodes[i]);
      }
      i := i + 1;
    }
    assert nodes[..i] == nodes;
  }
}
