/** The waypoint grid builder (Assets/Sheep/Prefabs/BFS/NodePlacer.cs).

    GenerateNodes finds or creates the "Nodes" container, deletes its
    children, walks a rows x columns grid of candidate points centred on the
    placer, drops a ray onto the ground from ten units above each candidate,
    creates a node at every hit point, and finally applies the rendering
    toggle. The scene search `GameObject.Find("Nodes")` and the downward
    raycast are oracles: a container that may be absent, and a function from
    the ray origin to the hit point, if any. */
module Waypoints {
  import opened Scene

  /** A waypoint marker: a child of the container with an optional renderer. */
  class Node {
    const position: Vec3
    const hasRenderer: bool
    var rendererEnabled: bool

    /** `CreateDebugNode`: a primitive sphere, which always has a renderer. */
    constructor (p: Vec3)
      ensures position == p && hasRenderer && rendererEnabled
    {
      position, hasRenderer, rendererEnabled := p, true, true;
    }
  }

  /** The "Nodes" container object; its children in sibling order. */
  class Container {
    var children: seq<Node>

    constructor ()
      ensures children == []
    {
      children := [];
    }
  }

  /** The grid settings of the placer. */
  datatype Grid = Grid(rows: int, columns: int, spacing: real, areaSize: Vec3, origin: Vec3)

  function Count(n: int): nat {
    if n < 0 then 0 else n
  }

  /** `transform.position - (areaSize.x / 2, 0, areaSize.z / 2)`. */
  function StartPos(g: Grid): Vec3 {
    Sub(g.origin, Vec3(g.areaSize.x / 2.0, 0.0, g.areaSize.z / 2.0))
  }

  /** The candidate point of grid cell (row, col). */
  function Candidate(g: Grid, row: int, col: int): Vec3 {
    Add(StartPos(g), Vec3(col as real * g.spacing, 0.0, row as real * g.spacing))
  }

  /** GetSurfacePosition: the ground hit below `p` (the ray starts ten units
      above the placer), or the zero vector when the ray hits nothing. */
  function SurfacePosition(g: Grid, p: Vec3, probe: Vec3 -> Option<Vec3>): (r: Vec3)
    ensures probe(Vec3(p.x, g.origin.y + 10.0, p.z)).None? ==> r == Zero
    ensures probe(Vec3(p.x, g.origin.y + 10.0, p.z)).Some? ==> r == probe(Vec3(p.x, g.origin.y + 10.0, p.z)).value
  {
    match probe(Vec3(p.x, g.origin.y + 10.0, p.z))
    case Some(hit) => hit
    case None => Zero
  }

  /** The node positions the first `cols` cells of one row produce. */
  function RowPositions(g: Grid, row: int, cols: nat, probe: Vec3 -> Option<Vec3>): seq<Vec3> {
    if cols == 0 then []
    else
      var p := SurfacePosition(g, Candidate(g, row, cols - 1), probe);
      RowPositions(g, row, cols - 1, probe) + (if p != Zero then [p] else [])
  }

  /** The node positions the first `rows` rows produce, row after row. */
  function GridPositions(g: Grid, rows: nat, probe: Vec3 -> Option<Vec3>): seq<Vec3> {
    if rows == 0 then []
    else GridPositions(g, rows - 1, probe) + RowPositions(g, rows - 1, Count(g.columns), probe)
  }

  /** The positions of a container's children, in order. */
  function Positions(nodes: seq<Node>): seq<Vec3> {
    if |nodes| == 0 then [] else Positions(nodes[..|nodes| - 1]) + [nodes[|nodes| - 1].position]
  }

  class NodePlacer {
    var rows: int
    var columns: int
    var spacing: real
    var areaSize: Vec3
    var position: Vec3         // transform.position
    var renderNodes: bool
    var nodesParent: Container?

    constructor (p: Vec3)
      ensures rows == 5 && columns == 5 && spacing == 2.0 && areaSize == Vec3(10.0, 1.0, 10.0)
      ensures position == p && renderNodes && nodesParent == null
    {
      rows, columns, spacing, areaSize := 5, 5, 2.0, Vec3(10.0, 1.0, 10.0);
      position, renderNodes, nodesParent := p, true, null;
    }

    function Layout(): Grid
      reads this
    {
      Grid(rows, columns, spacing, areaSize, position)
    }

    /** GenerateNodes: afterwards the container holds exactly the nodes of
        this call, one per grid cell whose probe hit away from the origin,
        in row-major order, each rendered as `renderNodes` says. */
    method GenerateNodes(found: Container?, probe: Vec3 -> Option<Vec3>)
      modifies this`nodesParent, found
      ensures found != null ==> nodesParent == found
      ensures found == null ==> nodesParent != null && fresh(nodesParent)
      ensures nodesParent != null
      ensures Positions(nodesParent.children) == GridPositions(Layout(), Count(rows), probe)
      ensures forall k :: 0 <= k < |nodesParent.children| ==>
                fresh(nodesParent.children[k]) && nodesParent.children[k].hasRenderer &&
                nodesParent.children[k].rendererEnabled == renderNodes
    {
      FindOrCreateParent(found);
      ClearExistingNodes();
      var parent := nodesParent;
      assert parent != null;
      PlaceGrid(parent, Layout(), probe);
      SetNodeRendering(renderNodes);
    }

    /** FindOrCreateParent: the container found in the scene, or a new one. */
    method FindOrCreateParent(found: Container?)
      modifies this`nodesParent
      ensures found != null ==> nodesParent == found
      ensures found == null ==> nodesParent != null && fresh(nodesParent) && nodesParent.children == []
    {
      if found != null {
        nodesParent := found;
      } else {
        nodesParent := new Container();
      }
    }

    /** ClearExistingNodes: deletes the children from last to first; a no-op
        without a container. */
    method ClearExistingNodes()
      modifies nodesParent
      ensures nodesParent != null ==> nodesParent.children == []
    {
      if nodesParent == null {
        return;
      }
      var i := |nodesParent.children| - 1;
      while i >= 0
        invariant -1 <= i < |nodesParent.children|
        invariant nodesParent.children == old(nodesParent.children)[..i + 1]
      {
        nodesParent.children := nodesParent.children[..i];
        i := i - 1;
      }
    }

    /** SetNodeRendering: every child with a renderer gets `state`; nothing
        else changes, and without a container nothing happens. */
    method SetNodeRendering(state: bool)
      modifies if nodesParent != null then set n | n in nodesParent.children else {}
      ensures nodesParent != null ==>
                forall n :: n in nodesParent.children ==>
                  n.rendererEnabled == if n.hasRenderer then state else old(n.rendererEnabled)
    {
      if nodesParent == null {
        return;
      }
      var nodes := nodesParent.children;
      var i := 0;
      while i < |nodes|
        invariant 0 <= i <= |nodes|
        invariant forall n :: n in nodes[..i] ==> n.rendererEnabled == if n.hasRenderer then state else old(n.rendererEnabled)
        invariant forall n :: n in nodes[i..] && n !in nodes[..i] ==> n.rendererEnabled == old(n.rendererEnabled)
      {
        if nodes[i].hasRenderer {
          nodes[i].rendererEnabled := state;
        }
        i := i + 1;
      }
    }
  }

  /** The outer loop of GenerateNodes: the rows one after another, each
      appending its nodes after those of the rows before it. */
  method PlaceGrid(parent: Container, g: Grid, probe: Vec3 -> Option<Vec3>)
    modifies parent
    ensures |old(parent.children)| <= |parent.children|
    ensures parent.children[..|old(parent.children)|] == old(parent.children)
    ensures Positions(parent.children) == Positions(old(parent.children)) + GridPositions(g, Count(g.rows), probe)
    ensures forall k :: |old(parent.children)| <= k < |parent.children| ==>
              fresh(parent.children[k]) && parent.children[k].hasRenderer
  {
    var row := 0;
    while row < g.rows
      invariant 0 <= row <= Count(g.rows)
      invariant |old(parent.children)| <= |parent.children|
      invariant parent.children[..|old(parent.children)|] == old(parent.children)
      invariant Positions(parent.children) == Positions(old(parent.children)) + GridPositions(g, row, probe)
      invariant forall k :: |old(parent.children)| <= k < |parent.children| ==>
                  fresh(parent.children[k]) && parent.children[k].hasRenderer
    {
      ghost var before := parent.children;
      PlaceRow(parent, g, row, probe);
      assert parent.children[..|old(parent.children)|] == before[..|old(parent.children)|];
      assert GridPositions(g, row + 1, probe) == GridPositions(g, row, probe) + RowPositions(g, row, Count(g.columns), probe);
      row := row + 1;
    }
  }

  /** The inner loop of GenerateNodes: one row of cells, a node appended
      after the container's children for every ground hit that is not the
      zero vector. */
  method PlaceRow(parent: Container, g: Grid, row: int, probe: Vec3 -> Option<Vec3>)
    modifies parent
    ensures |old(parent.children)| <= |parent.children|
    ensures parent.children[..|old(parent.children)|] == old(parent.children)
    ensures Positions(parent.children) == Positions(old(parent.children)) + RowPositions(g, row, Count(g.columns), probe)
    ensures forall k :: |old(parent.children)| <= k < |parent.children| ==>
              fresh(parent.children[k]) && parent.children[k].hasRenderer
  {
    var col := 0;
    while col < g.columns
      invariant 0 <= col <= Count(g.columns)
      invariant |old(parent.children)| <= |parent.children|
      invariant parent.children[..|old(parent.children)|] == old(parent.children)
      invariant Positions(parent.children) == Positions(old(parent.children)) + RowPositions(g, row, col, probe)
      invariant forall k :: |old(parent.children)| <= k < |parent.children| ==>
                  fresh(parent.children[k]) && parent.children[k].hasRenderer
    {
      var nodePosition := Candidate(g, row, col);
      nodePosition := SurfacePosition(g, nodePosition, probe);
      assert RowPositions(g, row, col + 1, probe)
          == RowPositions(g, row, col, probe) + (if nodePosition != Zero then [nodePosition] else []);
      if nodePosition != Zero {
        var node := new Node(nodePosition);
        PositionsAppend(parent.children, node);
        parent.children := parent.children + [node];
      }
      col := col + 1;
    }
  }

  lemma PositionsAppend(nodes: seq<Node>, n: Node)
    ensures Positions(nodes + [n]) == Positions(nodes) + [n.position]
  {
    assert (nodes + [n])[..|nodes|] == nodes;
  }

  // ---------------------------------------------------------------------
  // Properties of the grid layout

  /** A row of `cols` cells places at most `cols` nodes. */
  lemma {:induction false} RowSize(g: Grid, row: int, cols: nat, probe: Vec3 -> Option<Vec3>)
    ensures |RowPositions(g, row, cols, probe)| <= cols
  {
    if cols > 0 {
      RowSize(g, row, cols - 1, probe);
    }
  }

  /** At most rows * columns nodes are placed. */
  lemma {:induction false} GridSize(g: Grid, rows: nat, probe: Vec3 -> Option<Vec3>)
    ensures |GridPositions(g, rows, probe)| <= rows * Count(g.columns)
  {
    if rows > 0 {
      GridSize(g, rows - 1, probe);
      RowSize(g, rows - 1, Count(g.columns), probe);
      assert rows * Count(g.columns) == (rows - 1) * Count(g.columns) + Count(g.columns);
    }
  }

  /** A row holds exactly the ground hits of its cells that are not the zero vector. */
  lemma {:induction false} RowMembers(g: Grid, row: int, cols: nat, probe: Vec3 -> Option<Vec3>, p: Vec3)
    ensures p in RowPositions(g, row, cols, probe)
            <==> p != Zero && exists c :: 0 <= c < cols && SurfacePosition(g, Candidate(g, row, c), probe) == p
  {
    if cols > 0 {
      RowMembers(g, row, cols - 1, probe, p);
      var q := SurfacePosition(g, Candidate(g, row, cols - 1), probe);
      if p != Zero && q == p {
        assert p in RowPositions(g, row, cols, probe);
      }
    }
  }

  /** A position is a node of the grid exactly when it is not the zero
      vector and some cell's ground probe hit there: misses, and hits that
      land exactly on the world origin, place nothing. */
  lemma {:induction false} GridMembers(g: Grid, rows: nat, probe: Vec3 -> Option<Vec3>, p: Vec3)
    ensures p in GridPositions(g, rows, probe)
            <==> p != Zero && exists r, c :: 0 <= r < rows && 0 <= c < Count(g.columns) &&
                                           SurfacePosition(g, Candidate(g, r, c), probe) == p
  {
    if rows > 0 {
      GridMembers(g, rows - 1, probe, p);
      RowMembers(g, rows - 1, Count(g.columns), probe, p);
      if p != Zero && exists r, c :: 0 <= r < rows && 0 <= c < Count(g.columns) &&
                                   SurfacePosition(g, Candidate(g, r, c), probe) == p {
        var r, c :| 0 <= r < rows && 0 <= c < Count(g.columns) && SurfacePosition(g, Candidate(g, r, c), probe) == p;
        if r == rows - 1 {
          assert p in RowPositions(g, rows - 1, Count(g.columns), probe);
        }
      }
    }
  }

  /** Every cell's probe hits away from the origin. */
  predicate AllHit(g: Grid, rows: nat, probe: Vec3 -> Option<Vec3>) {
    forall r, c :: 0 <= r < rows && 0 <= c < Count(g.columns) ==> SurfacePosition(g, Candidate(g, r, c), probe) != Zero
  }

  lemma {:induction false} FullRow(g: Grid, row: int, cols: nat, probe: Vec3 -> Option<Vec3>)
    requires forall c :: 0 <= c < cols ==> SurfacePosition(g, Candidate(g, row, c), probe) != Zero
    ensures |RowPositions(g, row, cols, probe)| == cols
    ensures forall c :: 0 <= c < cols ==> RowPositions(g, row, cols, probe)[c] == SurfacePosition(g, Candidate(g, row, c), probe)
  {
    if cols > 0 {
      FullRow(g, row, cols - 1, probe);
    }
  }

  /** Where row `r` starts in a grid `w` cells wide, counted row by row. */
  function Offset(r: nat, w: nat): nat {
    if r == 0 then 0 else Offset(r - 1, w) + w
  }

  lemma {:induction false} OffsetIsProduct(r: nat, w: nat)
    ensures Offset(r, w) == r * w
  {
    if r > 0 {
      OffsetIsProduct(r - 1, w);
      assert r * w == (r - 1) * w + w;
    }
  }

  /** When every probe hits, the grid holds `Offset(rows, w)` nodes. */
  lemma {:induction false} GridLength(g: Grid, rows: nat, probe: Vec3 -> Option<Vec3>)
    requires AllHit(g, rows, probe)
    ensures |GridPositions(g, rows, probe)| == Offset(rows, Count(g.columns))
  {
    if rows > 0 {
      assert AllHit(g, rows - 1, probe);
      GridLength(g, rows - 1, probe);
      FullRow(g, rows - 1, Count(g.columns), probe);
    }
  }

  /** When every probe hits, cell (r, c) is node number `Offset(r, w) + c`. */
  lemma {:induction false} GridCell(g: Grid, rows: nat, probe: Vec3 -> Option<Vec3>, r: nat, c: nat)
    requires AllHit(g, rows, probe)
    requires r < rows && c < Count(g.columns)
    ensures Offset(r, Count(g.columns)) + c < |GridPositions(g, rows, probe)|
    ensures GridPositions(g, rows, probe)[Offset(r, Count(g.columns)) + c] == SurfacePosition(g, Candidate(g, r, c), probe)
    decreases rows
  {
    var w := Count(g.columns);
    var n := rows - 1;
    assert AllHit(g, n, probe);
    var before := GridPositions(g, n, probe);
    var last := RowPositions(g, n, w, probe);
    assert GridPositions(g, rows, probe) == before + last;
    FullRow(g, n, w, probe);
    var i := Offset(r, w) + c;
    if r < n {
      GridCell(g, n, probe, r, c);
      assert (before + last)[i] == before[i];
    } else {
      GridLength(g, n, probe);
      assert (before + last)[i] == last[c];
    }
  }

  /** When every probe hits, the nodes are exactly the cells in row-major
      order: the node of cell (r, c) sits at index r * columns + c. */
  lemma {:induction false} RowMajorOrder(g: Grid, rows: nat, probe: Vec3 -> Option<Vec3>)
    requires AllHit(g, rows, probe)
    ensures |GridPositions(g, rows, probe)| == rows * Count(g.columns)
    ensures forall r, c :: 0 <= r < rows && 0 <= c < Count(g.columns) ==>
              GridPositions(g, rows, probe)[r * Count(g.columns) + c] == SurfacePosition(g, Candidate(g, r, c), probe)
  {
    var w := Count(g.columns);
    GridLength(g, rows, probe);
    OffsetIsProduct(rows, w);
    forall r, c | 0 <= r < rows && 0 <= c < w
      ensures r * w + c < |GridPositions(g, rows, probe)| &&
              GridPositions(g, rows, probe)[r * w + c] == SurfacePosition(g, Candidate(g, r, c), probe)
    {
      GridCell(g, rows, probe, r, c);
      OffsetIsProduct(r, w);
    }
  }
}
