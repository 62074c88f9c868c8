/** The tech-grid background (src/components/backgrounds/TechGridBackground.tsx):
    a 12 x 8 grid of nodes, a few of which light up on every interval tick
    and are joined by lines. `Math.random()` draws are passed in. */
module TechGrid {
  import opened Seqs

  const Cols: nat := 12
  const Rows: nat := 8
  const NodeCount: nat := 96

  datatype GridNode = GridNode(id: nat, x: real, y: real, delay: real)

  /** The node the generator pushes as its `k`-th element: row-major
      position, x and y spread over 0..100 percent, delay twice the draw. */
  function NodeAt(k: nat, draw: real): GridNode {
    GridNode(k, ((k % Cols) as real) / ((Cols - 1) as real) * 100.0,
                ((k / Cols) as real) / ((Rows - 1) as real) * 100.0,
                draw * 2.0)
  }

  /** Every generated node lies inside the 0..100 square; the first column
      is at x = 0 and the last at x = 100. */
  lemma NodeInSquare(k: nat, draw: real)
    requires k < NodeCount
    ensures 0.0 <= NodeAt(k, draw).x <= 100.0
    ensures 0.0 <= NodeAt(k, draw).y <= 100.0
    ensures k % Cols == 0 ==> NodeAt(k, draw).x == 0.0
    ensures k % Cols == Cols - 1 ==> NodeAt(k, draw).x == 100.0
  {
    assert 0 <= k / Cols < Rows;
  }

  lemma RowMajor(row: nat, col: nat)
    requires col < Cols
    ensures (row * Cols + col) % Cols == col
    ensures (row * Cols + col) / Cols == row
  {
  }

  /** The `nodes` memo: two nested loops pushing nodes with a running id. */
  method BuildNodes(draws: seq<real>) returns (nodes: seq<GridNode>)
    requires |draws| >= NodeCount
    ensures |nodes| == NodeCount == Rows * Cols
    ensures forall k :: 0 <= k < |nodes| ==> nodes[k] == NodeAt(k, draws[k])
    ensures forall k :: 0 <= k < |nodes| ==> nodes[k].id == k
    ensures forall k :: 0 <= k < |nodes| ==>
      0.0 <= nodes[k].x <= 100.0 && 0.0 <= nodes[k].y <= 100.0
  {
    nodes := [];
    var id := 0;
    var row := 0;
    while row < Rows
      invariant 0 <= row <= Rows
      invariant id == |nodes| == row * Cols
      invariant forall k :: 0 <= k < |nodes| ==> nodes[k] == NodeAt(k, draws[k])
    {
      var col := 0;
      while col < Cols
        invariant 0 <= col <= Cols
        invariant id == |nodes| == row * Cols + col
        invariant forall k :: 0 <= k < |nodes| ==> nodes[k] == NodeAt(k, draws[k])
      {
        RowMajor(row, col);
        nodes := nodes + [GridNode(id, (col as real) / ((Cols - 1) as real) * 100.0,
                                       (row as real) / ((Rows - 1) as real) * 100.0,
                                       draws[id] * 2.0)];
        id := id + 1;
        col := col + 1;
      }
      row := row + 1;
    }
    forall k | 0 <= k < |nodes|
      ensures 0.0 <= nodes[k].x <= 100.0 && 0.0 <= nodes[k].y <= 100.0
    {
      NodeInSquare(k, draws[k]);
    }
  }

  /** `Set.prototype.add` on an insertion-ordered set held as a sequence. */
  function SetAdd(s: seq<nat>, x: nat): seq<nat> {
    if x in s then s else s + [x]
  }

  /** The set built by adding `xs` in order to the empty set. */
  function Dedup(xs: seq<nat>): (r: seq<nat>)
    ensures |r| <= |xs|
    decreases |xs|
  {
    if xs == [] then [] else SetAdd(Dedup(xs[..|xs| - 1]), xs[|xs| - 1])
  }

  /** The set holds each added value once, holds exactly the added values,
      and is non-empty when something was added. */
  lemma {:induction false} DedupIsSet(xs: seq<nat>)
    ensures Distinct(Dedup(xs))
    ensures forall x :: x in Dedup(xs) <==> x in xs
    ensures xs != [] ==> |Dedup(xs)| >= 1
    decreases |xs|
  {
    if xs != [] {
      var init := xs[..|xs| - 1];
      DedupIsSet(init);
      assert xs == init + [xs[|xs| - 1]];
    }
  }

  /** `Math.floor(r * nodes.length)` for a draw r in [0, 1). */
  function PickNode(r: real): (id: nat)
    requires 0.0 <= r < 1.0
    ensures id < NodeCount
  {
    var f := (r * (NodeCount as real)).Floor;
    f
  }

  /** `3 + Math.floor(r * 5)` for a draw r in [0, 1). */
  function ActiveCount(r: real): (n: nat)
    requires 0.0 <= r < 1.0
    ensures 3 <= n <= 7
  {
    3 + (r * 5.0).Floor
  }

  /** One interval tick: draw how many nodes to light, then add that many
      random node ids to a fresh set. `picks` holds the id draws in order. */
  method NewActive(countDraw: real, picks: seq<real>) returns (active: seq<nat>)
    requires 0.0 <= countDraw < 1.0
    requires |picks| >= 7
    requires forall i :: 0 <= i < |picks| ==> 0.0 <= picks[i] < 1.0
    ensures active == Dedup(Picked(picks, ActiveCount(countDraw)))
    ensures 1 <= |active| <= 7
    ensures Distinct(active)
    ensures forall x :: x in active ==> x < NodeCount
  {
    var numActive := ActiveCount(countDraw);
    active := [];
    var i := 0;
    while i < numActive
      invariant 0 <= i <= numActive
      invariant active == Dedup(Picked(picks, i))
    {
      assert Picked(picks, i + 1)[..i] == Picked(picks, i);
      active := SetAdd(active, PickNode(picks[i]));
      i := i + 1;
    }
    DedupIsSet(Picked(picks, numActive));
    PickedBelow(picks, numActive);
  }

  /** The ids drawn from the first `n` picks. */
  function Picked(picks: seq<real>, n: nat): (ids: seq<nat>)
    requires n <= |picks|
    requires forall i :: 0 <= i < |picks| ==> 0.0 <= picks[i] < 1.0
    ensures |ids| == n
  {
    seq(n, i requires 0 <= i < n => PickNode(picks[i]))
  }

  lemma PickedBelow(picks: seq<real>, n: nat)
    requires n <= |picks|
    requires forall i :: 0 <= i < |picks| ==> 0.0 <= picks[i] < 1.0
    ensures forall x :: x in Picked(picks, n) ==> x < NodeCount
  {
  }

  /** The connection lines: each active id paired with the next one in set
      order, wrapping around; a pair of equal ids draws nothing. */
  function Connections(active: seq<nat>): (lines: seq<(nat, nat)>)
  {
    ConnectionsFrom(active, 0)
  }

  function ConnectionsFrom(active: seq<nat>, idx: nat): (lines: seq<(nat, nat)>)
    decreases |active| - idx
  {
    if idx >= |active| then []
    else
      var next := active[(idx + 1) % |active|];
      if active[idx] == next then ConnectionsFrom(active, idx + 1)
      else [(active[idx], next)] + ConnectionsFrom(active, idx + 1)
  }

  /** For a set of distinct ids: one id draws no line; n >= 2 ids draw n
      lines, line `i` going from the `i`-th id to the next, wrapping. */
  lemma {:induction false} ConnectionsCount(active: seq<nat>, idx: nat)
    requires Distinct(active)
    requires idx <= |active|
    ensures |active| == 1 ==> ConnectionsFrom(active, idx) == []
    ensures |active| >= 2 ==> |ConnectionsFrom(active, idx)| == |active| - idx
    ensures |active| >= 2 ==> forall i :: 0 <= i < |active| - idx ==>
      ConnectionsFrom(active, idx)[i] == (active[idx + i], active[(idx + i + 1) % |active|])
    decreases |active| - idx
  {
    if idx < |active| {
      ConnectionsCount(active, idx + 1);
      if |active| >= 2 {
        assert active[idx] != active[(idx + 1) % |active|];
      }
    }
  }

  /** Every line joins two different active nodes, so both ends look up
      existing grid nodes when the ids are below 96. */
  lemma ConnectionEnds(active: seq<nat>)
    requires Distinct(active)
    ensures forall i :: 0 <= i < |Connections(active)| ==>
      Connections(active)[i].0 in active && Connections(active)[i].1 in active
      && Connections(active)[i].0 != Connections(active)[i].1
  {
    ConnectionsCount(active, 0);
    if |active| >= 2 {
      forall i | 0 <= i < |Connections(active)|
        ensures Connections(active)[i].0 in active && Connections(active)[i].1 in active
      {
        assert Connections(active)[i] == (active[i], active[(i + 1) % |active|]);
      }
    }
  }

  class Background {
    /** The `activeNodes` state. */
    var activeNodes: seq<nat>

    constructor ()
      ensures activeNodes == []
    {
      activeNodes := [];
    }

    /** One firing of the interval. Under reduced motion the effect returns
        before scheduling it, so nothing changes. */
    method Tick(reducedMotion: bool, countDraw: real, picks: seq<real>)
      requires 0.0 <= countDraw < 1.0
      requires |picks| >= 7
      requires forall i :: 0 <= i < |picks| ==> 0.0 <= picks[i] < 1.0
      modifies this
      ensures reducedMotion ==> activeNodes == old(activeNodes)
      ensures !reducedMotion ==>
        activeNodes == Dedup(Picked(picks, ActiveCount(countDraw)))
        && 1 <= |activeNodes| <= 7
        && (forall x :: x in activeNodes ==> x < NodeCount)
    {
      if !reducedMotion {
        activeNodes := NewActive(countDraw, picks);
      }
    }
  }
}
