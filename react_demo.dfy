/** The React demo (src/components/skills/demos/ReactDemo.tsx): a
    four-node component tree whose nodes light up in turn. */
module ReactDemo {
  import opened Wrappers
  import opened Text
  import opened DemoCounter

  datatype TreeNode = TreeNode(id: string, level: nat, x: nat)
  datatype Connection = Connection(from: string, to: string)

  const Nodes: seq<TreeNode> := [
    TreeNode("app", 0, 50),
    TreeNode("header", 1, 25),
    TreeNode("main", 1, 75),
    TreeNode("button", 2, 75)
  ]

  const Connections: seq<Connection> := [
    Connection("app", "header"),
    Connection("app", "main"),
    Connection("main", "button")
  ]

  /** `nodes.find(n => n.id === id)`: the first node with that id. */
  function Find(nodes: seq<TreeNode>, id: string): (r: Option<TreeNode>)
    ensures r.Some? <==> exists i :: 0 <= i < |nodes| && nodes[i].id == id
    ensures r.Some? ==> r.value in nodes && r.value.id == id
    ensures r.Some? ==> exists i :: 0 <= i < |nodes| && nodes[i] == r.value
                                    && forall j :: 0 <= j < i ==> nodes[j].id != id
    decreases |nodes|
  {
    if nodes == [] then None
    else if nodes[0].id == id then Some(nodes[0])
    else
      var r := Find(nodes[1..], id);
      assert forall i :: 1 <= i < |nodes| ==> nodes[i] == nodes[1..][i - 1];
      assert r.Some? ==> exists i :: 0 <= i < |nodes| && nodes[i] == r.value
                                     && forall j :: 0 <= j < i ==> nodes[j].id != id
      by {
        if r.Some? {
          var k :| 0 <= k < |nodes[1..]| && nodes[1..][k] == r.value
                   && forall j :: 0 <= j < k ==> nodes[1..][j].id != id;
          assert nodes[k + 1] == r.value;
          assert forall j :: 0 <= j < k + 1 ==> nodes[j].id != id;
        }
      }
      r
  }

  /** The y coordinate of a line end. */
  function LineY(level: nat): (y: nat)
    ensures y >= 20 && (y - 20) % 50 == 0
  {
    level * 50 + 20
  }

  /** Every connection's ends are found, so the non-null assertions after
      `find` hold; each line goes down exactly one level, 50 units. */
  lemma ConnectionsWellFormed(c: nat)
    requires c < |Connections|
    ensures Find(Nodes, Connections[c].from).Some?
    ensures Find(Nodes, Connections[c].to).Some?
    ensures Find(Nodes, Connections[c].to).value.level == Find(Nodes, Connections[c].from).value.level + 1
    ensures LineY(Find(Nodes, Connections[c].to).value.level) == LineY(Find(Nodes, Connections[c].from).value.level) + 50
  {
    assert Nodes[1..] == [Nodes[1], Nodes[2], Nodes[3]];
    assert Nodes[1..][1..] == [Nodes[2], Nodes[3]];
  }

  /** Node `i` is lit when `activeNode` is `i`. */
  predicate NodeLit(activeNode: nat, i: nat) {
    activeNode == i
  }

  lemma ExactlyOneNode(activeNode: nat)
    requires activeNode < |Nodes|
    ensures NodeLit(activeNode, activeNode)
    ensures forall i :: 0 <= i < |Nodes| && NodeLit(activeNode, i) ==> i == activeNode
  {
  }

  /** The state label. */
  function StateLabel(activeNode: nat): (shown: string)
    ensures "count: " <= shown
    ensures shown[|"count: "|..] == NatToString(activeNode)
  {
    "count: " + NatToString(activeNode)
  }

  class Demo {
    var activeNode: nat
    var isPlaying: bool

    predicate Valid()
      reads this
    {
      activeNode < |Nodes|
    }

    constructor (playing: bool)
      ensures activeNode == 0 && isPlaying == playing && Valid()
    {
      activeNode, isPlaying := 0, playing;
    }

    method SetPlaying(playing: bool)
      modifies this
      ensures isPlaying == playing && activeNode == old(activeNode)
    {
      isPlaying := playing;
    }

    method Tick()
      requires Valid() && isPlaying
      modifies this
      ensures Valid() && isPlaying
      ensures activeNode == Next(old(activeNode), |Nodes|)
    {
      activeNode := Next(activeNode, |Nodes|);
    }
  }
}
