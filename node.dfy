/**
  * A node in a diagram: an object whose mutators update its position, its diagram attachment
  * and its parent link in place.
  *
  * Each mutator changes this node only (`modifies this`): no diagram and no parent node is
  * touched, so `attach` does not add the node to the diagram and neither `unlink` nor
  * `setParent` changes the parent's children. Each mutator's effect is also stated as one
  * `NodeModel.Step` from the state before the call, which makes the lemmas of `NodeModel`
  * about sequences of calls apply to the node.
  */
module Nodes {
  import opened Wrappers
  import opened Geom
  import NodeModel

  class Node {
    var pos: Point
    var diagram: Option<NodeModel.DiagramId>
    var parent: Option<NodeModel.ParentId>
    /** Whether nodes of this kind may only exist inside a parent; fixed for the node's life. */
    const requiresParent: bool
    /** Whether nodes of this kind support `SetParent` (by default they do not); fixed for the node's life. */
    const acceptsParent: bool

    /** A standalone node of the given kind at `position`: attached to no diagram, linked to no parent. */
    constructor (requiresParent: bool, acceptsParent: bool, position: Point)
      ensures State() == NodeModel.NodeState(position, None, None, requiresParent, acceptsParent)
    {
      this.requiresParent := requiresParent;
      this.acceptsParent := acceptsParent;
      pos := position;
      diagram := None;
      parent := None;
    }

    /** Everything the queries of this node report. */
    ghost function State(): NodeModel.NodeState
      reads this
    {
      NodeModel.NodeState(pos, diagram, parent, requiresParent, acceptsParent)
    }

    /** The position of this node, usually the top left corner of its bounding box. */
    function Position(): (p: Point)
      reads this
      ensures p == State().position
    {
      pos
    }

    /** The diagram this node is attached to, or `None` if it is not attached. */
    function GetDiagram(): (d: Option<NodeModel.DiagramId>)
      reads this
      ensures d == State().diagram
    {
      diagram
    }

    /** Whether this node is linked to a parent node. */
    function HasParent(): (b: bool)
      reads this
      ensures b <==> State().parent.Some?
    {
      parent.Some?
    }

    /** Whether this kind of node needs a parent, rather than being able to exist as a root node. */
    function RequiresParent(): (b: bool)
      ensures b == requiresParent
    {
      requiresParent
    }

    /** The parent node of this node; only defined when the node has one, and then never null. */
    function GetParent(): (p: NodeModel.ParentId)
      reads this
      requires HasParent()
      ensures State().parent == Some(p)
    {
      parent.value
    }

    /** Moves the node to `p`. */
    method MoveTo(p: Point)
      modifies this
      ensures Position() == p
      ensures GetDiagram() == old(GetDiagram()) && parent == old(parent)
      ensures NodeModel.Step(old(State()), NodeModel.MoveTo(p)) == Some(State())
    {
      pos := p;
    }

    /** Translates the node by `dx` along the x-axis and `dy` along the y-axis. */
    method Translate(dx: int, dy: int)
      modifies this
      ensures Position().x == old(Position().x) + dx && Position().y == old(Position().y) + dy
      ensures GetDiagram() == old(GetDiagram()) && parent == old(parent)
      ensures NodeModel.Step(old(State()), NodeModel.Translate(dx, dy)) == Some(State())
    {
      pos := pos.Translated(dx, dy);
    }

    /** Attaches this node to the diagram `d`. */
    method Attach(d: NodeModel.DiagramId)
      modifies this
      ensures GetDiagram() == Some(d)
      ensures Position() == old(Position()) && parent == old(parent)
      ensures NodeModel.Step(old(State()), NodeModel.Attach(d)) == Some(State())
    {
      diagram := Some(d);
    }

    /** Detaches this node from its current diagram, if any. */
    method Detach()
      modifies this
      ensures GetDiagram() == None
      ensures Position() == old(Position()) && parent == old(parent)
      ensures NodeModel.Step(old(State()), NodeModel.Detach) == Some(State())
    {
      diagram := None;
    }

    /** Unlinks this node from its parent node, leaving the parent's children as they are. */
    method Unlink()
      requires HasParent()
      modifies this
      ensures !HasParent()
      ensures Position() == old(Position()) && GetDiagram() == old(GetDiagram())
      ensures NodeModel.Step(old(State()), NodeModel.Unlink) == Some(State())
    {
      parent := None;
    }

    /** Links this node to the parent node `p`, leaving the parent's children as they are.
        Only kinds of node that accept a parent support this operation. */
    method SetParent(p: NodeModel.ParentId)
      requires acceptsParent
      modifies this
      ensures HasParent() && GetParent() == p
      ensures Position() == old(Position()) && GetDiagram() == old(GetDiagram())
      ensures NodeModel.Step(old(State()), NodeModel.SetParent(p)) == Some(State())
    {
      parent := Some(p);
    }

    /** A clone of this node: a new object of the same kind at the same position. */
    method Clone() returns (c: Node)
      ensures fresh(c)
      ensures c.requiresParent == requiresParent && c.acceptsParent == acceptsParent
      ensures c.Position() == Position()
    {
      c := new Node(requiresParent, acceptsParent, pos);
      c.diagram := diagram;
      c.parent := parent;
    }
  }
}
