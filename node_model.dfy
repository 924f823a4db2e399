/**
  * The observable state of one diagram node and the effect of each of its mutators, as values.
  *
  * A node has a position, an optional attachment to a diagram, an optional link to a parent
  * node, and two kind-dependent facts: whether it may only exist inside a parent, and whether
  * it accepts a parent at all (setting a parent is, by default, not supported). Diagrams
  * and parent nodes are referred to by identity only: nothing here reads or changes their state,
  * in particular no call ever adds to or removes from a parent's collection of children.
  *
  * `Step` gives the effect of one mutator call, `Run` that of a sequence of calls. A call whose
  * precondition does not hold is a contract violation: `Step` and `Run` then return `None`.
  */
module NodeModel {
  import opened Wrappers
  import opened Geom

  /** Identity of a diagram a node can be attached to. */
  datatype DiagramId = DiagramId(id: nat)

  /** Identity of a parent node a node can be linked to. */
  datatype ParentId = ParentId(id: nat)

  /** What the queries of a node report: `position()`, `getDiagram()`, the parent link
      behind `hasParent()` and `getParent()`, `requiresParent()`, and whether the node's kind
      supports `setParent` at all. */
  datatype NodeState = NodeState(
    position: Point,
    diagram: Option<DiagramId>,
    parent: Option<ParentId>,
    requiresParent: bool,
    acceptsParent: bool)

  /** One call of a mutator of the node interface. */
  datatype Call =
    | MoveTo(point: Point)
    | Translate(dx: int, dy: int)
    | Attach(d: DiagramId)
    | Detach
    | Unlink
    | SetParent(p: ParentId)
  {
    /** The call changes the position. */
    predicate Moves() { MoveTo? || Translate? }

    /** The call changes the diagram attachment. */
    predicate Reattaches() { Attach? || Detach? }

    /** The call changes the parent link. */
    predicate Relinks() { Unlink? || SetParent? }
  }

  /** The precondition of a call. The non-null preconditions of `attach` and `setParent` hold by
      typing (an identity is never null); `unlink` demands `hasParent()`, and `setParent` is
      only supported by kinds of node that accept a parent. */
  predicate Enabled(s: NodeState, c: Call)
  {
    && (c.Unlink? ==> s.parent.Some?)
    && (c.SetParent? ==> s.acceptsParent)
  }

  /** The state after calling `c` on a node in state `s`, or `None` if `c`'s precondition fails. */
  function Step(s: NodeState, c: Call): (r: Option<NodeState>)
    ensures r.Some? <==> Enabled(s, c)
    ensures r.Some? ==> r.value.requiresParent == s.requiresParent
    ensures r.Some? ==> r.value.acceptsParent == s.acceptsParent
    ensures r.Some? && !c.Moves() ==> r.value.position == s.position
    ensures r.Some? && !c.Reattaches() ==> r.value.diagram == s.diagram
    ensures r.Some? && !c.Relinks() ==> r.value.parent == s.parent
    ensures c.MoveTo? ==> r.Some? && r.value.position == c.point
    ensures c.Translate? ==> r.Some? && r.value.position.x == s.position.x + c.dx
                                     && r.value.position.y == s.position.y + c.dy
    ensures c.Attach? ==> r.Some? && r.value.diagram == Some(c.d)
    ensures c.Detach? ==> r.Some? && r.value.diagram == None
    ensures c.Unlink? && r.Some? ==> r.value.parent == None
    ensures c.SetParent? && r.Some? ==> r.value.parent == Some(c.p)
  {
    match c
    case MoveTo(point) => Some(s.(position := point))
    case Translate(dx, dy) => Some(s.(position := s.position.Translated(dx, dy)))
    case Attach(d) => Some(s.(diagram := Some(d)))
    case Detach => Some(s.(diagram := None))
    case Unlink => if s.parent.Some? then Some(s.(parent := None)) else None
    case SetParent(p) => if s.acceptsParent then Some(s.(parent := Some(p))) else None
  }

  /** The state after the calls `calls`, made in order, or `None` if one of them violates its
      precondition. Whatever no call touches is left as it was. */
  function Run(s: NodeState, calls: seq<Call>): (r: Option<NodeState>)
    ensures calls == [] ==> r == Some(s)
    ensures r.Some? ==> r.value.requiresParent == s.requiresParent
    ensures r.Some? ==> r.value.acceptsParent == s.acceptsParent
    ensures r.Some? && (forall i :: 0 <= i < |calls| ==> !calls[i].Moves()) ==>
              r.value.position == s.position
    ensures r.Some? && (forall i :: 0 <= i < |calls| ==> !calls[i].Reattaches()) ==>
              r.value.diagram == s.diagram
    ensures r.Some? && (forall i :: 0 <= i < |calls| ==> !calls[i].Relinks()) ==>
              r.value.parent == s.parent
    decreases |calls|
  {
    if calls == [] then Some(s)
    else
      match Step(s, calls[0])
      case None => None
      case Some(t) => Run(t, calls[1..])
  }

  /** Continue a run that may already have failed with the calls `calls`. */
  function Then(r: Option<NodeState>, calls: seq<Call>): Option<NodeState>
  {
    match r
    case None => None
    case Some(s) => Run(s, calls)
  }

  /** Running `a` and then `b` is running `a + b`: a call sequence can be split anywhere. */
  lemma {:induction false} RunAppend(s: NodeState, a: seq<Call>, b: seq<Call>)
    ensures Run(s, a + b) == Then(Run(s, a), b)
    decreases |a|
  {
    if a == [] {
      assert a + b == b;
    } else {
      assert (a + b)[0] == a[0];
      assert (a + b)[1..] == a[1..] + b;
      match Step(s, a[0])
      case None =>
      case Some(t) => RunAppend(t, a[1..], b);
    }
  }

  /** One more call at the end of a sequence is one more `Step`. */
  lemma RunSnoc(s: NodeState, calls: seq<Call>, c: Call)
    ensures Run(s, calls + [c]) == match Run(s, calls) case None => None case Some(u) => Step(u, c)
  {
    RunAppend(s, calls, [c]);
    match Run(s, calls)
    case None =>
    case Some(u) => assert [c][1..] == [];
  }

  // ---------------------------------------------------------------------------------------------
  // The position: translations add up, a move forgets the past.

  /** The total amount by which the `translate` calls of `calls` move a node. */
  function Displacement(calls: seq<Call>): (int, int)
    decreases |calls|
  {
    if calls == [] then (0, 0)
    else
      var rest := Displacement(calls[1..]);
      match calls[0]
      case Translate(dx, dy) => (dx + rest.0, dy + rest.1)
      case _ => rest
  }

  /** Without `moveTo`, a node ends where its translations take it: successive translations
      compose additively and no other call moves the node. */
  lemma {:induction false} RunDisplacement(s: NodeState, calls: seq<Call>, t: NodeState)
    requires Run(s, calls) == Some(t)
    requires forall i :: 0 <= i < |calls| ==> !calls[i].MoveTo?
    ensures t.position == s.position.Translated(Displacement(calls).0, Displacement(calls).1)
    decreases |calls|
  {
    if calls != [] {
      var u := Step(s, calls[0]).value;
      assert forall i :: 0 <= i < |calls[1..]| ==> calls[1..][i] == calls[i + 1];
      RunDisplacement(u, calls[1..], t);
    }
  }

  /** Two translations in a row do what one translation by the sum of their amounts does. */
  lemma TranslateTwice(s: NodeState, dx1: int, dy1: int, dx2: int, dy2: int)
    ensures Run(s, [Translate(dx1, dy1), Translate(dx2, dy2)]) == Run(s, [Translate(dx1 + dx2, dy1 + dy2)])
  {
  }

  /** After `moveTo(p)`, the position is `p` moved by the translations that follow, whatever the
      node's state and history before. */
  lemma RunAfterMoveTo(s: NodeState, before: seq<Call>, p: Point, after: seq<Call>, t: NodeState)
    requires Run(s, before + [MoveTo(p)] + after) == Some(t)
    requires forall i :: 0 <= i < |after| ==> !after[i].MoveTo?
    ensures t.position == p.Translated(Displacement(after).0, Displacement(after).1)
  {
    RunAppend(s, before + [MoveTo(p)], after);
    RunSnoc(s, before, MoveTo(p));
    var u := Run(s, before + [MoveTo(p)]).value;
    RunDisplacement(u, after, t);
  }

  // ---------------------------------------------------------------------------------------------
  // The diagram attachment: the last `attach` or `detach` decides.

  /** The attachment after `calls`, found from the end: the last `attach(d)` gives `d`, a later
      `detach()` gives none, and without either the attachment `d0` from before stays. */
  function DiagramAfter(d0: Option<DiagramId>, calls: seq<Call>): Option<DiagramId>
    decreases |calls|
  {
    if calls == [] then d0
    else
      match calls[|calls| - 1]
      case Attach(d) => Some(d)
      case Detach => None
      case _ => DiagramAfter(d0, calls[..|calls| - 1])
  }

  /** `getDiagram()` reports the diagram of the last `attach`, or none after a later `detach`. */
  lemma {:induction false} RunDiagram(s: NodeState, calls: seq<Call>, t: NodeState)
    requires Run(s, calls) == Some(t)
    ensures t.diagram == DiagramAfter(s.diagram, calls)
    decreases |calls|
  {
    if calls != [] {
      var init, c := calls[..|calls| - 1], calls[|calls| - 1];
      assert calls == init + [c];
      RunSnoc(s, init, c);
      assert Run(s, init).Some?;
      RunDiagram(s, init, Run(s, init).value);
    }
  }

  /** Attach, detach, attach again: the attachment is empty after the detach and the second
      attach succeeds, to the same or to another diagram. */
  lemma AttachDetachRoundTrip(s: NodeState, d: DiagramId, e: DiagramId)
    ensures Run(s, [Attach(d), Detach]) == Some(s.(diagram := None))
    ensures Run(s, [Attach(d), Detach, Attach(e)]) == Some(s.(diagram := Some(e)))
  {
    var calls := [Attach(d), Detach, Attach(e)];
    assert calls[..2] == [Attach(d), Detach];
    RunSnoc(s, calls[..2], Attach(e));
    RunSnoc(s, [Attach(d)], Detach);
    RunSnoc(s, [], Attach(d));
    assert calls[..2] + [Attach(e)] == calls;
  }

  /** Attaching twice to the same diagram is attaching once; attaching to `d1` and then to `d2`
      leaves the node attached to `d2` only. */
  lemma AttachOverwrites(s: NodeState, d1: DiagramId, d2: DiagramId)
    ensures Run(s, [Attach(d1), Attach(d2)]) == Some(s.(diagram := Some(d2)))
  {
  }

  // ---------------------------------------------------------------------------------------------
  // The parent link: the last `unlink` or `setParent` decides.

  /** The parent link after `calls`, found from the end: the last `setParent(p)` gives `p`, a later
      `unlink()` gives none, and without either the link `p0` from before stays. */
  function ParentAfter(p0: Option<ParentId>, calls: seq<Call>): Option<ParentId>
    decreases |calls|
  {
    if calls == [] then p0
    else
      match calls[|calls| - 1]
      case SetParent(p) => Some(p)
      case Unlink => None
      case _ => ParentAfter(p0, calls[..|calls| - 1])
  }

  /** `hasParent()` and `getParent()` report the parent of the last `setParent`, or no parent
      after a later `unlink`. */
  lemma {:induction false} RunParent(s: NodeState, calls: seq<Call>, t: NodeState)
    requires Run(s, calls) == Some(t)
    ensures t.parent == ParentAfter(s.parent, calls)
    decreases |calls|
  {
    if calls != [] {
      var init, c := calls[..|calls| - 1], calls[|calls| - 1];
      assert calls == init + [c];
      RunSnoc(s, init, c);
      assert Run(s, init).Some?;
      RunParent(s, init, Run(s, init).value);
    }
  }

  /** A sequence of calls violates a precondition exactly when it calls `unlink()` at a point
      where the node has no parent, or calls `setParent` on a kind of node that does not
      support it. */
  lemma {:induction false} RunFailsIff(s: NodeState, calls: seq<Call>)
    ensures Run(s, calls).None? <==>
              exists i :: 0 <= i < |calls| &&
                (|| (calls[i].Unlink? && ParentAfter(s.parent, calls[..i]).None?)
                 || (calls[i].SetParent? && !s.acceptsParent))
    decreases |calls|
  {
    if calls != [] {
      var init, c := calls[..|calls| - 1], calls[|calls| - 1];
      assert calls == init + [c];
      RunSnoc(s, init, c);
      RunFailsIff(s, init);
      assert forall i :: 0 <= i < |init| ==> calls[i] == init[i] && calls[..i] == init[..i];
      assert calls[..|init|] == init;
      if Run(s, init).Some? {
        RunParent(s, init, Run(s, init).value);
      }
    }
  }

  /** On a node that accepts a parent, `unlink()` is always allowed right after `setParent(p)`,
      and the two together leave the node without a parent and otherwise as it was. */
  lemma SetParentUnlinkRoundTrip(s: NodeState, p: ParentId)
    requires s.acceptsParent
    ensures Run(s, [SetParent(p)]) == Some(s.(parent := Some(p)))
    ensures Run(s, [SetParent(p), Unlink]) == Some(s.(parent := None))
  {
  }
}
