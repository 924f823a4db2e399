# JetUML diagram node: a verified model of the `Node` contract

JetUML is a desktop UML diagram editor. Every shape in a diagram is a `Node`: it has a
position (an integer point), may be attached to a diagram, and may be linked to a parent node
that contains it. The interface `ca.mcgill.cs.jetuml.diagram.Node` states, in its documentation
comments, what each of its operations does to that state and which preconditions callers must
meet. This project models that contract and proves properties of it.

- `Nodes.Node` (node.dfy) is the node as an object: fields `pos`, `diagram` and `parent`, the
  kind constants `requiresParent` and `acceptsParent`, the queries `Position`, `GetDiagram`,
  `HasParent`, `GetParent` and `RequiresParent` as functions reading the fields, and the mutators
  `MoveTo`, `Translate`, `Attach`, `Detach`, `Unlink` and `SetParent` as methods that change this
  node only. `Clone` is a method that changes no existing node and returns a newly allocated one.
  The `@pre` tags of the interface are the methods' `requires` clauses.
- `NodeModel` (node_model.dfy) is the same contract on values: `NodeState` is what the queries
  report, `Call` is one mutator call, `Step` is the effect of one call and `Run` that of a sequence
  of calls, with `None` for a call made against its precondition. Every mutator of `Nodes.Node`
  ensures that its new state is `Step` of its old state, so the lemmas about `Run` describe what
  a client sees when it calls these methods one after another.
- `Geom` (geom.dfy) holds the integer point; `Wrappers` (wrappers.dfy) the `Option` type used for
  `getDiagram()` and for the parent link.

Diagrams and parent nodes are identities (`DiagramId`, `ParentId`). A Dafny value is never null,
so the `@pre pDiagram != null` and `@pre pParentNode != null` preconditions hold by typing. The
interface documents that unlinking and setting a parent do not change the parent's side of the
relation; in the model every mutator `modifies this` only, so no other object, and in particular
no parent's collection of children, is changed.

The interface says that `setParent` is, by default, not supported. The model gives every node a
second kind constant, `acceptsParent`, fixed like `requiresParent`: `setParent` requires it, and a
call of `setParent` on a kind of node without it is a contract violation.

Two policies the interface leaves open are fixed as follows. `detach()` on a node that is not
attached is allowed and leaves it unattached. The interface does not say whether attaching to a
second diagram is an error; the model replaces the attachment, so the node then reports the new
diagram only.

## Model

| member | source | states |
|---|---|---|
| `NodeModel.Step` | src/ca/mcgill/cs/jetuml/diagram/Node.java:40-115 | one mutator call: fails exactly when `unlink` is called without a parent or `setParent` on a kind of node that does not support it; `moveTo(p)` sets the position to `p`; `translate(dx, dy)` adds `(dx, dy)` to it; `attach(d)` reports `d`; `detach` reports no diagram; `unlink` leaves no parent; `setParent(p)` leaves `p`; each call leaves the parts it does not name, and both kind constants, unchanged |
| `NodeModel.Run` | src/ca/mcgill/cs/jetuml/diagram/Node.java:40-115 | a sequence of mutator calls keeps both kind constants, and keeps the position, the attachment or the parent link when no call in it changes that part |
| `NodeModel.RunDisplacement` | src/ca/mcgill/cs/jetuml/diagram/Node.java:47-52 | without `moveTo`, the final position is the start moved by the sum of all translations: translations compose additively |
| `NodeModel.TranslateTwice` | src/ca/mcgill/cs/jetuml/diagram/Node.java:47-52 | two translations in a row equal one translation by the sum of their amounts |
| `NodeModel.RunAfterMoveTo` | src/ca/mcgill/cs/jetuml/diagram/Node.java:40-52 | after `moveTo(p)` followed by translations only, the position is `p` moved by those translations, whatever happened before |
| `NodeModel.RunDiagram` | src/ca/mcgill/cs/jetuml/diagram/Node.java:59-76 | after any successful sequence of calls, the reported diagram is that of the last `attach`, none if a `detach` came later, and the original one if neither was called |
| `NodeModel.AttachDetachRoundTrip` | src/ca/mcgill/cs/jetuml/diagram/Node.java:59-76 | `attach(d); detach()` leaves the node unattached and otherwise unchanged, and a further `attach(e)` succeeds and reports `e` |
| `NodeModel.AttachOverwrites` | src/ca/mcgill/cs/jetuml/diagram/Node.java:59-65 | `attach(d1); attach(d2)` leaves the node attached to `d2` only |
| `NodeModel.RunParent` | src/ca/mcgill/cs/jetuml/diagram/Node.java:78-115 | after any successful sequence of calls, the parent link is that of the last `setParent`, none if an `unlink` came later, and the original one if neither was called |
| `NodeModel.RunFailsIff` | src/ca/mcgill/cs/jetuml/diagram/Node.java:95-115 | a sequence of calls violates a precondition if and only if it calls `unlink` at a point where the node has no parent, or calls `setParent` on a kind of node that does not support it |
| `NodeModel.SetParentUnlinkRoundTrip` | src/ca/mcgill/cs/jetuml/diagram/Node.java:95-115 | on a node that accepts a parent, `setParent(p)` links to `p` and changes nothing else; `unlink` right after it is always allowed and leaves the node without a parent and otherwise as it was |
| `Nodes.Node.Position` | src/ca/mcgill/cs/jetuml/diagram/Node.java:34-38 | returns the node's current position and changes nothing |
| `Nodes.Node.GetDiagram` | src/ca/mcgill/cs/jetuml/diagram/Node.java:72-76 | returns the attached diagram, or `None` when the node is not attached |
| `Nodes.Node.HasParent` | src/ca/mcgill/cs/jetuml/diagram/Node.java:78-81 | true exactly when the node is linked to a parent |
| `Nodes.Node.RequiresParent` | src/ca/mcgill/cs/jetuml/diagram/Node.java:83-87 | returns the node's kind-dependent constant, which no mutator can change |
| `Nodes.Node.GetParent` | src/ca/mcgill/cs/jetuml/diagram/Node.java:89-93 | requires `HasParent()`; the result is the parent the node is linked to, never an absent value |
| `Nodes.Node.MoveTo` | src/ca/mcgill/cs/jetuml/diagram/Node.java:40-45 | the position becomes `p`; attachment and parent link unchanged; equals `Step` with `moveTo(p)` |
| `Nodes.Node.Translate` | src/ca/mcgill/cs/jetuml/diagram/Node.java:47-52 | the position grows by `(dx, dy)`; attachment and parent link unchanged; equals `Step` with `translate(dx, dy)` |
| `Nodes.Node.Attach` | src/ca/mcgill/cs/jetuml/diagram/Node.java:59-65 | `GetDiagram()` becomes `Some(d)`; position and parent link unchanged; the diagram itself is not touched |
| `Nodes.Node.Detach` | src/ca/mcgill/cs/jetuml/diagram/Node.java:67-70 | `GetDiagram()` becomes `None`; position and parent link unchanged |
| `Nodes.Node.Unlink` | src/ca/mcgill/cs/jetuml/diagram/Node.java:95-101 | requires `HasParent()`; afterwards `HasParent()` is false; position and attachment unchanged; no other object, the parent included, is modified |
| `Nodes.Node.SetParent` | src/ca/mcgill/cs/jetuml/diagram/Node.java:103-115 | requires that the node's kind supports the operation (by default it does not); afterwards `HasParent()` holds and `GetParent() == p`; position and attachment unchanged; no other object, the parent included, is modified |
| `Nodes.Node.Clone` | src/ca/mcgill/cs/jetuml/diagram/Node.java:54-57 | returns a newly allocated node of the same kind at the same position; no existing node changes |

## Left out

- Nodes.Node.Clone: promises only a new object of the same kind at the same position. The interface says no more than "a clone of the node"; how deep the copy is and whether the clone keeps the attachment and the parent link is decided by implementations that are not part of this model. The body makes a field-by-field copy.
- The `Diagram`, `ParentNode`, `DiagramElement` and `geom.Point` types are not part of this model: diagrams and parent nodes are identities, a point is a pair of unbounded integers.
- Java `int` overflow in `translate` is not modelled: coordinates are unbounded integers.
- Which parent-child nestings are legal, and keeping a parent's children and its children's parent links in step, belong to the builder layer, which is not part of this model. Hence nothing here enforces that a node whose kind requires a parent is linked to one.
- Creating a node is not an operation of the interface; the model's constructor makes a standalone node (no diagram, no parent) of a kind given by its two kind constants.
- Which kinds of node support `setParent` is decided by the implementing classes, which are not part of this model; the model takes it as the constant `acceptsParent`.
- Rendering, hit-testing, undo/redo and serialization are not part of the node contract.
