/**
 The element tree and the builder protocol that produces it (Start, AddText,
 Stop). A finished tree is an immutable value; the nodes that are still open
 are kept on a stack whose last entry is the current node, and whose entry
 before it is the current node's parent.
 */
module Tree {

  /** An element: its tag name, its own text, and its children in order. */
  datatype Node = Node(name: string, text: string, children: seq<Node>)

  /** A node with no text and no children, as Start creates it. */
  function Fresh(name: string): (n: Node)
    ensures n.name == name && n.text == "" && n.children == []
  {
    Node(name, "", [])
  }

  /** The parent after `child` has been appended to its child list. */
  function Attach(parent: Node, child: Node): (r: Node)
    ensures r.name == parent.name && r.text == parent.text
    ensures |r.children| == |parent.children| + 1
    ensures r.children[..|parent.children|] == parent.children
    ensures r.children[|parent.children|] == child
  {
    parent.(children := parent.children + [child])
  }

  /**
   The tree that results when every open node is closed in turn, innermost
   first: the root as it will look once the builder is done.
   */
  function ClosedTree(open: seq<Node>): Node
    requires |open| >= 1
    decreases |open|
  {
    if |open| == 1 then open[0]
    else
      var k := |open|;
      ClosedTree(open[..k - 2] + [Attach(open[k - 2], open[k - 1])])
  }

  /**
   The builder's state: the open nodes, outermost (the root) first, the
   current node last.
   */
  class Builder {
    var open: seq<Node>

    ghost predicate Valid()
      reads this
    {
      |open| >= 1
    }

    /** The node that AddText and Stop act on. */
    function Current(): Node
      reads this
      requires Valid()
    {
      open[|open| - 1]
    }

    /** The tree the builder will produce once every open node is closed. */
    ghost function Tree(): Node
      reads this
      requires Valid()
    {
      ClosedTree(open)
    }

    /** A builder whose only open node is a root with the given name. */
    constructor (rootName: string)
      ensures Valid() && open == [Fresh(rootName)]
    {
      open := [Fresh(rootName)];
    }

    /**
     Start: a detached child of the current node becomes the current node;
     the parent's own child list is not touched until Stop.
     */
    method Start(name: string)
      requires Valid()
      modifies this
      ensures Valid()
      ensures open == old(open) + [Fresh(name)]
      ensures open[..|open| - 1] == old(open)
    {
      open := open + [Fresh(name)];
    }

    /** AddText: replaces (does not append to) the current node's text. */
    method AddText(text: string)
      requires Valid()
      modifies this
      ensures Valid() && |open| == |old(open)|
      ensures open[..|open| - 1] == old(open)[..|open| - 1]
      ensures Current() == old(Current()).(text := text)
    {
      open := open[..|open| - 1] + [Current().(text := text)];
    }

    /**
     Stop: appends the current node as the last child of its parent and
     returns the parent, which becomes the current node. The source
     dereferences the parent pointer, so the root (which has none) cannot
     be stopped.
     */
    method Stop() returns (parent: Node)
      requires Valid() && |open| >= 2
      modifies this
      ensures Valid() && |open| == |old(open)| - 1
      ensures open[..|open| - 1] == old(open)[..|open| - 1]
      ensures parent == Current() == Attach(old(open)[|open| - 1], old(Current()))
      ensures Tree() == old(Tree())
    {
      var k := |open|;
      parent := Attach(open[k - 2], open[k - 1]);
      open := open[..k - 2] + [parent];
    }
  }
}
