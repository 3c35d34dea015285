/** Nodes of a rich-text document: each node knows its parent element, finds
    its own index among the parent's children, derives its path from the
    root, and keeps a map of attributes.  A fragment is a detached list of
    nodes with a total text length. */
module RichText {
  import opened Ops

  /** The content type of a node.  Only OBJECT matters to the rules modelled
      here; the other types are told apart by name. */
  datatype RichTextContentType = ObjectType | OtherType(name: string)

  /** The first position of `x` in `s`, or -1. */
  function IndexOf<T(==)>(s: seq<T>, x: T): (r: int)
    ensures -1 <= r < |s|
    ensures r == -1 <==> x !in s
    ensures r >= 0 ==> s[r] == x && forall j :: 0 <= j < r ==> s[j] != x
  {
    if s == [] then -1
    else if s[0] == x then 0
    else
      var r := IndexOf(s[1..], x);
      if r == -1 then -1 else r + 1
  }

  /** The sequence without its element at `i`; out of range, unchanged. */
  function RemoveAt<T>(s: seq<T>, i: int): seq<T> {
    if 0 <= i < |s| then s[..i] + s[i + 1..] else s
  }

  /** Removing the first occurrence of an element takes exactly one copy of
      it out and keeps the others in their order. */
  lemma RemoveFirstOccurrence<T>(s: seq<T>, x: T)
    requires x in s
    ensures multiset(RemoveAt(s, IndexOf(s, x))) == multiset(s) - multiset{x}
    ensures |RemoveAt(s, IndexOf(s, x))| == |s| - 1
  {
    var i := IndexOf(s, x);
    var before, after := s[..i], s[i + 1..];
    assert s == before + [x] + after;
    assert RemoveAt(s, i) == before + after;
    assert multiset(s) == multiset(before) + multiset{x} + multiset(after);
    assert multiset(before + after) == multiset(before) + multiset(after);
  }

  class RichTextNode {
    /** The element this node sits in, or null. */
    var parent: RichTextNode?
    /** The children of an element node; empty for a leaf. */
    var children: seq<RichTextNode>
    /** Attribute values; a key may hold `None`, the undefined value. */
    var attributes: map<string, Option<Value>>
    /** A root element: its path is empty and it is its own root. */
    const isRoot: bool
    const contentType: RichTextContentType
    /** The text length a non-object node reports. */
    const ownTextLength: nat
    /** Bounds the parent chain: every parent is less deep than its child. */
    ghost var depth: nat

    constructor (parent: RichTextNode?, attributes: Option<map<string, Option<Value>>>, isRoot: bool,
                 contentType: RichTextContentType, ownTextLength: nat)
      ensures this.parent == parent && this.children == []
      ensures this.attributes == if attributes.Some? then attributes.value else map[]
      ensures this.isRoot == isRoot && this.contentType == contentType && this.ownTextLength == ownTextLength
    {
      this.parent := parent;
      this.children := [];
      this.attributes := if attributes.Some? then attributes.value else map[];
      this.isRoot := isRoot;
      this.contentType := contentType;
      this.ownTextLength := ownTextLength;
      this.depth := if parent == null then 0 else parent.depth + 1;
    }

    /** The parent chain ends: it is finite and has no cycle. */
    ghost predicate ChainOk()
      reads *
      decreases depth
    {
      parent == null || (parent.depth < depth && parent.ChainOk())
    }

    method SetParent(p: RichTextNode?)
      modifies this
      ensures parent == p
      ensures children == old(children) && attributes == old(attributes)
    {
      parent := p;
      depth := if p == null then 0 else p.depth + 1;
    }

    /** This node's position among its parent's children; -1 without a
        parent or when the parent does not hold it. */
    function Index(): (r: int)
      reads this, parent
      ensures parent == null ==> r == -1
      ensures parent != null ==> -1 <= r < |parent.children|
      ensures r >= 0 ==> parent != null && parent.children[r] == this
      ensures parent != null && this in parent.children ==> r >= 0
    {
      if parent != null then IndexOf(parent.children, this) else -1
    }

    /** `removeChild(index)` of an element: the child at that position is
        taken out. */
    method RemoveChild(index: int)
      modifies this
      ensures children == RemoveAt(old(children), index)
      ensures parent == old(parent) && attributes == old(attributes)
    {
      if 0 <= index < |children| {
        children := children[..index] + children[index + 1..];
      }
    }

    /** Take this node out of its parent and forget the parent. */
    method RemoveFromParent()
      modifies this, parent
      ensures parent == null
      ensures old(parent) != null ==> old(parent).children == RemoveAt(old(parent.children), old(Index()))
      ensures old(parent) != this ==> children == old(children)
      ensures old(parent) != null && old(parent) != this ==>
        old(parent).parent == old(parent.parent) && old(parent).attributes == old(parent.attributes)
      ensures attributes == old(attributes)
    {
      if parent != null {
        var index := Index();
        var p := parent;
        p.RemoveChild(index);
        SetParent(null);
      }
    }

    /** The child indices leading from the root down to this node; None when
        the chain of parents does not reach a root or some node is missing
        from its parent. */
    function Path(): (p: Option<seq<int>>)
      reads *
      requires ChainOk()
      decreases depth
      ensures isRoot ==> p == Some([])
      ensures !isRoot && parent == null ==> p == None
      ensures !isRoot && p.Some? ==>
        parent != null && parent.Path().Some? && Index() >= 0 &&
        p.value == parent.Path().value + [Index()]
      ensures !isRoot && parent != null && parent.Path().Some? && Index() >= 0 ==> p.Some?
      ensures p.Some? ==> |p.value| <= depth
    {
      if isRoot then Some([])
      else if parent == null then None
      else
        match parent.Path()
        case None => None
        case Some(path) =>
          var index := Index();
          if index < 0 then None else Some(path + [index])
    }

    /** The root element this node hangs from, or null. */
    function Root(): (r: RichTextNode?)
      reads *
      requires ChainOk()
      decreases depth
      ensures r != null ==> r.isRoot
      ensures isRoot ==> r == this
      ensures !isRoot && parent == null ==> r == null
      ensures !isRoot && parent != null ==> r == parent.Root()
    {
      if isRoot then this
      else if parent == null then null
      else parent.Root()
    }

    function GetAttribute(key: string): (r: Option<Value>)
      reads this
      ensures key !in attributes ==> r == None
      ensures key in attributes ==> r == attributes[key]
    {
      if key in attributes then attributes[key] else None
    }

    /** Whether the attribute holds a defined value: a key set to the
        undefined value does not count. */
    function HasAttribute(key: string): (r: bool)
      reads this
      ensures r <==> key in attributes && attributes[key].Some?
    {
      GetAttribute(key) != None
    }

    method SetAttribute(key: string, value: Option<Value>)
      modifies this
      ensures attributes == old(attributes)[key := value]
      ensures GetAttribute(key) == value && (HasAttribute(key) <==> value.Some?)
      ensures forall k :: k != key ==> GetAttribute(k) == old(GetAttribute(k))
      ensures parent == old(parent) && children == old(children)
    {
      attributes := attributes[key := value];
    }

    method RemoveAttribute(key: string)
      modifies this
      ensures attributes == old(attributes) - {key}
      ensures !HasAttribute(key) && GetAttribute(key) == None
      ensures forall k :: k != key ==> GetAttribute(k) == old(GetAttribute(k))
      ensures parent == old(parent) && children == old(children)
    {
      attributes := attributes - {key};
    }

    /** A copy of the attributes; being a value, it shares nothing with the
        node. */
    function Attributes(): (r: map<string, Option<Value>>)
      reads this
      ensures forall k :: GetAttribute(k) == (if k in r then r[k] else None)
    {
      attributes
    }

    function TextContentLength(): (r: nat)
      ensures contentType == ObjectType ==> r == ObjectTextContentLength()
      ensures contentType != ObjectType ==> r == ownTextLength
    {
      if contentType == ObjectType then ObjectTextContentLength() else ownTextLength
    }
  }

  /** The node `path` leads to from `node`, following child indices; null
      when an index is out of range. */
  function Navigate(node: RichTextNode, path: seq<int>): RichTextNode?
    reads *
    decreases |path|
  {
    if path == [] then node
    else if 0 <= path[0] < |node.children| then Navigate(node.children[path[0]], path[1..])
    else null
  }

  lemma {:induction false} NavigateAppend(node: RichTextNode, path: seq<int>, i: int)
    requires Navigate(node, path) != null
    ensures var m := Navigate(node, path);
      Navigate(node, path + [i]) == if 0 <= i < |m.children| then m.children[i] else null
  {
    if path != [] {
      assert (path + [i])[0] == path[0] && (path + [i])[1..] == path[1..] + [i];
      NavigateAppend(node.children[path[0]], path[1..], i);
    }
  }

  /** A node with a path is found by following that path down from its
      root. */
  lemma {:induction false} PathLeadsHere(n: RichTextNode)
    requires n.ChainOk() && n.Path().Some?
    ensures n.Root() != null && Navigate(n.Root(), n.Path().value) == n
    decreases n.depth
  {
    if !n.isRoot {
      var p := n.parent;
      PathLeadsHere(p);
      NavigateAppend(p.Root(), p.Path().value, n.Index());
    }
  }

  // ---------------------------------------------------------------------
  // Rich-text objects

  /** An object counts as one character of text, whatever it contains. */
  function ObjectTextContentLength(): (r: nat)
    ensures r == 1
  {
    1
  }

  function ObjectContentType(): (t: RichTextContentType)
    ensures t.ObjectType?
  {
    ObjectType
  }

  function ObjectIsA(t: RichTextContentType): (r: bool)
    ensures r <==> t == ObjectType
  {
    t == ObjectType
  }

  /** An object is of its own type, and of no other. */
  lemma ObjectIsItsType(t: RichTextContentType)
    ensures ObjectIsA(ObjectContentType())
    ensures t != ObjectContentType() ==> !ObjectIsA(t)
  {
  }

  // ---------------------------------------------------------------------
  // Fragments

  /** The total text length of a list of nodes. */
  function SumLengths(nodes: seq<RichTextNode>): int {
    if nodes == [] then 0 else SumLengths(nodes[..|nodes| - 1]) + nodes[|nodes| - 1].TextContentLength()
  }

  /** Text length is additive over concatenation. */
  lemma {:induction false} SumLengthsAppend(a: seq<RichTextNode>, b: seq<RichTextNode>)
    ensures SumLengths(a + b) == SumLengths(a) + SumLengths(b)
  {
    if b == [] {
      assert a + b == a;
    } else {
      assert (a + b)[..|a + b| - 1] == a + b[..|b| - 1];
      SumLengthsAppend(a, b[..|b| - 1]);
    }
  }

  /** A list of nodes holding `k` objects and nothing else has length `k`. */
  lemma {:induction false} SumLengthsOfObjects(nodes: seq<RichTextNode>)
    requires forall i :: 0 <= i < |nodes| ==> nodes[i].contentType == ObjectType
    ensures SumLengths(nodes) == |nodes|
  {
    if nodes != [] {
      SumLengthsOfObjects(nodes[..|nodes| - 1]);
    }
  }

  class RichTextFragment {
    const children: seq<RichTextNode>

    constructor (children: seq<RichTextNode>)
      ensures this.children == children
    {
      this.children := children;
    }

    /** The fragment's own list of children, in order. */
    function GetChildren(): (r: seq<RichTextNode>)
      ensures |r| == |children| && forall i :: 0 <= i < |r| ==> r[i] == children[i]
    {
      children
    }

    /** The sum of the children's text lengths, accumulated child by child. */
    method TextContentLength() returns (length: int)
      ensures length == SumLengths(children)
      ensures children == [] ==> length == 0
      ensures length >= 0
    {
      length := 0;
      var i := 0;
      while i < |children|
        invariant 0 <= i <= |children|
        invariant length == SumLengths(children[..i])
        invariant length >= 0
      {
        assert children[..i + 1][..i] == children[..i];
        length := length + children[i].TextContentLength();
        i := i + 1;
      }
      assert children[..i] == children;
    }
  }
}
