/** The parsed change document, standing in for the libxml2 tree the emitters walk. */
module Xml {
  import opened Seqs

  /** A node of the document: an element with its attribute map and its children in
      document order, or character data (the whitespace between elements is kept). */
  datatype Node =
    | Element(name: string, attrs: map<string, string>, children: seq<Node>)
    | Text(content: string)

  /** libxml2 gives every text node the name "text". */
  const TextName: string := "text"

  function Name(n: Node): string
  {
    if n.Element? then n.name else TextName
  }

  /** The child list; a text node has none. */
  function Children(n: Node): seq<Node>
  {
    if n.Element? then n.children else []
  }

  predicate HasAttr(n: Node, key: string)
  {
    n.Element? && key in n.attrs
  }

  /** `xmlGetProp`. The empty text stands for the NULL it returns for an absent
      attribute; the routines require every attribute they read to be present, so that
      value never reaches the output. */
  function Attr(n: Node, key: string): string
  {
    if HasAttr(n, key) then n.attrs[key] else ""
  }

  /** The number of nodes in `cs` with the given name. */
  function Count(cs: seq<Node>, name: string): (k: nat)
    ensures k <= |cs|
  {
    if cs == [] then 0
    else Count(cs[..|cs| - 1], name) + (if Name(cs[|cs| - 1]) == name then 1 else 0)
  }

  /** The nodes of `cs` with the given name, in document order. */
  function Filter(cs: seq<Node>, name: string): (r: seq<Node>)
    ensures |r| == Count(cs, name)
    ensures forall j | 0 <= j < |r| :: Name(r[j]) == name && r[j] in cs
  {
    if cs == [] then []
    else
      var init := Filter(cs[..|cs| - 1], name);
      if Name(cs[|cs| - 1]) == name then init + [cs[|cs| - 1]] else init
  }

  /** Every node of the sibling list `ns` and of its subtrees, in pre-order document order. */
  function Preorder(ns: seq<Node>): seq<Node>
    decreases ns
  {
    if ns == [] then []
    else
      match ns[|ns| - 1]
      case Element(_, _, cs) => Preorder(ns[..|ns| - 1]) + [ns[|ns| - 1]] + Preorder(cs)
      case Text(_) => Preorder(ns[..|ns| - 1]) + [ns[|ns| - 1]]
  }

  /** The number of nodes among the first `j` of `cs` with the given name. */
  function CountUpTo(cs: seq<Node>, name: string, j: nat): nat
    requires j <= |cs|
  {
    if j == 0 then 0 else CountUpTo(cs, name, j - 1) + (if Name(cs[j - 1]) == name then 1 else 0)
  }

  lemma {:induction false} CountUpToPrefix(cs: seq<Node>, name: string, j: nat)
    requires j <= |cs|
    ensures CountUpTo(cs, name, j) == Count(cs[..j], name)
  {
    if j > 0 {
      CountUpToPrefix(cs, name, j - 1);
      PrefixStep(cs, j - 1);
    }
  }

  lemma CountUpToAll(cs: seq<Node>, name: string)
    ensures CountUpTo(cs, name, |cs|) == Count(cs, name)
  {
    CountUpToPrefix(cs, name, |cs|);
    PrefixEnds(cs);
  }

  /** One more child adds one to the count when it has the name. */
  lemma CountUpToStep(cs: seq<Node>, name: string, j: nat, t: int, t': int)
    requires j < |cs| && t == CountUpTo(cs, name, j)
    requires t' == t + (if Name(cs[j]) == name then 1 else 0)
    ensures t' == CountUpTo(cs, name, j + 1)
  {
  }

  // ---------------------------------------------------------------------------
  // The walk of `traverse_tree`

  /** What a walk like `traverse_tree` writes for the sibling list `ns`: `visit` on each
      node, then the walk of its children. Both programs walk this way and differ only in
      what they write for one element. */
  function Walk(visit: Node -> string, ns: seq<Node>): string
    decreases ns
  {
    WalkLoop(visit, ns, |ns|)
  }

  /** What the walk writes for the first `j` siblings of `ns`. */
  function WalkLoop(visit: Node -> string, ns: seq<Node>, j: nat): string
    requires j <= |ns|
    decreases ns, j
  {
    if j == 0 then "" else WalkLoop(visit, ns, j - 1) + WalkItem(visit, ns[j - 1])
  }

  /** What the walk writes for one sibling and its subtree; text is skipped. */
  function WalkItem(visit: Node -> string, n: Node): string
    decreases n
  {
    if n.Element? then visit(n) + Walk(visit, n.children) else ""
  }

  lemma WalkStep(visit: Node -> string, o: string, ns: seq<Node>, j: nat, before: string, out: string)
    requires j < |ns|
    requires before == o + WalkLoop(visit, ns, j) && out == before + WalkItem(visit, ns[j])
    ensures out == o + WalkLoop(visit, ns, j + 1)
  {
    Chain(o, WalkLoop(visit, ns, j), WalkItem(visit, ns[j]), WalkLoop(visit, ns, j + 1), before, out);
  }

  /** The walk of the first `j` siblings is the walk of the list cut after them. */
  lemma {:induction false} WalkLoopPrefix(visit: Node -> string, ns: seq<Node>, j: nat)
    requires j <= |ns|
    ensures WalkLoop(visit, ns, j) == Walk(visit, ns[..j])
    decreases j
  {
    if j > 0 {
      var p := ns[..j];
      PrefixStep(ns, j - 1);
      WalkLoopPrefix(visit, ns, j - 1);
      WalkLoopPrefix(visit, p, j - 1);
      assert Walk(visit, p) == WalkLoop(visit, p, j - 1) + WalkItem(visit, p[j - 1]);
    }
  }

  /** The walk visits every node of the document exactly once, in pre-order: a node
      before its children, and its children before its later siblings. Text nodes are
      skipped, which is the same as visiting them when `visit` writes nothing for text. */
  lemma {:induction false} WalkIsPreorder(visit: Node -> string, ns: seq<Node>)
    requires forall t: string :: visit(Text(t)) == ""
    ensures Walk(visit, ns) == Flatten(visit, Preorder(ns))
    decreases ns
  {
    if ns != [] {
      var init, last := ns[..|ns| - 1], ns[|ns| - 1];
      var before := Flatten(visit, Preorder(init));
      WalkLoopPrefix(visit, ns, |ns| - 1);
      WalkIsPreorder(visit, init);
      assert Walk(visit, ns) == Walk(visit, init) + WalkItem(visit, last);
      FlattenOne(visit, last);
      FlattenAppend(visit, Preorder(init), [last]);
      match last
      case Element(_, _, cs) =>
        WalkIsPreorder(visit, cs);
        FlattenAppend(visit, Preorder(init) + [last], Preorder(cs));
        Assoc(before, visit(last), Flatten(visit, Preorder(cs)));
      case Text(t) =>
        assert visit(last) == "";
        AppendEmpty(Walk(visit, init));
        AppendEmpty(before);
    }
  }

  /** The walk writes nothing exactly when `visit` writes nothing for every node. */
  lemma WalkEmpty(visit: Node -> string, ns: seq<Node>)
    requires forall t: string :: visit(Text(t)) == ""
    ensures Walk(visit, ns) == "" <==> forall x | x in Preorder(ns) :: visit(x) == ""
  {
    WalkIsPreorder(visit, ns);
    FlattenEmpty(visit, Preorder(ns));
  }
}
