/** ctoa.c: the earlier draft of the emitter. It writes to the same kind of stream, but
    single-quotes every value and copies the attributes verbatim, announces each routine
    with a progress line in the same stream, writes no tag terminator for a single tag,
    writes no node references, deletes only nodes, and never dispatches a `modify`. */
module Ctoa {
  import opened Xml
  import opened Format
  import opened Sql
  import opened Entities
  import opened Seqs

  const St: Style := SingleQuotedVerbatim
  const Q: char := Quote(St)

  // ---------------------------------------------------------------------------
  // What each routine writes.

  /** The tag part of `addNode` and `addWay`: the `table` head when the element has any
      child at all, one tuple per `tag` child, and a terminator only when at least two
      tags were written. */
  function TagPart(table: string, cs: seq<Node>, id: int): string
  {
    var tags := TagRows(St, cs, id);
    (if cs != [] then InsertHead(table, TagColumns) else "")
    + RenderRows(Q, tags)
    + (if |tags| > 1 then Terminator else "")
  }

  /** What `addNode` writes after its progress line: for a `node`, the `nodes` row and
      the tag part. */
  function NodeBody(n: Node): string
  {
    if Name(n) != "node" then ""
    else Render(Q, NodeRow(n)) + TagPart("node_tags", Children(n), Id(n))
  }

  function AddNodeOutput(n: Node): string
  {
    "in addNode\n" + NodeBody(n)
  }

  /** What `addWay` writes after its progress line: for a `way`, the `ways` row and the
      tag part; the `nd` children write nothing. */
  function WayBody(n: Node): string
  {
    if Name(n) != "way" then ""
    else Render(Q, WayRow(n)) + TagPart("way_tags", Children(n), Id(n))
  }

  function AddWayOutput(n: Node): string
  {
    "in addWay\n" + WayBody(n)
  }

  /** What `deleteNode` writes after its progress line: for a `node`, the two DELETEs. */
  function DeleteNodeBody(n: Node): string
  {
    if Name(n) == "node" then RenderAll(Q, DeleteNodeStmts(n)) else ""
  }

  function DeleteNodeOutput(n: Node): string
  {
    "in deleteNode\n" + DeleteNodeBody(n)
  }

  /** One child of a `create`. */
  function CreateItem(c: Node): string
  {
    if Name(c) == "node" then AddNodeOutput(c)
    else if Name(c) == "way" then AddWayOutput(c)
    else ""
  }

  /** One child of a `delete`: only nodes are deleted. */
  function DeleteItem(c: Node): string
  {
    if Name(c) == "node" then DeleteNodeOutput(c) else ""
  }

  /** One child of a `modify`: only nodes, deleted and then added again. */
  function ModifyItem(c: Node): string
  {
    if Name(c) == "node" then DeleteNodeOutput(c) + AddNodeOutput(c) else ""
  }

  function CreateLoop(cs: seq<Node>, j: nat): string
    requires j <= |cs|
  {
    if j == 0 then "" else CreateLoop(cs, j - 1) + CreateItem(cs[j - 1])
  }

  function DeleteLoop(cs: seq<Node>, j: nat): string
    requires j <= |cs|
  {
    if j == 0 then "" else DeleteLoop(cs, j - 1) + DeleteItem(cs[j - 1])
  }

  function ModifyLoop(cs: seq<Node>, j: nat): string
    requires j <= |cs|
  {
    if j == 0 then "" else ModifyLoop(cs, j - 1) + ModifyItem(cs[j - 1])
  }

  /** What `parseCreate` writes after its progress line: the loop, when the container is
      a `create` with children. */
  function CreateBody(n: Node): string
  {
    if Name(n) == "create" && Children(n) != [] then CreateLoop(Children(n), |Children(n)|) else ""
  }

  function CreateOutput(n: Node): string
  {
    "in parse create\n" + CreateBody(n)
  }

  /** What `parseDelete` writes after its progress line: the loop, when the container is
      a `delete` with children. */
  function DeleteBody(n: Node): string
  {
    if Name(n) == "delete" && Children(n) != [] then DeleteLoop(Children(n), |Children(n)|) else ""
  }

  function DeleteOutput(n: Node): string
  {
    "in parse delete\n" + DeleteBody(n)
  }

  /** What `parseModify` writes after its progress line: the loop, when the container is
      a `modify` with children. */
  function ModifyBody(n: Node): string
  {
    if Name(n) == "modify" && Children(n) != [] then ModifyLoop(Children(n), |Children(n)|) else ""
  }

  function ModifyOutput(n: Node): string
  {
    "in parse Modify\n" + ModifyBody(n)
  }

  /** The children a `create` may hold: every node and way can be added. */
  predicate CreateReady(cs: seq<Node>)
  {
    forall j | 0 <= j < |cs| :: EntityReady(St, cs[j])
  }

  /** The children a `delete` may hold: `deleteNode` reads only the id of a node. */
  predicate DeleteReady(cs: seq<Node>)
  {
    forall j | 0 <= j < |cs| :: Name(cs[j]) == "node" ==> HasAttr(cs[j], "id")
  }

  /** The children a `modify` may hold: every node can be deleted and added. */
  predicate ModifyReady(cs: seq<Node>)
  {
    forall j | 0 <= j < |cs| :: NodeReady(St, cs[j])
  }

  /** What `traverse_tree` reads of an element it dispatches: a `modify` is never
      parsed, so only `create` and `delete` children matter. */
  predicate OperationReady(n: Node)
  {
    && (Name(n) == "create" ==> CreateReady(Children(n)))
    && (Name(n) == "delete" ==> DeleteReady(Children(n)))
  }

  /** The body of `traverse_tree` for one node: a progress line for each operation, and
      the parse only for `delete` and `create`. */
  function Dispatch(n: Node): string
  {
    if !n.Element? then ""
    else if n.name == "delete" then "delete it \n" + DeleteOutput(n)
    else if n.name == "modify" then "modify it \n"
    else if n.name == "create" then "create it \n" + CreateOutput(n)
    else ""
  }

  predicate TreeReady(ns: seq<Node>)
    decreases ns
  {
    forall j | 0 <= j < |ns| ::
      OperationReady(ns[j]) && (ns[j].Element? ==> TreeReady(ns[j].children))
  }

  lemma CreateStep(o: string, cs: seq<Node>, j: nat, before: string, out: string)
    requires j < |cs|
    requires before == o + CreateLoop(cs, j) && out == before + CreateItem(cs[j])
    ensures out == o + CreateLoop(cs, j + 1)
  {
    Chain(o, CreateLoop(cs, j), CreateItem(cs[j]), CreateLoop(cs, j + 1), before, out);
  }

  lemma DeleteStep(o: string, cs: seq<Node>, j: nat, before: string, out: string)
    requires j < |cs|
    requires before == o + DeleteLoop(cs, j) && out == before + DeleteItem(cs[j])
    ensures out == o + DeleteLoop(cs, j + 1)
  {
    Chain(o, DeleteLoop(cs, j), DeleteItem(cs[j]), DeleteLoop(cs, j + 1), before, out);
  }

  lemma ModifyStep(o: string, cs: seq<Node>, j: nat, before: string, out: string)
    requires j < |cs|
    requires before == o + ModifyLoop(cs, j) && out == before + ModifyItem(cs[j])
    ensures out == o + ModifyLoop(cs, j + 1)
  {
    Chain(o, ModifyLoop(cs, j), ModifyItem(cs[j]), ModifyLoop(cs, j + 1), before, out);
  }

  lemma WalkReady(ns: seq<Node>, j: nat)
    requires TreeReady(ns) && j < |ns|
    ensures OperationReady(ns[j]) && (ns[j].Element? ==> TreeReady(ns[j].children))
  {
  }

  // ---------------------------------------------------------------------------
  // The routines.

  class Emitter {
    /** Everything written to standard output so far. */
    var output: string

    constructor ()
      ensures output == ""
    {
      output := "";
    }

    /** `addTagValues`: the separator, then the tuple in one piece, fields verbatim. */
    method AddTagValues(tag: Node, nodeId: int, i: int) returns (r: int)
      requires TagFields(St, tag)
      modifies this
      ensures output == old(output) + (Separator(i) + RenderRow(Q, TagRow(St, nodeId, tag)))
      ensures r == 1
    {
      ghost var start := output;
      if i > 0 {
        output := output + ", ";
      }
      ghost var mid := output;
      var k, v := Attr(tag, "k"), Attr(tag, "v");
      output := output + ("(" + RenderValue(Q, Quoted(Decimal(nodeId))) + ", " + RenderValue(Q, Quoted(k))
                          + ", " + RenderValue(Q, Quoted(v)) + ")");
      WriteRow3(Q, i, TagRow(St, nodeId, tag), Quoted(Decimal(nodeId)), Quoted(k), Quoted(v), start, mid, output);
      r := 1;
    }

    /** The body of the tag loops of `addNode` and `addWay`. */
    method TagChild(c: Node, id: int, i: int) returns (d: int)
      requires Name(c) == "tag" ==> TagFields(St, c)
      modifies this
      ensures output == old(output) + RowText(Q, i, TagRowOf(St, id, c))
      ensures d == |TagRowOf(St, id, c)|
    {
      d := 0;
      if Name(c) == "tag" {
        d := AddTagValues(c, id, i);
      }
    }

    /** The tag loops of `addNode` and `addWay`: one tuple per `tag` child, the counter
        starting at 0; returns the number of tags. */
    method AddTags(cs: seq<Node>, id: int) returns (i: int)
      requires TagsReady(St, cs)
      modifies this
      ensures output == old(output) + RenderRows(Q, TagRows(St, cs, id))
      ensures i == Count(cs, "tag")
    {
      i := 0;
      var j := 0;
      ghost var rows := [];
      PrefixEnds(cs);
      while j < |cs|
        invariant 0 <= j <= |cs|
        invariant rows == TagRows(St, cs[..j], id)
        invariant i == |rows|
        invariant output == old(output) + RenderRows(Q, rows)
      {
        TagReadyAt(St, cs, j);
        ghost var before := output;
        var d := TagChild(cs[j], id, i);
        CounterStepOpt(Q, 0, rows, TagRowOf(St, id, cs[j]), old(output), before, output);
        i := i + d;
        TagRowsStep(St, cs, id, j);
        rows := rows + TagRowOf(St, id, cs[j]);
        j := j + 1;
      }
      TagRowsAt(St, cs, id);
    }

    /** The tag part of `addNode` and `addWay`. */
    method WriteTagPart(table: string, cs: seq<Node>, id: int) returns (r: int)
      requires TagsReady(St, cs)
      modifies this
      ensures output == old(output) + TagPart(table, cs, id)
      ensures r == Count(cs, "tag")
    {
      var b := if cs != [] then InsertHead(table, TagColumns) else "";
      output := output + b;
      r := AddTags(cs, id);
      ghost var c := RenderRows(Q, TagRows(St, cs, id));
      var d := if r > 1 then Terminator else "";
      output := output + d;
      TagRowsAt(St, cs, id);
      Assoc(old(output), b, c);
      Assoc(old(output), b + c, d);
    }

    /** `addNode`: returns the number of tags written. */
    method AddNode(n: Node) returns (r: int)
      requires NodeReady(St, n)
      modifies this
      ensures output == old(output) + AddNodeOutput(n)
      ensures r == (if Name(n) == "node" then Count(Children(n), "tag") else 0)
      ensures Name(n) != "node" ==> output == old(output) + "in addNode\n"
    {
      r := 0;
      output := output + "in addNode\n";
      ghost var start := output;
      if Name(n) == "node" {
        var nodeId := Atoi(Attr(n, "id"));
        var row := [Quoted(Decimal(nodeId)), Quoted(Attr(n, "lat")), Quoted(Attr(n, "lon")), Null,
                    Quoted(Attr(n, "user")), Quoted(Attr(n, "timestamp"))];
        var a := InsertHead("nodes", NodeColumns) + RenderRow(Q, row) + Terminator;
        output := output + a;
        SingleRow(Q, "nodes", NodeColumns, row);
        ghost var mid := output;
        var cs := n.children;
        assert cs == Children(n);
        r := WriteTagPart("node_tags", cs, nodeId);
        Chain(start, a, TagPart("node_tags", cs, nodeId), NodeBody(n), mid, output);
      } else {
        AppendEmpty(start);
      }
      Chain(old(output), "in addNode\n", NodeBody(n), AddNodeOutput(n), start, output);
    }

    /** `addWay`: returns the number of tags written. */
    method AddWay(n: Node) returns (r: int)
      requires WayReady(St, n)
      modifies this
      ensures output == old(output) + AddWayOutput(n)
      ensures r == (if Name(n) == "way" then Count(Children(n), "tag") else 0)
      ensures Name(n) != "way" ==> output == old(output) + "in addWay\n"
    {
      r := 0;
      output := output + "in addWay\n";
      ghost var start := output;
      if Name(n) == "way" {
        var wayId := Atoi(Attr(n, "id"));
        var row := [Quoted(Decimal(wayId)), Null, Quoted(Attr(n, "user")), Quoted(Attr(n, "timestamp"))];
        var a := InsertHead("ways", WayColumns) + RenderRow(Q, row) + Terminator;
        output := output + a;
        SingleRow(Q, "ways", WayColumns, row);
        ghost var mid := output;
        var cs := n.children;
        assert cs == Children(n);
        r := WriteTagPart("way_tags", cs, wayId);
        Chain(start, a, TagPart("way_tags", cs, wayId), WayBody(n), mid, output);
      } else {
        AppendEmpty(start);
      }
      Chain(old(output), "in addWay\n", WayBody(n), AddWayOutput(n), start, output);
    }

    /** `deleteNode`: always returns 0. */
    method DeleteNode(n: Node) returns (r: int)
      requires Name(n) == "node" ==> HasAttr(n, "id")
      modifies this
      ensures output == old(output) + DeleteNodeOutput(n)
      ensures r == 0
      ensures Name(n) != "node" ==> output == old(output) + "in deleteNode\n"
    {
      output := output + "in deleteNode\n";
      ghost var start := output;
      if Name(n) == "node" {
        var nodeId := Atoi(Attr(n, "id"));
        var a := Render(Q, Delete("nodes", "id", Decimal(nodeId)));
        output := output + a;
        var b := Render(Q, Delete("node_tags", "id", Decimal(nodeId)));
        output := output + b;
        RenderAll2(Q, Delete("nodes", "id", Decimal(nodeId)), Delete("node_tags", "id", Decimal(nodeId)));
        Assoc(start, a, b);
      } else {
        AppendEmpty(start);
      }
      Chain(old(output), "in deleteNode\n", DeleteNodeBody(n), DeleteNodeOutput(n), start, output);
      r := 0;
    }

    /** The body of the loop of `parseCreate`. */
    method CreateChild(c: Node)
      requires EntityReady(St, c)
      modifies this
      ensures output == old(output) + CreateItem(c)
    {
      if Name(c) == "node" {
        var _ := AddNode(c);
      } else if Name(c) == "way" {
        var _ := AddWay(c);
      }
    }

    /** `parseCreate`: returns the number of children, counted before their names are
        looked at. */
    method ParseCreate(n: Node) returns (r: int)
      requires Name(n) == "create" ==> CreateReady(Children(n))
      modifies this
      ensures output == old(output) + CreateOutput(n)
      ensures r == (if Name(n) == "create" && Children(n) != [] then |Children(n)| else 0)
      ensures Name(n) != "create" || Children(n) == [] ==> output == old(output) + "in parse create\n"
    {
      r := 0;
      output := output + "in parse create\n";
      ghost var start := output;
      if Name(n) == "create" && n.children != [] {
        assert Children(n) == n.children;
        r := CreateChildren(n.children);
      } else {
        AppendEmpty(start);
      }
      Chain(old(output), "in parse create\n", CreateBody(n), CreateOutput(n), start, output);
    }

    method CreateChildren(cs: seq<Node>) returns (r: int)
      requires CreateReady(cs)
      modifies this
      ensures output == old(output) + CreateLoop(cs, |cs|)
      ensures r == |cs|
    {
      r := 0;
      var j := 0;
      while j < |cs|
        invariant 0 <= j <= |cs| && r == j
        invariant output == old(output) + CreateLoop(cs, j)
      {
        r := CreateRound(cs, j, r, old(output));
        j := j + 1;
      }
    }

    /** One round of the loop of `parseCreate`. */
    method CreateRound(cs: seq<Node>, j: nat, r: int, ghost o: string) returns (r': int)
      requires CreateReady(cs) && j < |cs|
      requires r == j && output == o + CreateLoop(cs, j)
      modifies this
      ensures r' == j + 1 && output == o + CreateLoop(cs, j + 1)
    {
      ghost var before := output;
      r' := r + 1;
      CreateChild(cs[j]);
      CreateStep(o, cs, j, before, output);
    }

    /** The body of the loop of `parseDelete`: a `way` is only warned about. */
    method DeleteChild(c: Node) returns (d: int)
      requires Name(c) == "node" ==> HasAttr(c, "id")
      modifies this
      ensures output == old(output) + DeleteItem(c)
      ensures d == (if Name(c) == "node" then 1 else 0)
    {
      d := 0;
      if Name(c) == "node" {
        d := 1;
        var _ := DeleteNode(c);
      }
    }

    /** `parseDelete`: returns the number of `node` children. */
    method ParseDelete(n: Node) returns (r: int)
      requires Name(n) == "delete" ==> DeleteReady(Children(n))
      modifies this
      ensures output == old(output) + DeleteOutput(n)
      ensures r == (if Name(n) == "delete" then Count(Children(n), "node") else 0)
      ensures Name(n) != "delete" || Children(n) == [] ==> output == old(output) + "in parse delete\n"
    {
      r := 0;
      output := output + "in parse delete\n";
      ghost var start := output;
      if Name(n) == "delete" && n.children != [] {
        assert Children(n) == n.children;
        r := DeleteChildren(n.children);
      } else {
        AppendEmpty(start);
      }
      Chain(old(output), "in parse delete\n", DeleteBody(n), DeleteOutput(n), start, output);
    }

    method DeleteChildren(cs: seq<Node>) returns (r: int)
      requires DeleteReady(cs)
      modifies this
      ensures output == old(output) + DeleteLoop(cs, |cs|)
      ensures r == Count(cs, "node")
    {
      r := 0;
      var j := 0;
      while j < |cs|
        invariant 0 <= j <= |cs|
        invariant r == CountUpTo(cs, "node", j)
        invariant output == old(output) + DeleteLoop(cs, j)
      {
        r := DeleteRound(cs, j, r, old(output));
        j := j + 1;
      }
      CountUpToAll(cs, "node");
    }

    /** One round of the loop of `parseDelete`. */
    method DeleteRound(cs: seq<Node>, j: nat, r: int, ghost o: string) returns (r': int)
      requires DeleteReady(cs) && j < |cs|
      requires r == CountUpTo(cs, "node", j) && output == o + DeleteLoop(cs, j)
      modifies this
      ensures r' == CountUpTo(cs, "node", j + 1) && output == o + DeleteLoop(cs, j + 1)
    {
      ghost var before := output;
      var d := DeleteChild(cs[j]);
      r' := r + d;
      DeleteStep(o, cs, j, before, output);
    }

    /** The body of the loop of `parseModify`. */
    method ModifyChild(c: Node) returns (d: int)
      requires NodeReady(St, c)
      modifies this
      ensures output == old(output) + ModifyItem(c)
      ensures d == (if Name(c) == "node" then 1 else 0)
    {
      d := 0;
      if Name(c) == "node" {
        d := 1;
        var _ := DeleteNode(c);
        ghost var mid := output;
        var _ := AddNode(c);
        Chain(old(output), DeleteNodeOutput(c), AddNodeOutput(c), ModifyItem(c), mid, output);
      }
    }

    /** `parseModify`: for each `node` child its delete and then its add; returns the
        number of `node` children. */
    method ParseModify(n: Node) returns (r: int)
      requires Name(n) == "modify" ==> ModifyReady(Children(n))
      modifies this
      ensures output == old(output) + ModifyOutput(n)
      ensures r == (if Name(n) == "modify" then Count(Children(n), "node") else 0)
      ensures Name(n) != "modify" || Children(n) == [] ==> output == old(output) + "in parse Modify\n"
    {
      r := 0;
      output := output + "in parse Modify\n";
      ghost var start := output;
      if Name(n) == "modify" && n.children != [] {
        assert Children(n) == n.children;
        r := ModifyChildren(n.children);
      } else {
        AppendEmpty(start);
      }
      Chain(old(output), "in parse Modify\n", ModifyBody(n), ModifyOutput(n), start, output);
    }

    method ModifyChildren(cs: seq<Node>) returns (r: int)
      requires ModifyReady(cs)
      modifies this
      ensures output == old(output) + ModifyLoop(cs, |cs|)
      ensures r == Count(cs, "node")
    {
      r := 0;
      var j := 0;
      while j < |cs|
        invariant 0 <= j <= |cs|
        invariant r == CountUpTo(cs, "node", j)
        invariant output == old(output) + ModifyLoop(cs, j)
      {
        r := ModifyRound(cs, j, r, old(output));
        j := j + 1;
      }
      CountUpToAll(cs, "node");
    }

    /** One round of the loop of `parseModify`. */
    method ModifyRound(cs: seq<Node>, j: nat, r: int, ghost o: string) returns (r': int)
      requires ModifyReady(cs) && j < |cs|
      requires r == CountUpTo(cs, "node", j) && output == o + ModifyLoop(cs, j)
      modifies this
      ensures r' == CountUpTo(cs, "node", j + 1) && output == o + ModifyLoop(cs, j + 1)
    {
      ghost var before := output;
      var d := ModifyChild(cs[j]);
      r' := r + d;
      ModifyStep(o, cs, j, before, output);
    }

    /** `traverse_tree`: the loop over the siblings `ns`; a `modify` gets only its
        progress line. */
    method TraverseTree(ns: seq<Node>)
      requires TreeReady(ns)
      modifies this
      ensures output == old(output) + Walk(Dispatch, ns)
      decreases ns, 1
    {
      var j := 0;
      while j < |ns|
        invariant 0 <= j <= |ns|
        invariant output == old(output) + WalkLoop(Dispatch, ns, j)
      {
        WalkRound(ns, j, old(output));
        j := j + 1;
      }
    }

    /** One round of the loop of `traverse_tree`: the sibling is dispatched, then its
        children are walked. */
    method WalkRound(ns: seq<Node>, j: nat, ghost o: string)
      requires TreeReady(ns) && j < |ns|
      requires output == o + WalkLoop(Dispatch, ns, j)
      modifies this
      ensures output == o + WalkLoop(Dispatch, ns, j + 1)
      decreases ns, 0
    {
      WalkReady(ns, j);
      ghost var before := output;
      var cur := ns[j];
      if cur.Element? {
        DispatchOne(cur);
        ghost var mid := output;
        TraverseTree(cur.children);
        Chain(before, Dispatch(cur), Walk(Dispatch, cur.children), WalkItem(Dispatch, cur), mid, output);
      } else {
        AppendEmpty(before);
      }
      WalkStep(Dispatch, o, ns, j, before, output);
    }

    /** The branches of `traverse_tree` for one element. */
    method DispatchOne(cur: Node)
      requires cur.Element? && OperationReady(cur)
      modifies this
      ensures output == old(output) + Dispatch(cur)
    {
      if cur.name == "delete" {
        output := output + "delete it \n";
        ghost var mid := output;
        var _ := ParseDelete(cur);
        Chain(old(output), "delete it \n", DeleteOutput(cur), Dispatch(cur), mid, output);
      } else if cur.name == "modify" {
        output := output + "modify it \n";
      } else if cur.name == "create" {
        output := output + "create it \n";
        ghost var mid := output;
        var _ := ParseCreate(cur);
        Chain(old(output), "create it \n", CreateOutput(cur), Dispatch(cur), mid, output);
      } else {
        AppendEmpty(output);
      }
    }
  }

  /** The SQL part of `main`: the walk from the root element, with nothing before or
      after it. */
  method Run(root: Node) returns (sql: string)
    requires TreeReady([root])
    ensures sql == Walk(Dispatch, [root])
  {
    var e := new Emitter();
    e.TraverseTree([root]);
    sql := e.output;
  }
}
