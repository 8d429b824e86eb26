/** osc2sql.c: the changeset-to-SQL emitter. Every routine appends to one output stream,
    modelled as the `output` field of an `Emitter`. The functions in the first half say
    what each routine writes, in terms of SQL statements and value tuples; the methods of
    the class do what the C routines do and are proved to write exactly that. */
module Osc2Sql {
  import opened Xml
  import opened Format
  import opened Escaping
  import opened Sql
  import opened Entities
  import opened Seqs

  const St: Style := DoubleQuotedEscaped
  const Q: char := Quote(St)

  const Preamble: string := "set character set utf8;\nSET AUTOCOMMIT=0;\n"
  const Postamble: string := "COMMIT;\n"

  // ---------------------------------------------------------------------------
  // What each routine writes.

  /** The tag tuples of `cs` as `addTagValues` writes them when the counter starts at `i0`. */
  function TagBatch(cs: seq<Node>, id: int, i0: int): string
  {
    RenderRowsAt(Q, i0 > 0, TagRows(St, cs, id))
  }

  /** `addNode`: the `nodes` row; the `node_tags` head when the element has any child
      at all; one tuple per `tag` child; a terminator when at least one tag was written. */
  function AddNodeOutput(n: Node): string
  {
    if Name(n) != "node" then ""
    else
      var cs := Children(n);
      var tags := TagRows(St, cs, Id(n));
      Render(Q, NodeRow(n))
      + (if cs != [] then InsertHead("node_tags", TagColumns) else "")
      + RenderRows(Q, tags)
      + (if |tags| >= 1 then Terminator else "")
  }

  /** `addWay` up to its `nd` tuples: the `ways` row; the `ways_nodes` head when the
      element has any child; the `nd` tuples, terminated only when there are at least two. */
  function WayHead(n: Node): string
  {
    var cs := Children(n);
    var nds := NdRows(St, cs, Id(n));
    Render(Q, WayRow(n))
    + (if cs != [] then InsertHead("ways_nodes", WayNodeColumns) else "")
    + RenderRows(Q, nds)
    + (if |nds| > 1 then Terminator else "")
  }

  /** The tag part of `addWay` after `k` `nd` tuples: the `way_tags` head and the tag
      tuples, whose counter continues from `k`, so a separator precedes the first tag when
      k > 0 and the terminator needs k + t > 1 for t tags. */
  function WayTagsOutput(cs: seq<Node>, id: int, k: int): string
  {
    InsertHead("way_tags", TagColumns) + TagBatch(cs, id, k)
    + (if k + |TagRows(St, cs, id)| > 1 then Terminator else "")
  }

  /** `addWay`: the head, then the tag part when there is a tag. */
  function AddWayOutput(n: Node): string
  {
    if Name(n) != "way" then ""
    else
      var cs := Children(n);
      WayHead(n)
      + (if |TagRows(St, cs, Id(n))| > 0 then WayTagsOutput(cs, Id(n), |NdRows(St, cs, Id(n))|) else "")
  }

  lemma TagBatchFirst(cs: seq<Node>, id: int)
    ensures TagBatch(cs, id, 0) == RenderRows(Q, TagRows(St, cs, id))
  {
  }


  /** `deleteNode` */
  function DeleteNodeOutput(n: Node): string
  {
    if Name(n) == "node" then RenderAll(Q, DeleteNodeStmts(n)) else ""
  }

  /** `deleteWay` */
  function DeleteWayOutput(n: Node): string
  {
    if Name(n) == "way" then RenderAll(Q, DeleteWayStmts(n)) else ""
  }

  lemma ReadyDeletable(c: Node)
    requires EntityReady(St, c)
    ensures Deletable(c)
  {
  }

  /** One child of a `create`. */
  function CreateItem(c: Node): string
  {
    if Name(c) == "node" then AddNodeOutput(c)
    else if Name(c) == "way" then AddWayOutput(c)
    else ""
  }

  /** One child of a `delete`. */
  function DeleteItem(c: Node): string
  {
    if Name(c) == "node" then DeleteNodeOutput(c)
    else if Name(c) == "way" then DeleteWayOutput(c)
    else ""
  }

  /** One child of a `modify`: the delete output, then the add output. */
  function ModifyItem(c: Node): string
  {
    if Name(c) == "node" then DeleteNodeOutput(c) + AddNodeOutput(c)
    else if Name(c) == "way" then DeleteWayOutput(c) + AddWayOutput(c)
    else ""
  }

  predicate AllReady(cs: seq<Node>)
  {
    forall j | 0 <= j < |cs| :: EntityReady(St, cs[j])
  }

  predicate AllDeletable(cs: seq<Node>)
  {
    forall j | 0 <= j < |cs| :: Deletable(cs[j])
  }

  /** What the loop writes for the first `j` children `cs`. */
  function CreateLoop(cs: seq<Node>, j: nat): string
    requires j <= |cs|
  {
    if j == 0 then "" else CreateLoop(cs, j - 1) + CreateItem(cs[j - 1])
  }

  function DeleteLoop(cs: seq<Node>, j: nat): string
    requires j <= |cs|
  {
    if j == 0 then "" else DeleteLoop(cs, j - 1) + DeleteItem(cs[j - 1])
  }

  function ModifyLoop(cs: seq<Node>, j: nat): string
    requires j <= |cs|
  {
    if j == 0 then "" else ModifyLoop(cs, j - 1) + ModifyItem(cs[j - 1])
  }

  /** What the operation routines read. Each one checks the container's name first and
      touches no child when it does not match. */
  predicate OperationReady(n: Node)
  {
    && (Name(n) == "create" ==> AllReady(Children(n)))
    && (Name(n) == "modify" ==> AllReady(Children(n)))
    && (Name(n) == "delete" ==> AllDeletable(Children(n)))
  }

  /** `parseCreate`: nothing unless the container is a `create` with children. */
  function CreateOutput(n: Node): string
  {
    if Name(n) == "create" && Children(n) != [] then CreateLoop(Children(n), |Children(n)|) else ""
  }

  /** `parseDelete` */
  function DeleteOutput(n: Node): string
  {
    if Name(n) == "delete" && Children(n) != [] then DeleteLoop(Children(n), |Children(n)|) else ""
  }

  /** `parseModify` */
  function ModifyOutput(n: Node): string
  {
    if Name(n) == "modify" && Children(n) != [] then ModifyLoop(Children(n), |Children(n)|) else ""
  }

  /** The body of `traverse_tree` for one node, before it descends into the children. */
  function Dispatch(n: Node): string
  {
    if !n.Element? then ""
    else if n.name == "delete" then DeleteOutput(n)
    else if n.name == "modify" then ModifyOutput(n)
    else if n.name == "create" then CreateOutput(n)
    else ""
  }

  /** Every node of the sibling list `ns` and of its subtrees can be dispatched. */
  predicate TreeReady(ns: seq<Node>)
    decreases ns
  {
    forall j | 0 <= j < |ns| ::
      OperationReady(ns[j]) && (ns[j].Element? ==> TreeReady(ns[j].children))
  }

  // ---------------------------------------------------------------------------
  // One child further, for the loops of the routines.

  /** What the loop of `addNode` writes for child `c` when the counter is `i`. */
  function TagText(c: Node, id: int, i: int): string
  {
    RowText(Q, i, TagRowOf(St, id, c))
  }


  /** What the first loop of `addWay` writes for child `c` when the counter is `i`. */
  function NdText(c: Node, id: int, i: int): string
  {
    RowText(Q, i, NdRowOf(St, id, c, i))
  }


  lemma CreateStep(o: string, cs: seq<Node>, j: nat, before: string, out: string)
    requires j < |cs|
    requires before == o + CreateLoop(cs, j) && out == before + CreateItem(cs[j])
    ensures out == o + CreateLoop(cs, j + 1)
  {
    Chain(o, CreateLoop(cs, j), CreateItem(cs[j]), CreateLoop(cs, j + 1), before, out);
  }

  lemma DeleteStep(o: string, cs: seq<Node>, j: nat, before: string, out: string)
    requires j < |cs|
    requires before == o + DeleteLoop(cs, j) && out == before + DeleteItem(cs[j])
    ensures out == o + DeleteLoop(cs, j + 1)
  {
    Chain(o, DeleteLoop(cs, j), DeleteItem(cs[j]), DeleteLoop(cs, j + 1), before, out);
  }

  lemma ModifyStep(o: string, cs: seq<Node>, j: nat, before: string, out: string)
    requires j < |cs|
    requires before == o + ModifyLoop(cs, j) && out == before + ModifyItem(cs[j])
    ensures out == o + ModifyLoop(cs, j + 1)
  {
    Chain(o, ModifyLoop(cs, j), ModifyItem(cs[j]), ModifyLoop(cs, j + 1), before, out);
  }

  lemma WalkReady(ns: seq<Node>, j: nat)
    requires TreeReady(ns) && j < |ns|
    ensures OperationReady(ns[j]) && (ns[j].Element? ==> TreeReady(ns[j].children))
  {
  }

  // ---------------------------------------------------------------------------
  // The routines.

  class Emitter {
    /** Everything written to `output_file` so far. */
    var output: string

    constructor ()
      ensures output == ""
    {
      output := "";
    }

    /** `addTagValues` */
    method AddTagValues(tag: Node, nodeId: int, i: int) returns (r: int)
      requires TagFields(St, tag)
      modifies this
      ensures output == old(output) + (Separator(i) + RenderRow(Q, TagRow(St, nodeId, tag)))
      ensures r == 1
    {
      ghost var start := output;
      if i > 0 {
        output := output + ", ";
      }
      ghost var mid := output;
      var k := Escape(Attr(tag, "k"));
      output := output + ("(" + RenderValue(Q, Quoted(Decimal(nodeId))) + ", " + RenderValue(Q, Quoted(k)) + ", ");
      var v := Escape(Attr(tag, "v"));
      output := output + (RenderValue(Q, Quoted(v)) + ")");
      WriteRow3Late(Q, i, TagRow(St, nodeId, tag), Quoted(Decimal(nodeId)), Quoted(k), Quoted(v), start, mid, output);
      r := 1;
    }

    /** `addNodes2WayValues`: the counter `i` is also the sequence value written. */
    method AddNodes2WayValues(nd: Node, wayId: int, i: int) returns (r: int)
      requires NdFields(St, nd)
      modifies this
      ensures output == old(output) + (Separator(i) + RenderRow(Q, NdRow(St, wayId, nd, i)))
      ensures r == 1
    {
      ghost var start := output;
      if i > 0 {
        output := output + ", ";
      }
      ghost var mid := output;
      var ref := Escape(Attr(nd, "ref"));
      output := output + ("(" + RenderValue(Q, Quoted(ref)) + ", ");
      output := output + (RenderValue(Q, Quoted(Decimal(wayId))) + ", " + RenderValue(Q, Quoted(Decimal(i))) + ")");
      WriteRow3Early(Q, i, NdRow(St, wayId, nd, i), Quoted(ref), Quoted(Decimal(wayId)), Quoted(Decimal(i)), start, mid, output);
      r := 1;
    }

    /** The body of the loop of `addNode`. */
    method TagChild(c: Node, id: int, i: int) returns (d: int)
      requires Name(c) == "tag" ==> TagFields(St, c)
      modifies this
      ensures output == old(output) + TagText(c, id, i)
      ensures d == (if Name(c) == "tag" then 1 else 0)
    {
      d := 0;
      if Name(c) == "tag" {
        d := AddTagValues(c, id, i);
      }
    }

    /** The body of the first loop of `addWay`: `nd` children are written, `tag`
        children counted. */
    method NdChild(c: Node, wayId: int, i: int) returns (d: int, e: int)
      requires Name(c) == "nd" ==> NdFields(St, c)
      modifies this
      ensures output == old(output) + NdText(c, wayId, i)
      ensures d == (if Name(c) == "nd" then 1 else 0) && e == (if Name(c) == "tag" then 1 else 0)
    {
      d, e := 0, 0;
      if Name(c) == "nd" {
        d := AddNodes2WayValues(c, wayId, i);
      }
      if Name(c) == "tag" {
        e := 1;
      }
    }

    /** The loop of `addNode` and the second loop of `addWay`: one tuple per `tag` child,
        the counter starting at `i0`; returns the counter after the last tag. */
    method AddTags(cs: seq<Node>, id: int, i0: int) returns (i: int)
      requires TagsReady(St, cs) && i0 >= 0
      modifies this
      ensures output == old(output) + TagBatch(cs, id, i0)
      ensures i == i0 + Count(cs, "tag")
    {
      i := i0;
      var j := 0;
      ghost var rows := [];
      PrefixEnds(cs);
      while j < |cs|
        invariant 0 <= j <= |cs|
        invariant rows == TagRows(St, cs[..j], id)
        invariant i == i0 + |rows|
        invariant output == old(output) + RenderRowsAt(Q, i0 > 0, rows)
      {
        TagReadyAt(St, cs, j);
        i := TagStep(cs[j], id, i0, i, rows, old(output));
        TagRowsStep(St, cs, id, j);
        rows := rows + TagRowOf(St, id, cs[j]);
        j := j + 1;
      }
      TagRowsAt(St, cs, id);
    }

    /** One round of the loop of `AddTags`, after the tuples `rows`. */
    method TagStep(c: Node, id: int, i0: int, i: int, ghost rows: seq<seq<Value>>, ghost o: string) returns (i': int)
      requires Name(c) == "tag" ==> TagFields(St, c)
      requires i0 >= 0 && i == i0 + |rows| && output == o + RenderRowsAt(Q, i0 > 0, rows)
      modifies this
      ensures i' == i0 + |rows + TagRowOf(St, id, c)|
      ensures output == o + RenderRowsAt(Q, i0 > 0, rows + TagRowOf(St, id, c))
    {
      ghost var before := output;
      var d := TagChild(c, id, i);
      i' := i + d;
      CounterStepOpt(Q, i0, rows, TagRowOf(St, id, c), o, before, output);
    }

    /** The first loop of `addWay`: one tuple per `nd` child, numbered from 0, while the
        `tag` children are only counted. */
    method AddNds(cs: seq<Node>, wayId: int) returns (i: int, tags: int)
      requires NdsReady(St, cs)
      modifies this
      ensures output == old(output) + RenderRows(Q, NdRows(St, cs, wayId))
      ensures i == Count(cs, "nd") && tags == Count(cs, "tag")
    {
      i, tags := 0, 0;
      var j := 0;
      ghost var rows := [];
      PrefixEnds(cs);
      while j < |cs|
        invariant 0 <= j <= |cs|
        invariant rows == NdRows(St, cs[..j], wayId)
        invariant i == |rows| && tags == CountUpTo(cs, "tag", j)
        invariant output == old(output) + RenderRows(Q, rows)
      {
        i, tags := NdRound(cs, wayId, j, i, tags, rows, old(output));
        rows := NdRows(St, cs[..j + 1], wayId);
        j := j + 1;
      }
      CountUpToAll(cs, "tag");
      NdRowsAt(St, cs, wayId);
    }

    /** One round of the loop of `AddNds`. */
    method NdRound(cs: seq<Node>, wayId: int, j: nat, i: int, tags: int, ghost rows: seq<seq<Value>>, ghost o: string) returns (i': int, tags': int)
      requires NdsReady(St, cs) && j < |cs|
      requires rows == NdRows(St, cs[..j], wayId) && i == |rows| && tags == CountUpTo(cs, "tag", j)
      requires output == o + RenderRows(Q, rows)
      modifies this
      ensures i' == |NdRows(St, cs[..j + 1], wayId)| && tags' == CountUpTo(cs, "tag", j + 1)
      ensures output == o + RenderRows(Q, NdRows(St, cs[..j + 1], wayId))
    {
      NdReadyAt(St, cs, j);
      i', tags' := NdStep(cs[j], wayId, i, tags, rows, o);
      CountUpToStep(cs, "tag", j, tags, tags');
      NdRowsStep(St, cs, wayId, j);
    }

    /** One round of the loop of `AddNds`, after the tuples `rows`. */
    method NdStep(c: Node, wayId: int, i: int, tags: int, ghost rows: seq<seq<Value>>, ghost o: string) returns (i': int, tags': int)
      requires Name(c) == "nd" ==> NdFields(St, c)
      requires i == |rows| && output == o + RenderRows(Q, rows)
      modifies this
      ensures i' == |rows + NdRowOf(St, wayId, c, i)| && tags' == tags + (if Name(c) == "tag" then 1 else 0)
      ensures output == o + RenderRows(Q, rows + NdRowOf(St, wayId, c, i))
    {
      ghost var before := output;
      var d, e := NdChild(c, wayId, i);
      i', tags' := i + d, tags + e;
      CounterStepOpt(Q, 0, rows, NdRowOf(St, wayId, c, i), o, before, output);
    }

    /** `addNode`: returns the number of tags written. */
    method AddNode(n: Node) returns (r: int)
      requires NodeReady(St, n)
      modifies this
      ensures output == old(output) + AddNodeOutput(n)
      ensures r == (if Name(n) == "node" then Count(Children(n), "tag") else 0)
      ensures Name(n) != "node" ==> output == old(output)
    {
      r := 0;
      if Name(n) == "node" {
        var nodeId := Atoi(Attr(n, "id"));
        var row := [Quoted(Decimal(nodeId)), Quoted(Attr(n, "lat")), Quoted(Attr(n, "lon")), Null,
                    Quoted(Attr(n, "user")), Quoted(Attr(n, "timestamp"))];
        var a := InsertHead("nodes", NodeColumns) + RenderRow(Q, row) + Terminator;
        output := output + a;
        SingleRow(Q, "nodes", NodeColumns, row);
        var cs := n.children;
        var b := if cs != [] then InsertHead("node_tags", TagColumns) else "";
        output := output + b;
        r := AddTags(cs, nodeId, 0);
        ghost var c := TagBatch(cs, nodeId, 0);
        var d := if r >= 1 then Terminator else "";
        output := output + d;
        TagRowsAt(St, cs, nodeId);
        TagBatchFirst(cs, nodeId);
        Assoc(old(output), a, b);
        Assoc(old(output), a + b, c);
        Assoc(old(output), a + b + c, d);
      }
    }

    /** `addWay`: returns the number of `nd`s plus the number of tags. */
    method AddWay(n: Node) returns (r: int)
      requires WayReady(St, n)
      modifies this
      ensures output == old(output) + AddWayOutput(n)
      ensures r == (if Name(n) == "way" then Count(Children(n), "nd") + Count(Children(n), "tag") else 0)
      ensures Name(n) != "way" ==> output == old(output)
    {
      r := 0;
      if Name(n) == "way" {
        var wayId := Atoi(Attr(n, "id"));
        var tagExists;
        r, tagExists := AddWayHead(n, wayId);
        ghost var mid := output;
        var cs := n.children;
        assert cs == Children(n);
        TagRowsAt(St, cs, wayId);
        if tagExists != 0 {
          r := AddWayTags(cs, wayId, r);
          Chain(old(output), WayHead(n), WayTagsOutput(cs, wayId, Count(cs, "nd")), AddWayOutput(n), mid, output);
        } else {
          AppendEmpty(mid);
          AppendEmpty(WayHead(n));
        }
      }
    }

    /** `addWay` up to the end of its first loop, which counts the tags. */
    method AddWayHead(n: Node, wayId: int) returns (r: int, tagExists: int)
      requires Name(n) == "way" && WayReady(St, n) && wayId == Id(n)
      modifies this
      ensures output == old(output) + WayHead(n)
      ensures r == Count(Children(n), "nd") && r == |NdRows(St, Children(n), wayId)| && tagExists == Count(Children(n), "tag")
    {
      var row := [Quoted(Decimal(wayId)), Null, Quoted(Attr(n, "user")), Quoted(Attr(n, "timestamp"))];
      var a := InsertHead("ways", WayColumns) + RenderRow(Q, row) + Terminator;
      output := output + a;
      SingleRow(Q, "ways", WayColumns, row);
      var cs := n.children;
      var b := if cs != [] then InsertHead("ways_nodes", WayNodeColumns) else "";
      output := output + b;
      r, tagExists := AddNds(cs, wayId);
      ghost var c := RenderRows(Q, NdRows(St, cs, wayId));
      var d := if r > 1 then Terminator else "";
      output := output + d;
      NdRowsAt(St, cs, wayId);
      Assoc(old(output), a, b);
      Assoc(old(output), a + b, c);
      Assoc(old(output), a + b + c, d);
    }

    /** The tag part of `addWay`, after `k` `nd` tuples. */
    method AddWayTags(cs: seq<Node>, wayId: int, k: int) returns (r: int)
      requires TagsReady(St, cs) && k >= 0
      modifies this
      ensures output == old(output) + WayTagsOutput(cs, wayId, k)
      ensures r == k + Count(cs, "tag")
    {
      var e := InsertHead("way_tags", TagColumns);
      output := output + e;
      r := AddTags(cs, wayId, k);
      ghost var f := TagBatch(cs, wayId, k);
      var g := if r > 1 then Terminator else "";
      output := output + g;
      TagRowsAt(St, cs, wayId);
      Assoc(old(output), e, f);
      Assoc(old(output), e + f, g);
    }

    /** `deleteNode` */
    method DeleteNode(n: Node) returns (r: int)
      requires Deletable(n)
      modifies this
      ensures output == old(output) + DeleteNodeOutput(n)
      ensures r == 0
      ensures Name(n) != "node" ==> output == old(output)
    {
      if Name(n) == "node" {
        var nodeId := Atoi(Attr(n, "id"));
        ghost var start := output;
        var a := Render(Q, Delete("nodes", "id", Decimal(nodeId)));
        output := output + a;
        var b := Render(Q, Delete("node_tags", "id", Decimal(nodeId)));
        output := output + b;
        RenderAll2(Q, Delete("nodes", "id", Decimal(nodeId)), Delete("node_tags", "id", Decimal(nodeId)));
        Assoc(start, a, b);
      }
      r := 0;
    }

    /** `deleteWay` */
    method DeleteWay(n: Node) returns (r: int)
      requires Deletable(n)
      modifies this
      ensures output == old(output) + DeleteWayOutput(n)
      ensures r == 0
      ensures Name(n) != "way" ==> output == old(output)
    {
      if Name(n) == "way" {
        var wayId := Atoi(Attr(n, "id"));
        ghost var start := output;
        var a := Render(Q, Delete("ways", "id", Decimal(wayId)));
        output := output + a;
        var b := Render(Q, Delete("way_nodes", "wayid", Decimal(wayId)));
        output := output + b;
        var c := Render(Q, Delete("way_tags", "id", Decimal(wayId)));
        output := output + c;
        RenderAll3(Q, Delete("ways", "id", Decimal(wayId)), Delete("way_nodes", "wayid", Decimal(wayId)),
          Delete("way_tags", "id", Decimal(wayId)));
        Assoc(start, a, b);
        Assoc(start, a + b, c);
      }
      r := 0;
    }

    /** The body of the loop of `parseCreate`. */
    method CreateChild(c: Node)
      requires EntityReady(St, c)
      modifies this
      ensures output == old(output) + CreateItem(c)
    {
      if Name(c) == "node" {
        var _ := AddNode(c);
      } else if Name(c) == "way" {
        var _ := AddWay(c);
      }
    }

    /** `parseCreate`: returns the number of children, counted before their names are
        looked at. */
    method ParseCreate(n: Node) returns (r: int)
      requires OperationReady(n)
      modifies this
      ensures output == old(output) + CreateOutput(n)
      ensures r == (if Name(n) == "create" && Children(n) != [] then |Children(n)| else 0)
      ensures Name(n) != "create" || Children(n) == [] ==> output == old(output)
    {
      r := 0;
      if Name(n) == "create" && n.children != [] {
        assert Children(n) == n.children;
        r := CreateChildren(n.children);
      }
    }

    /** The loop of `parseCreate` over the children `cs`. */
    method CreateChildren(cs: seq<Node>) returns (r: int)
      requires AllReady(cs)
      modifies this
      ensures output == old(output) + CreateLoop(cs, |cs|)
      ensures r == |cs|
    {
      r := 0;
      var j := 0;
      while j < |cs|
        invariant 0 <= j <= |cs| && r == j
        invariant output == old(output) + CreateLoop(cs, j)
      {
        r := CreateRound(cs, j, r, old(output));
        j := j + 1;
      }
    }

    /** One round of the loop of `parseCreate`. */
    method CreateRound(cs: seq<Node>, j: nat, r: int, ghost o: string) returns (r': int)
      requires AllReady(cs) && j < |cs|
      requires r == j && output == o + CreateLoop(cs, j)
      modifies this
      ensures r' == j + 1 && output == o + CreateLoop(cs, j + 1)
    {
      ghost var before := output;
      r' := r + 1;
      CreateChild(cs[j]);
      CreateStep(o, cs, j, before, output);
    }

    /** The body of the loop of `parseDelete`. */
    method DeleteChild(c: Node) returns (d: int)
      requires Deletable(c)
      modifies this
      ensures output == old(output) + DeleteItem(c)
      ensures d == (if Name(c) == "node" || Name(c) == "way" then 1 else 0)
    {
      d := 0;
      if Name(c) == "node" {
        d := 1;
        var _ := DeleteNode(c);
      } else if Name(c) == "way" {
        d := 1;
        var _ := DeleteWay(c);
      }
    }

    /** `parseDelete`: returns the number of `node` and `way` children. */
    method ParseDelete(n: Node) returns (r: int)
      requires OperationReady(n)
      modifies this
      ensures output == old(output) + DeleteOutput(n)
      ensures r == (if Name(n) == "delete" then Count(Children(n), "node") + Count(Children(n), "way") else 0)
      ensures Name(n) != "delete" || Children(n) == [] ==> output == old(output)
    {
      r := 0;
      if Name(n) == "delete" && n.children != [] {
        assert Children(n) == n.children;
        r := DeleteChildren(n.children);
      }
    }

    /** The loop of `parseDelete` over the children `cs`. */
    method DeleteChildren(cs: seq<Node>) returns (r: int)
      requires AllDeletable(cs)
      modifies this
      ensures output == old(output) + DeleteLoop(cs, |cs|)
      ensures r == Count(cs, "node") + Count(cs, "way")
    {
      r := 0;
      var j := 0;
      while j < |cs|
        invariant 0 <= j <= |cs|
        invariant r == CountUpTo(cs, "node", j) + CountUpTo(cs, "way", j)
        invariant output == old(output) + DeleteLoop(cs, j)
      {
        r := DeleteRound(cs, j, r, old(output));
        j := j + 1;
      }
      CountUpToAll(cs, "node");
      CountUpToAll(cs, "way");
    }

    /** One round of the loop of `parseDelete`. */
    method DeleteRound(cs: seq<Node>, j: nat, r: int, ghost o: string) returns (r': int)
      requires AllDeletable(cs) && j < |cs|
      requires r == CountUpTo(cs, "node", j) + CountUpTo(cs, "way", j) && output == o + DeleteLoop(cs, j)
      modifies this
      ensures r' == CountUpTo(cs, "node", j + 1) + CountUpTo(cs, "way", j + 1) && output == o + DeleteLoop(cs, j + 1)
    {
      ghost var before := output;
      var d := DeleteChild(cs[j]);
      r' := r + d;
      DeleteStep(o, cs, j, before, output);
    }

    /** The body of the loop of `parseModify`. */
    method ModifyChild(c: Node) returns (d: int)
      requires EntityReady(St, c)
      modifies this
      ensures output == old(output) + ModifyItem(c)
      ensures d == (if Name(c) == "node" || Name(c) == "way" then 1 else 0)
    {
      d := 0;
      ReadyDeletable(c);
      if Name(c) == "node" {
        d := 1;
        var _ := DeleteNode(c);
        ghost var mid := output;
        var _ := AddNode(c);
        Chain(old(output), DeleteNodeOutput(c), AddNodeOutput(c), ModifyItem(c), mid, output);
      } else if Name(c) == "way" {
        d := 1;
        var _ := DeleteWay(c);
        ghost var mid := output;
        var _ := AddWay(c);
        Chain(old(output), DeleteWayOutput(c), AddWayOutput(c), ModifyItem(c), mid, output);
      }
    }

    /** `parseModify`: for each `node` or `way` child, its delete and then its add;
        returns the number of such children. */
    method ParseModify(n: Node) returns (r: int)
      requires OperationReady(n)
      modifies this
      ensures output == old(output) + ModifyOutput(n)
      ensures r == (if Name(n) == "modify" then Count(Children(n), "node") + Count(Children(n), "way") else 0)
      ensures Name(n) != "modify" || Children(n) == [] ==> output == old(output)
    {
      r := 0;
      if Name(n) == "modify" && n.children != [] {
        assert Children(n) == n.children;
        r := ModifyChildren(n.children);
      }
    }

    /** The loop of `parseModify` over the children `cs`. */
    method ModifyChildren(cs: seq<Node>) returns (r: int)
      requires AllReady(cs)
      modifies this
      ensures output == old(output) + ModifyLoop(cs, |cs|)
      ensures r == Count(cs, "node") + Count(cs, "way")
    {
      r := 0;
      var j := 0;
      while j < |cs|
        invariant 0 <= j <= |cs|
        invariant r == CountUpTo(cs, "node", j) + CountUpTo(cs, "way", j)
        invariant output == old(output) + ModifyLoop(cs, j)
      {
        r := ModifyRound(cs, j, r, old(output));
        j := j + 1;
      }
      CountUpToAll(cs, "node");
      CountUpToAll(cs, "way");
    }

    /** One round of the loop of `parseModify`. */
    method ModifyRound(cs: seq<Node>, j: nat, r: int, ghost o: string) returns (r': int)
      requires AllReady(cs) && j < |cs|
      requires r == CountUpTo(cs, "node", j) + CountUpTo(cs, "way", j) && output == o + ModifyLoop(cs, j)
      modifies this
      ensures r' == CountUpTo(cs, "node", j + 1) + CountUpTo(cs, "way", j + 1) && output == o + ModifyLoop(cs, j + 1)
    {
      ghost var before := output;
      var d := ModifyChild(cs[j]);
      r' := r + d;
      ModifyStep(o, cs, j, before, output);
    }

    /** `traverse_tree`: the loop over the siblings `ns`, dispatching each operation
        element and recursing into every node's children. */
    method TraverseTree(ns: seq<Node>)
      requires TreeReady(ns)
      modifies this
      ensures output == old(output) + Walk(Dispatch, ns)
      decreases ns, 1
    {
      var j := 0;
      while j < |ns|
        invariant 0 <= j <= |ns|
        invariant output == old(output) + WalkLoop(Dispatch, ns, j)
      {
        WalkRound(ns, j, old(output));
        j := j + 1;
      }
    }

    /** One round of the loop of `traverse_tree`: the sibling is dispatched, then its
        children are walked. */
    method WalkRound(ns: seq<Node>, j: nat, ghost o: string)
      requires TreeReady(ns) && j < |ns|
      requires output == o + WalkLoop(Dispatch, ns, j)
      modifies this
      ensures output == o + WalkLoop(Dispatch, ns, j + 1)
      decreases ns, 0
    {
      WalkReady(ns, j);
      ghost var before := output;
      var cur := ns[j];
      if cur.Element? {
        DispatchOne(cur);
        ghost var mid := output;
        TraverseTree(cur.children);
        Chain(before, Dispatch(cur), Walk(Dispatch, cur.children), WalkItem(Dispatch, cur), mid, output);
      } else {
        AppendEmpty(before);
      }
      WalkStep(Dispatch, o, ns, j, before, output);
    }

    /** The branches of `traverse_tree` for one element. */
    method DispatchOne(cur: Node)
      requires cur.Element? && OperationReady(cur)
      modifies this
      ensures output == old(output) + Dispatch(cur)
    {
      if cur.name == "delete" {
        var _ := ParseDelete(cur);
      } else if cur.name == "modify" {
        var _ := ParseModify(cur);
      } else if cur.name == "create" {
        var _ := ParseCreate(cur);
      } else {
        AppendEmpty(output);
      }
    }
  }

  /** The SQL part of `main`: the preamble, the walk from the root element, and the
      postamble, as the text of the output stream. */
  method Run(root: Node) returns (sql: string)
    requires TreeReady([root])
    ensures sql == Preamble + Walk(Dispatch, [root]) + Postamble
  {
    var e := new Emitter();
    e.output := e.output + Preamble;
    assert e.output == Preamble;
    e.TraverseTree([root]);
    e.output := e.output + Postamble;
    sql := e.output;
  }
}
