/** What the output of osc2sql.c amounts to: which statements it forms, where they are
    left unfinished, how the operations compose, and that the walk visits the document in
    pre-order. */
module Osc2SqlProps {
  import opened Xml
  import opened Sql
  import opened Entities
  import opened Seqs
  import opened Osc2Sql
  import opened Escaping
  import Format

  // ---------------------------------------------------------------------------
  // addNode

  /** A node with at least one tag becomes exactly two complete statements: its base row
      and its tag batch. */
  lemma NodeWithTags(n: Node)
    requires Name(n) == "node" && Count(Children(n), "tag") >= 1
    ensures AddNodeOutput(n) == RenderAll(Q, [NodeRow(n), NodeTags(St, n)])
  {
    var cs := Children(n);
    TagRowsLength(St, cs, Id(n));
    RenderAll2(Q, NodeRow(n), NodeTags(St, n));
    var head, rows := InsertHead("node_tags", TagColumns), RenderRows(Q, TagRows(St, cs, Id(n)));
    assert cs != [];
    Assoc(Render(Q, NodeRow(n)), head + rows, Terminator);
    Assoc(Render(Q, NodeRow(n)), head, rows);
  }

  /** A node without tags gets only its base row, followed by the head of an INSERT into
      `node_tags` that is never completed when the node has any child at all (a
      whitespace text node is enough). */
  lemma NodeWithoutTags(n: Node)
    requires Name(n) == "node" && Count(Children(n), "tag") == 0
    ensures AddNodeOutput(n)
      == Render(Q, NodeRow(n)) + (if Children(n) != [] then InsertHead("node_tags", TagColumns) else "")
  {
    TagRowsLength(St, Children(n), Id(n));
    AppendEmpty(Render(Q, NodeRow(n)) + (if Children(n) != [] then InsertHead("node_tags", TagColumns) else ""));
  }

  // ---------------------------------------------------------------------------
  // addWay

  /** A way with at least two node references and at least one tag: the base row and the
      node list are complete statements, but the tag batch continues the node list's
      counter, so a separator precedes its first tuple. */
  lemma WayWithNodesAndTags(n: Node)
    requires Name(n) == "way" && Count(Children(n), "nd") >= 2 && Count(Children(n), "tag") >= 1
    ensures AddWayOutput(n)
      == RenderAll(Q, [WayRow(n), WayNodes(St, n)])
         + InsertHead("way_tags", TagColumns) + ", " + RenderRows(Q, TagRows(St, Children(n), Id(n))) + Terminator
  {
    var cs, id := Children(n), Id(n);
    NdRowsLength(St, cs, id);
    TagRowsLength(St, cs, id);
    var all := RenderAll(Q, [WayRow(n), WayNodes(St, n)]);
    var th, rr := InsertHead("way_tags", TagColumns), RenderRows(Q, TagRows(St, cs, id));
    WayHeadComplete(n);
    WayTagsContinue(cs, id, |NdRows(St, cs, id)|);
    assert AddWayOutput(n) == all + (th + (", " + rr) + Terminator);
    Tail4(all, th, ", ", rr, Terminator);
  }

  /** With two node references the way's head is two complete statements. */
  lemma WayHeadComplete(n: Node)
    requires |NdRows(St, Children(n), Id(n))| >= 2
    ensures WayHead(n) == RenderAll(Q, [WayRow(n), WayNodes(St, n)])
  {
    RenderAll2(Q, WayRow(n), WayNodes(St, n));
    var cs := Children(n);
    var w, h, nds := Render(Q, WayRow(n)), InsertHead("ways_nodes", WayNodeColumns), RenderRows(Q, NdRows(St, cs, Id(n)));
    Assoc(w, h + nds, Terminator);
    Assoc(w, h, nds);
  }

  /** After at least one node reference the tag batch opens with a separator. */
  lemma WayTagsContinue(cs: seq<Node>, id: int, k: int)
    requires k >= 1 && TagRows(St, cs, id) != []
    ensures WayTagsOutput(cs, id, k)
      == InsertHead("way_tags", TagColumns) + (", " + RenderRows(Q, TagRows(St, cs, id))) + Terminator
  {
    RowsAtContinue(Q, TagRows(St, cs, id));
  }

  lemma Tail4(a: string, b: string, c: string, d: string, e: string)
    ensures a + (b + (c + d) + e) == a + b + c + d + e
  {
    Assoc(b, c, d);
    Assoc(a, b + c + d, e);
    Assoc(a + b, c, d);
    Assoc(a, b, c);
  }

  /** A way with one node reference: the node list is left without its terminator, and
      the tag batch, when there is one, continues it after a separator. */
  lemma WayWithOneNode(n: Node)
    requires Name(n) == "way" && Count(Children(n), "nd") == 1
    ensures AddWayOutput(n)
      == Render(Q, WayRow(n)) + InsertHead("ways_nodes", WayNodeColumns)
         + RenderRow(Q, NdRow(St, Id(n), Filter(Children(n), "nd")[0], 0))
         + (if Count(Children(n), "tag") >= 1
            then InsertHead("way_tags", TagColumns) + ", " + RenderRows(Q, TagRows(St, Children(n), Id(n))) + Terminator
            else "")
  {
    var cs, id := Children(n), Id(n);
    NdRowsLength(St, cs, id);
    TagRowsLength(St, cs, id);
    var pre := Render(Q, WayRow(n)) + InsertHead("ways_nodes", WayNodeColumns)
      + RenderRow(Q, NdRow(St, id, Filter(cs, "nd")[0], 0));
    WayHeadOneNode(n);
    if Count(cs, "tag") >= 1 {
      var th, rr := InsertHead("way_tags", TagColumns), RenderRows(Q, TagRows(St, cs, id));
      WayTagsContinue(cs, id, 1);
      Assoc(th, ", ", rr);
      assert AddWayOutput(n) == pre + (th + ", " + rr + Terminator);
    } else {
      AppendEmpty(pre);
    }
  }

  /** With one node reference the way's head ends in that reference's tuple, with no
      terminator. */
  lemma WayHeadOneNode(n: Node)
    requires Count(Children(n), "nd") == 1
    ensures WayHead(n)
      == Render(Q, WayRow(n)) + InsertHead("ways_nodes", WayNodeColumns)
         + RenderRow(Q, NdRow(St, Id(n), Filter(Children(n), "nd")[0], 0))
  {
    var cs, id := Children(n), Id(n);
    NdRowsAt(St, cs, id);
    var nds := NdRows(St, cs, id);
    assert nds == [nds[0]];
    Rows1(Q, nds[0]);
    assert cs != [];
    AppendEmpty(Render(Q, WayRow(n)) + InsertHead("ways_nodes", WayNodeColumns) + RenderRow(Q, nds[0]));
  }

  /** A way with tags but no node reference: the head of the node list is written and
      never completed, then the tag batch follows, whose terminator needs two tags. */
  lemma WayWithoutNodes(n: Node)
    requires Name(n) == "way" && Count(Children(n), "nd") == 0 && Count(Children(n), "tag") >= 1
    ensures AddWayOutput(n)
      == Render(Q, WayRow(n)) + InsertHead("ways_nodes", WayNodeColumns)
         + InsertHead("way_tags", TagColumns) + RenderRows(Q, TagRows(St, Children(n), Id(n)))
         + (if Count(Children(n), "tag") > 1 then Terminator else "")
  {
    var cs, id := Children(n), Id(n);
    NdRowsLength(St, cs, id);
    TagRowsLength(St, cs, id);
    var pre := Render(Q, WayRow(n)) + InsertHead("ways_nodes", WayNodeColumns);
    assert cs != [];
    assert WayHead(n) == pre + "" + "";
    AppendEmpty(pre);
    var th, rows := InsertHead("way_tags", TagColumns), RenderRows(Q, TagRows(St, cs, id));
    var term := if Count(cs, "tag") > 1 then Terminator else "";
    assert WayTagsOutput(cs, id, 0) == th + rows + term;
    Assoc(pre, th + rows, term);
    Assoc(pre, th, rows);
  }

  // ---------------------------------------------------------------------------
  // deleteNode and deleteWay

  /** Deleting a node touches only node tables and deleting a way only way tables; the
      way's node list is deleted from `way_nodes`, a table `addWay` never writes to. */
  lemma DeleteTables(n: Node, w: Node)
    ensures Tables(DeleteNodeStmts(n)) == {"nodes", "node_tags"}
    ensures Tables(DeleteWayStmts(w)) == {"ways", "way_nodes", "way_tags"}
    ensures Tables(DeleteNodeStmts(n)) !! Tables(DeleteWayStmts(w))
    ensures WayNodes(St, w).table !in Tables(DeleteWayStmts(w))
  {
    DeleteNodeTables(n);
    DeleteWayTables(w);
    assert WayNodes(St, w).table == "ways_nodes";
    TableNamesDiffer();
  }

  lemma DeleteNodeTables(n: Node)
    ensures Tables(DeleteNodeStmts(n)) == {"nodes", "node_tags"}
  {
    var d := Format.Decimal(Id(n));
    Tables2(Delete("nodes", "id", d), Delete("node_tags", "id", d));
  }

  lemma DeleteWayTables(w: Node)
    ensures Tables(DeleteWayStmts(w)) == {"ways", "way_nodes", "way_tags"}
  {
    var e := Format.Decimal(Id(w));
    Tables3(Delete("ways", "id", e), Delete("way_nodes", "wayid", e), Delete("way_tags", "id", e));
  }

  lemma TableNamesDiffer()
    ensures {"nodes", "node_tags"} !! {"ways", "way_nodes", "way_tags"}
    ensures "ways_nodes" !in {"ways", "way_nodes", "way_tags"}
  {
    assert "node_tags"[0] != "way_nodes"[0];
  }

  // ---------------------------------------------------------------------------
  // The operations

  /** Modifying one element writes what deleting it and then creating it would write. */
  lemma ModifyIsDeleteThenCreate(c: Node, attrs: map<string, string>)
    ensures ModifyOutput(Element("modify", attrs, [c]))
      == DeleteOutput(Element("delete", attrs, [c])) + CreateOutput(Element("create", attrs, [c]))
  {
    var cs := [c];
    var m, d, a := Element("modify", attrs, cs), Element("delete", attrs, cs), Element("create", attrs, cs);
    assert Children(m) == cs && Children(d) == cs && Children(a) == cs;
    LoopsOfOne(c);
    ModifyItemSplit(c);
    assert ModifyOutput(m) == ModifyLoop(cs, 1);
    assert DeleteOutput(d) == DeleteLoop(cs, 1);
    assert CreateOutput(a) == CreateLoop(cs, 1);
  }

  /** Each loop over a single child writes that child's part. */
  lemma LoopsOfOne(c: Node)
    ensures DeleteLoop([c], 1) == DeleteItem(c)
    ensures CreateLoop([c], 1) == CreateItem(c)
    ensures ModifyLoop([c], 1) == ModifyItem(c)
  {
    var cs := [c];
    var d, a, m := DeleteItem(c), CreateItem(c), ModifyItem(c);
    assert DeleteLoop(cs, 1) == "" + d;
    assert CreateLoop(cs, 1) == "" + a;
    assert ModifyLoop(cs, 1) == "" + m;
    AppendEmpty(d);
    AppendEmpty(a);
    AppendEmpty(m);
  }

  /** One child of a `modify` is its delete output followed by its create output. */
  lemma ModifyItemSplit(c: Node)
    ensures ModifyItem(c) == DeleteItem(c) + CreateItem(c)
  {
    if Name(c) != "node" && Name(c) != "way" {
      AppendEmpty(ModifyItem(c));
    }
  }

  // ---------------------------------------------------------------------------
  // traverse_tree

  /** A document without `create`, `delete` or `modify` anywhere produces no statement:
      the whole output is the preamble and the closing COMMIT. */
  lemma NoOperations(root: Node)
    requires forall x | x in Preorder([root]) :: !IsOperation(x)
    ensures Preamble + Walk(Dispatch, [root]) + Postamble == Preamble + Postamble
  {
    WalkEmpty(Dispatch, [root]);
    AppendEmpty(Preamble);
  }

  // ---------------------------------------------------------------------------
  // What escaping changes

  /** Escaping is the only difference between the tag tuples of the two programs: when no
      tag's `k` or `v` holds a double quote, both make the same tuples. */
  lemma {:induction false} TagRowsWithoutQuotes(cs: seq<Node>, id: int)
    requires forall c | c in cs :: Name(c) == "tag" ==> '"' !in Attr(c, "k") && '"' !in Attr(c, "v")
    ensures TagRows(DoubleQuotedEscaped, cs, id) == TagRows(SingleQuotedVerbatim, cs, id)
  {
    if cs != [] {
      var last := cs[|cs| - 1];
      PrefixIn(cs, |cs| - 1);
      TagRowsWithoutQuotes(cs[..|cs| - 1], id);
      if Name(last) == "tag" {
        EscapedUnchanged(Attr(last, "k"));
        EscapedUnchanged(Attr(last, "v"));
      }
    }
  }

  /** A double quote in a tag value makes the two programs' tuples differ. */
  lemma QuoteMakesRowsDiffer(id: int, c: Node)
    requires Name(c) == "tag" && '"' in Attr(c, "v")
    ensures TagRow(DoubleQuotedEscaped, id, c) != TagRow(SingleQuotedVerbatim, id, c)
  {
    EscapedUnchanged(Attr(c, "v"));
    var a, b := TagRow(DoubleQuotedEscaped, id, c), TagRow(SingleQuotedVerbatim, id, c);
    assert a[2] != b[2];
  }
}
