/** What the output of ctoa.c amounts to, and where it falls short of osc2sql.c: a single
    tag is left unterminated, node references and ways in a `delete` are dropped, and a
    `modify` is announced but never applied. */
module CtoaProps {
  import opened Xml
  import opened Sql
  import opened Entities
  import opened Seqs
  import opened Ctoa

  // ---------------------------------------------------------------------------
  // The tag part of addNode and addWay

  /** Two or more tags make one complete INSERT. */
  lemma TagPartComplete(table: string, cs: seq<Node>, id: int)
    requires Count(cs, "tag") >= 2
    ensures TagPart(table, cs, id) == Render(Q, Insert(table, TagColumns, TagRows(St, cs, id)))
  {
    TagRowsLength(St, cs, id);
  }

  /** A single tag is written without a terminator, so the statement runs into whatever
      the stream receives next. */
  lemma TagPartOneTag(table: string, cs: seq<Node>, id: int)
    requires Count(cs, "tag") == 1
    ensures TagPart(table, cs, id)
      == InsertHead(table, TagColumns) + RenderRow(Q, TagRow(St, id, Filter(cs, "tag")[0]))
  {
    TagRowsAt(St, cs, id);
    var tags := TagRows(St, cs, id);
    assert tags == [tags[0]];
    Rows1(Q, tags[0]);
    assert cs != [];
    AppendEmpty(InsertHead(table, TagColumns) + RenderRow(Q, tags[0]));
  }

  /** Without tags only the head is written, and only when there is some child. */
  lemma TagPartNoTags(table: string, cs: seq<Node>, id: int)
    requires Count(cs, "tag") == 0
    ensures TagPart(table, cs, id) == (if cs != [] then InsertHead(table, TagColumns) else "")
  {
    TagRowsLength(St, cs, id);
    AppendEmpty(if cs != [] then InsertHead(table, TagColumns) else "");
  }

  /** A node with two or more tags becomes its two statements. */
  lemma NodeWithTags(n: Node)
    requires Name(n) == "node" && Count(Children(n), "tag") >= 2
    ensures NodeBody(n) == RenderAll(Q, [NodeRow(n), NodeTags(St, n)])
  {
    TagPartComplete("node_tags", Children(n), Id(n));
    RenderAll2(Q, NodeRow(n), NodeTags(St, n));
  }

  /** A way with two or more tags becomes its two statements; its node list is not among
      them. */
  lemma WayWithTags(n: Node)
    requires Name(n) == "way" && Count(Children(n), "tag") >= 2
    ensures WayBody(n) == RenderAll(Q, [WayRow(n), WayTags(St, n)])
  {
    TagPartComplete("way_tags", Children(n), Id(n));
    RenderAll2(Q, WayRow(n), WayTags(St, n));
  }

  /** An `nd` child changes nothing in what `addWay` writes, once the way has a child. */
  lemma WayIgnoresNodeReferences(attrs: map<string, string>, cs: seq<Node>, d: Node)
    requires cs != [] && Name(d) == "nd"
    ensures AddWayOutput(Element("way", attrs, cs + [d])) == AddWayOutput(Element("way", attrs, cs))
  {
    var n, n' := Element("way", attrs, cs), Element("way", attrs, cs + [d]);
    assert WayRow(n') == WayRow(n) && Id(n') == Id(n);
    TagPartIgnoresNodeReference("way_tags", cs, d, Id(n));
    assert WayBody(n') == WayBody(n);
  }

  lemma TagPartIgnoresNodeReference(table: string, cs: seq<Node>, d: Node, id: int)
    requires cs != [] && Name(d) == "nd"
    ensures TagPart(table, cs + [d], id) == TagPart(table, cs, id)
  {
    InitOfAppend(cs, [d]);
    var rows := TagRows(St, cs, id);
    assert TagRows(St, cs + [d], id) == rows + [];
    AppendEmpty(rows);
  }

  // ---------------------------------------------------------------------------
  // The operations

  /** A `delete` drops its ways: only the progress line of `parseDelete` is written for
      a `delete` that holds nothing but ways. */
  lemma DeleteIgnoresWays(n: Node)
    requires Name(n) == "delete"
    requires forall j | 0 <= j < |Children(n)| :: Name(Children(n)[j]) == "way"
    ensures DeleteOutput(n) == "in parse delete\n"
  {
    var cs := Children(n);
    if cs != [] {
      NoNodesDeleted(cs, |cs|);
    }
    AppendEmpty("in parse delete\n");
  }

  lemma {:induction false} NoNodesDeleted(cs: seq<Node>, j: nat)
    requires j <= |cs|
    requires forall k | 0 <= k < |cs| :: Name(cs[k]) == "way"
    ensures DeleteLoop(cs, j) == ""
  {
    if j > 0 {
      NoNodesDeleted(cs, j - 1);
    }
  }

  /** Modifying one node writes what deleting it and then creating it would write, each
      after its own progress line. */
  lemma ModifyIsDeleteThenCreate(c: Node, attrs: map<string, string>)
    requires Name(c) == "node"
    ensures ModifyBody(Element("modify", attrs, [c]))
      == DeleteBody(Element("delete", attrs, [c])) + CreateBody(Element("create", attrs, [c]))
  {
    LoopsOfOne(c);
    assert ModifyItem(c) == DeleteItem(c) + CreateItem(c);
  }

  /** Each loop over a single child writes that child's part. */
  lemma LoopsOfOne(c: Node)
    ensures DeleteLoop([c], 1) == DeleteItem(c)
    ensures CreateLoop([c], 1) == CreateItem(c)
    ensures ModifyLoop([c], 1) == ModifyItem(c)
  {
    var cs := [c];
    var d, a, m := DeleteItem(c), CreateItem(c), ModifyItem(c);
    assert DeleteLoop(cs, 1) == "" + d;
    assert CreateLoop(cs, 1) == "" + a;
    assert ModifyLoop(cs, 1) == "" + m;
    AppendEmpty(d);
    AppendEmpty(a);
    AppendEmpty(m);
  }

  // ---------------------------------------------------------------------------
  // traverse_tree

  /** The stream stays empty exactly when the document holds no operation element, since
      each of them writes its progress line. */
  lemma NoOperations(ns: seq<Node>)
    ensures Walk(Dispatch, ns) == "" <==> forall x | x in Preorder(ns) :: !IsOperation(x)
  {
    WalkEmpty(Dispatch, ns);
    forall x | x in Preorder(ns)
      ensures Dispatch(x) == "" <==> !IsOperation(x)
    {
    }
  }

  /** A `modify` is announced and never parsed: when it holds no nested operation, its
      progress line is all the walk writes for it, whatever nodes it holds. */
  lemma ModifyNeverApplied(m: Node)
    requires m.Element? && m.name == "modify"
    requires forall x | x in Preorder(m.children) :: !IsOperation(x)
    ensures Walk(Dispatch, [m]) == "modify it \n"
  {
    NoOperations(m.children);
    var ns := [m];
    assert WalkLoop(Dispatch, ns, 1) == WalkLoop(Dispatch, ns, 0) + WalkItem(Dispatch, ns[0]);
    AppendEmpty("modify it \n");
    AppendEmpty(WalkItem(Dispatch, m));
  }
}
