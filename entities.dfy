/** What the emitters of both programs read from a `node` or `way` element, and the SQL
    statements and value tuples they make of it. The two programs differ only in how a
    string value is written, which `Style` says. */
module Entities {
  import opened Xml
  import opened Format
  import opened Escaping
  import opened Sql
  import opened Seqs

  /** osc2sql.c double-quotes values and escapes tag and node-reference fields;
      ctoa.c single-quotes values and writes every field verbatim. */
  datatype Style = DoubleQuotedEscaped | SingleQuotedVerbatim

  function Quote(st: Style): char
  {
    if st.DoubleQuotedEscaped? then '"' else '\''
  }

  /** A `k`, `v` or `ref` attribute as it appears inside its quotes. */
  function Field(st: Style, s: string): string
  {
    if st.DoubleQuotedEscaped? then Escaped(s) else s
  }

  /** The field can be escaped into the static buffer (only osc2sql.c escapes). */
  predicate FieldFits(st: Style, s: string)
  {
    st.DoubleQuotedEscaped? ==> Escapable(s)
  }

  const NodeColumns: seq<string> := ["id", "lat", "lon", "visible", "user", "timestamp"]
  const WayColumns: seq<string> := ["id", "visible", "user", "timestamp"]
  const TagColumns: seq<string> := ["id", "k", "v"]
  const WayNodeColumns: seq<string> := ["nodeid", "wayid", "sequence"]

  /** The entity id: `atoi` of the `id` attribute. */
  function Id(n: Node): int
  {
    Atoi(Attr(n, "id"))
  }

  // ---------------------------------------------------------------------------
  // What each emitter reads. Every attribute passed to printf, atoi or escape must
  // be present; osc2sql.c also needs each escaped field to fit its buffer.

  predicate TagFields(st: Style, c: Node)
  {
    HasAttr(c, "k") && HasAttr(c, "v") && FieldFits(st, Attr(c, "k")) && FieldFits(st, Attr(c, "v"))
  }

  predicate NdFields(st: Style, c: Node)
  {
    HasAttr(c, "ref") && FieldFits(st, Attr(c, "ref"))
  }

  /** Every `tag` child in `cs` can be written. */
  predicate TagsReady(st: Style, cs: seq<Node>)
  {
    forall c | c in cs :: Name(c) == "tag" ==> TagFields(st, c)
  }

  /** Every `nd` child in `cs` can be written. */
  predicate NdsReady(st: Style, cs: seq<Node>)
  {
    forall c | c in cs :: Name(c) == "nd" ==> NdFields(st, c)
  }

  predicate NodeReady(st: Style, n: Node)
  {
    Name(n) == "node" ==>
      && HasAttr(n, "id") && HasAttr(n, "lat") && HasAttr(n, "lon")
      && HasAttr(n, "user") && HasAttr(n, "timestamp")
      && TagsReady(st, Children(n))
  }

  /** Only osc2sql.c reads the `nd` children of a way. */
  predicate WayReady(st: Style, n: Node)
  {
    Name(n) == "way" ==>
      && HasAttr(n, "id") && HasAttr(n, "user") && HasAttr(n, "timestamp")
      && TagsReady(st, Children(n))
      && (st.DoubleQuotedEscaped? ==> NdsReady(st, Children(n)))
  }

  /** A node or way can be given to the add routines. */
  predicate EntityReady(st: Style, n: Node)
  {
    NodeReady(st, n) && WayReady(st, n)
  }

  /** A node or way can be given to the delete routines, which read only the id. */
  predicate Deletable(n: Node)
  {
    (Name(n) == "node" || Name(n) == "way") ==> HasAttr(n, "id")
  }

  /** The three operation elements of an osmChange document. */
  predicate IsOperation(n: Node)
  {
    n.Element? && (n.name == "delete" || n.name == "modify" || n.name == "create")
  }

  // ---------------------------------------------------------------------------
  // Tuples and statements.

  /** The tuple `(id, k, v)` of one tag. */
  function TagRow(st: Style, id: int, c: Node): seq<Value>
  {
    [Quoted(Decimal(id)), Quoted(Field(st, Attr(c, "k"))), Quoted(Field(st, Attr(c, "v")))]
  }

  /** The tuples child `c` contributes to a tag batch: its own when it is a `tag`. */
  function TagRowOf(st: Style, id: int, c: Node): seq<seq<Value>>
  {
    if Name(c) == "tag" then [TagRow(st, id, c)] else []
  }

  /** The tuples of the `tag` nodes of `cs`, in document order. */
  function TagRows(st: Style, cs: seq<Node>, id: int): seq<seq<Value>>
  {
    if cs == [] then []
    else
      var init, last := cs[..|cs| - 1], cs[|cs| - 1];
      TagRows(st, init, id) + TagRowOf(st, id, last)
  }

  /** The tuple `(nodeid, wayid, sequence)` of the `nd` at position `j` among the `nd`s. */
  function NdRow(st: Style, wayId: int, c: Node, j: int): seq<Value>
  {
    [Quoted(Field(st, Attr(c, "ref"))), Quoted(Decimal(wayId)), Quoted(Decimal(j))]
  }

  /** The tuples child `c` contributes to a node-reference batch at position `j`. */
  function NdRowOf(st: Style, wayId: int, c: Node, j: int): seq<seq<Value>>
  {
    if Name(c) == "nd" then [NdRow(st, wayId, c, j)] else []
  }

  /** The tuples of the `nd` nodes of `cs`, each numbered by how many `nd`s precede it. */
  function NdRows(st: Style, cs: seq<Node>, wayId: int): seq<seq<Value>>
  {
    if cs == [] then []
    else
      var init, last := cs[..|cs| - 1], cs[|cs| - 1];
      var rows := NdRows(st, init, wayId);
      rows + NdRowOf(st, wayId, last, |rows|)
  }

  /** The base row of a node; both programs write its fields without escaping. */
  function NodeRow(n: Node): Stmt
  {
    Insert("nodes", NodeColumns,
      [[Quoted(Decimal(Id(n))), Quoted(Attr(n, "lat")), Quoted(Attr(n, "lon")), Null,
        Quoted(Attr(n, "user")), Quoted(Attr(n, "timestamp"))]])
  }

  function NodeTags(st: Style, n: Node): Stmt
  {
    Insert("node_tags", TagColumns, TagRows(st, Children(n), Id(n)))
  }

  /** The base row of a way, its `visible` column NULL as in the node row. */
  function WayRow(n: Node): Stmt
  {
    Insert("ways", WayColumns,
      [[Quoted(Decimal(Id(n))), Null, Quoted(Attr(n, "user")), Quoted(Attr(n, "timestamp"))]])
  }

  function WayNodes(st: Style, n: Node): Stmt
  {
    Insert("ways_nodes", WayNodeColumns, NdRows(st, Children(n), Id(n)))
  }

  function WayTags(st: Style, n: Node): Stmt
  {
    Insert("way_tags", TagColumns, TagRows(st, Children(n), Id(n)))
  }

  /** The two statements that delete a node, both keyed by its id. */
  function DeleteNodeStmts(n: Node): seq<Stmt>
  {
    [Delete("nodes", "id", Decimal(Id(n))), Delete("node_tags", "id", Decimal(Id(n)))]
  }

  /** The three statements that delete a way; the node list is keyed by `wayid`. */
  function DeleteWayStmts(n: Node): seq<Stmt>
  {
    [Delete("ways", "id", Decimal(Id(n))), Delete("way_nodes", "wayid", Decimal(Id(n))),
     Delete("way_tags", "id", Decimal(Id(n)))]
  }

  // ---------------------------------------------------------------------------
  // The tuple lists against an independent description of them.

  /** The tag batch has one tuple per `tag` child, the j-th for the j-th tag. */
  lemma {:induction false} TagRowsAt(st: Style, cs: seq<Node>, id: int)
    ensures |TagRows(st, cs, id)| == Count(cs, "tag")
    ensures forall j | 0 <= j < |TagRows(st, cs, id)| ::
      TagRows(st, cs, id)[j] == TagRow(st, id, Filter(cs, "tag")[j])
  {
    if cs != [] {
      var init, last := cs[..|cs| - 1], cs[|cs| - 1];
      TagRowsAt(st, init, id);
      var rows, tags := TagRows(st, init, id), Filter(init, "tag");
      if Name(last) == "tag" {
        var x := TagRow(st, id, last);
        assert TagRows(st, cs, id) == rows + [x];
        assert Filter(cs, "tag") == tags + [last];
        forall j | 0 <= j < |rows| + 1
          ensures (rows + [x])[j] == TagRow(st, id, (tags + [last])[j])
        {
          if j < |rows| {
            assert (rows + [x])[j] == rows[j] && (tags + [last])[j] == tags[j];
          }
        }
      } else {
        assert TagRows(st, cs, id) == rows + [] == rows;
        assert Filter(cs, "tag") == tags;
      }
    }
  }


  /** The node-reference batch has one tuple per `nd` child in document order, and their
      sequence values are exactly 0, 1, ..., k - 1 for k `nd` children. */
  lemma {:induction false} NdRowsAt(st: Style, cs: seq<Node>, wayId: int)
    ensures |NdRows(st, cs, wayId)| == Count(cs, "nd")
    ensures forall j | 0 <= j < |NdRows(st, cs, wayId)| ::
      NdRows(st, cs, wayId)[j] == NdRow(st, wayId, Filter(cs, "nd")[j], j)
  {
    if cs != [] {
      var init, last := cs[..|cs| - 1], cs[|cs| - 1];
      NdRowsAt(st, init, wayId);
      var rows, nds := NdRows(st, init, wayId), Filter(init, "nd");
      if Name(last) == "nd" {
        var x := NdRow(st, wayId, last, |rows|);
        assert NdRows(st, cs, wayId) == rows + [x];
        assert Filter(cs, "nd") == nds + [last];
        forall j | 0 <= j < |rows| + 1
          ensures (rows + [x])[j] == NdRow(st, wayId, (nds + [last])[j], j)
        {
          if j < |rows| {
            assert (rows + [x])[j] == rows[j] && (nds + [last])[j] == nds[j];
          }
        }
      } else {
        assert NdRows(st, cs, wayId) == rows + [] == rows;
        assert Filter(cs, "nd") == nds;
      }
    }
  }


  /** The length half of `TagRowsAt`, for proofs that need nothing else. */
  lemma TagRowsLength(st: Style, cs: seq<Node>, id: int)
    ensures |TagRows(st, cs, id)| == Count(cs, "tag")
  {
    TagRowsAt(st, cs, id);
  }

  /** The length half of `NdRowsAt`. */
  lemma NdRowsLength(st: Style, cs: seq<Node>, wayId: int)
    ensures |NdRows(st, cs, wayId)| == Count(cs, "nd")
  {
    NdRowsAt(st, cs, wayId);
  }

  // ---------------------------------------------------------------------------
  // One child further: how the batches grow as a loop over the children advances.

  lemma TagReadyAt(st: Style, cs: seq<Node>, j: nat)
    requires TagsReady(st, cs) && j < |cs|
    ensures Name(cs[j]) == "tag" ==> TagFields(st, cs[j])
  {
    assert cs[j] in cs;
  }

  lemma NdReadyAt(st: Style, cs: seq<Node>, j: nat)
    requires NdsReady(st, cs) && j < |cs|
    ensures Name(cs[j]) == "nd" ==> NdFields(st, cs[j])
  {
    assert cs[j] in cs;
  }

  lemma TagRowsSnoc(st: Style, p: seq<Node>, c: Node, id: int)
    ensures TagRows(st, p + [c], id) == TagRows(st, p, id) + TagRowOf(st, id, c)
  {
    SnocParts(p, c);
  }

  lemma NdRowsSnoc(st: Style, p: seq<Node>, c: Node, id: int)
    ensures NdRows(st, p + [c], id)
      == NdRows(st, p, id) + NdRowOf(st, id, c, |NdRows(st, p, id)|)
  {
    SnocParts(p, c);
  }

  /** One more child extends the tag tuples by its own. */
  lemma TagRowsStep(st: Style, cs: seq<Node>, id: int, j: nat)
    requires j < |cs|
    ensures TagRows(st, cs[..j + 1], id) == TagRows(st, cs[..j], id) + TagRowOf(st, id, cs[j])
  {
    PrefixSnoc(cs, j);
    TagRowsSnoc(st, cs[..j], cs[j], id);
  }

  /** One more child extends the node-reference tuples by its own. */
  lemma NdRowsStep(st: Style, cs: seq<Node>, id: int, j: nat)
    requires j < |cs|
    ensures NdRows(st, cs[..j + 1], id) == NdRows(st, cs[..j], id) + NdRowOf(st, id, cs[j], |NdRows(st, cs[..j], id)|)
  {
    PrefixSnoc(cs, j);
    NdRowsSnoc(st, cs[..j], cs[j], id);
  }
}
