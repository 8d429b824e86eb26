# osc2sql in Dafny

A model of the two emitters of the osc2sql repository, with proofs about them. Both
walk an OSM change document (an `osmChange` tree of `create`, `delete` and `modify`
elements holding `node` and `way` elements). Both write SQL text to one output stream.

- `osc2sql.c` works as follows:
  - It writes a preamble (`set character set utf8;` and `SET AUTOCOMMIT=0;`) and ends with `COMMIT;`.
  - Values are double-quoted. The tag fields `k` and `v` and the node-reference field `ref` pass through `escape`, which turns every `"` into `&quot;`.
  - Ways get their node references in `ways_nodes` and their tags in `way_tags`.
  - `modify` deletes each node or way and then adds it again.
  - Progress messages go to standard error and are not part of the stream.
- `ctoa.c`, the earlier draft, differs:
  - Values are single-quoted and copied verbatim.
  - Progress lines (`in addNode`, `delete it `, …) go into the same stream as the SQL.
  - A single tag is left without its `;`.
  - `nd` children are ignored, and only nodes are deleted.
  - `traverse_tree` announces a `modify` but never parses it.

## Structure

The model has ten modules. Sequence lemmas, the document, the number conversions, the escaper and the SQL shapes are shared. Each program has a module of its own plus one of proved properties.

- `Seqs` (seqs.dfy): generic facts about sequences.
  - `Flatten(f, xs)` concatenates the results of `f` over `xs`.
  - `Assoc` and `Chain` rebracket concatenations.
  - Further lemmas cover prefixes and their last elements.

- `Xml` (xml.dfy): the libxml2 tree.
  - A `Node` is an element, with a name, an attribute map and children in document order, or a text node. Text nodes are kept: the parser keeps whitespace, and the emitters test "has any child".
  - Also here: counting and filtering children by name, and the pre-order listing of a tree.
  - `Walk(visit, ns)` is the shape both `traverse_tree` functions share: `visit` each element, then walk its children. Each program supplies its own `Dispatch` as `visit`. `WalkIsPreorder` proves, once for both, that the walk is `visit` flattened over the pre-order listing.
- `Format` (format.dfy): `atoi` and `%d`, on unbounded integers.
- `Escaping` (escape.dfy): the escaper. `Escaped` is its specification and `Escape` its loop.
  - A Dafny `char` stands for the UTF-8 bytes libxml2 returns for it. `Utf8Length` counts those bytes, which is what `strlen` and the buffer index count.
- `Sql` (sql.dfy): SQL statements as data.
  - A statement is `Insert(table, columns, rows)` or `Delete(table, column, key)`.
  - Rendering follows the programs' punctuation. Every tuple after the counter's first is preceded by `, `, and `;\n` is the terminator.
- `Entities` (entities.dfy): what both programs read from a `node`/`way`, and the statements and tuple lists they make of it.
  - The two programs differ only in a `Style`: double-quoted and escaped, or single-quoted and verbatim.
  - Also here: what an entity must carry to be written ("ready").
- `Osc2Sql` (osc2sql.dfy) and `Ctoa` (ctoa.dfy), one per program:
  - specification functions give the text each routine writes;
  - an `Emitter` class has an `output: string` field, and each C routine is a method that appends to it. Each loop over a child list is a `while` loop with its invariants.
  - Each method's contract states `output == old(output) + <spec>` and the counter it returns.
- `Osc2SqlProps` (osc2sql_props.dfy) and `CtoaProps` (ctoa_props.dfy): what the specification functions amount to.
  - which statements are complete and which are left dangling;
  - what modify is;
  - that the walk is a pre-order traversal;
  - what escaping changes.

## Model

| member | source | states |
|---|---|---|
| Escaping.Escaped | osc2sql.c:59-84 | the escaped text is one character per non-quote and six per `"` (length = length + 5 × quotes) |
| Escaping.EscapedNoQuote | osc2sql.c:66-79 | no `"` is left in an escaped field |
| Escaping.EscapedUnchanged | osc2sql.c:66-79 | a text is its own escaped form if and only if it holds no `"` |
| Escaping.EscapedAppend | osc2sql.c:66-79 | escaping distributes over concatenation (it is character by character, in order) |
| Escaping.EscapedIdempotent | osc2sql.c:66-79 | escaping an escaped field again changes nothing |
| Escaping.EscapedBytes | osc2sql.c:60-79 | the escaped field is 5 bytes longer per `"` in UTF-8, as it is 5 characters longer |
| Escaping.Utf8LengthAscii | osc2sql.c:60 | the byte length `strlen` counts equals the character count exactly for ASCII text |
| Escaping.Escape | osc2sql.c:59-84 | the buffer loop produces exactly `Escaped(msg)`, when the UTF-8 bytes of the result and the zero after them fit the 5000-byte buffer |
| Format.Decimal | osc2sql.c:156 | `%d` gives a nonempty string of digits, with a leading `-` exactly for negative numbers |
| Format.Atoi | osc2sql.c:154 | skips leading white space and an optional sign, then reads the longest digit prefix: a string of digits reads as its value, a string with no digit as 0, and the result is negative only when a `-` is present |
| Format.AtoiDecimal | osc2sql.c:154 | `atoi` reads back every number `%d` writes |
| Entities.TagRowsAt | osc2sql.c:172-176 | the tag tuples are one per `tag` child, the j-th built from the j-th `tag` child |
| Entities.NdRowsAt | osc2sql.c:220-227 | the node-reference tuples are one per `nd` child, in document order, the j-th carrying sequence value j |
| Osc2Sql.Emitter.AddTagValues | osc2sql.c:95-110 | writes `, ` exactly when i > 0, then the tuple `("id", "esc k", "esc v")`; returns 1 |
| Osc2Sql.Emitter.AddNodes2WayValues | osc2sql.c:121-136 | writes `, ` exactly when i > 0, then `("esc ref", "wayID", "i")` with the counter as sequence value; returns 1 |
| Osc2Sql.Emitter.AddTags | osc2sql.c:172-176 | the tag loop writes the tag tuples, its counter continuing from i0; returns i0 + number of tags |
| Osc2Sql.Emitter.AddNds | osc2sql.c:220-227 | the first way loop writes the `nd` tuples numbered 0…k−1 and counts the tags; returns k and the tag count |
| Osc2Sql.Emitter.AddNode | osc2sql.c:145-184 | writes the `nodes` row, the `node_tags` head iff there is any child, the tag tuples, and `;\n` iff at least one tag; returns the tag count; writes nothing for another name |
| Osc2Sql.Emitter.AddWayHead | osc2sql.c:202-228 | writes the `ways` row, the `ways_nodes` head iff there is any child, the `nd` tuples, and `;\n` iff k > 1 |
| Osc2Sql.Emitter.AddWayTags | osc2sql.c:231-242 | writes the `way_tags` head and the tags with the counter continuing from k, and `;\n` iff k + t > 1; returns k + t |
| Osc2Sql.Emitter.AddWay | osc2sql.c:194-248 | writes the head, then the tag part only when there is a tag; returns k + t; writes nothing for another name |
| Osc2Sql.Emitter.DeleteNode | osc2sql.c:296-315 | writes exactly the two DELETEs of `nodes` and `node_tags` by id; returns 0; writes nothing for another name |
| Osc2Sql.Emitter.DeleteWay | osc2sql.c:324-346 | writes exactly the three DELETEs of `ways`, `way_nodes` (by `wayid`) and `way_tags`; returns 0; writes nothing for another name |
| Osc2Sql.Emitter.CreateChild | osc2sql.c:270-278 | a `node` is added, a `way` is added, anything else writes nothing |
| Osc2Sql.Emitter.CreateChildren | osc2sql.c:269-279 | the loop writes each child's add output in order and counts every child |
| Osc2Sql.Emitter.ParseCreate | osc2sql.c:258-286 | for a `create` with children: the loop; returns the number of all children (text and unknown included); otherwise writes nothing and returns 0 |
| Osc2Sql.Emitter.DeleteChild | osc2sql.c:367-375 | a `node` or `way` is deleted and counted, anything else writes nothing and is not counted |
| Osc2Sql.Emitter.DeleteChildren | osc2sql.c:366-376 | the loop writes each child's delete output in order; returns the number of node and way children |
| Osc2Sql.Emitter.ParseDelete | osc2sql.c:355-383 | for a `delete` with children: the loop; otherwise nothing; returns the node and way count |
| Osc2Sql.Emitter.ModifyChild | osc2sql.c:404-420 | a `node` or `way` child writes its delete output immediately followed by its add output |
| Osc2Sql.Emitter.ModifyChildren | osc2sql.c:403-421 | the loop writes each child's delete-then-add output in order; returns the node and way count |
| Osc2Sql.Emitter.ParseModify | osc2sql.c:392-428 | for a `modify` with children: the loop; otherwise nothing; returns the node and way count |
| Osc2Sql.Emitter.DispatchOne | osc2sql.c:453-466 | an element named `delete`, `modify` or `create` is parsed by its routine; any other element writes nothing |
| Osc2Sql.Emitter.TraverseTree | osc2sql.c:438-476 | the sibling loop dispatches each node and then walks its children, writing `Walk(Dispatch, ns)` |
| Osc2Sql.Run | osc2sql.c:541-560 | the stream is the preamble, the walk from the root element, then `COMMIT;` |
| Osc2SqlProps.NodeWithTags | osc2sql.c:145-184 | a node with at least one tag becomes exactly its two complete statements, `nodes` and `node_tags` |
| Osc2SqlProps.NodeWithoutTags | osc2sql.c:165-177 | a node without tags leaves a dangling `node_tags` head whenever it has any child (whitespace included) |
| Osc2SqlProps.WayHeadComplete | osc2sql.c:205-228 | with at least two `nd` children the way head is exactly the `ways` and `ways_nodes` statements |
| Osc2SqlProps.WayHeadOneNode | osc2sql.c:213-228 | with one `nd` child its tuple is left without the terminator |
| Osc2SqlProps.WayTagsContinue | osc2sql.c:231-242 | after k ≥ 1 node references the tag batch opens with `, ` |
| Osc2SqlProps.WayWithNodesAndTags | osc2sql.c:194-248 | k ≥ 2 and a tag: two complete statements, then a `way_tags` INSERT whose first tuple is preceded by `, ` |
| Osc2SqlProps.WayWithOneNode | osc2sql.c:194-248 | k = 1: the `nd` tuple is unterminated and any tag batch follows it after `, ` |
| Osc2SqlProps.WayWithoutNodes | osc2sql.c:194-248 | k = 0 with tags: a dangling `ways_nodes` head, then the tag batch, terminated only for two or more tags |
| Osc2SqlProps.DeleteTables | osc2sql.c:296-346 | a node delete touches exactly `nodes`, `node_tags`; a way delete exactly `ways`, `way_nodes`, `way_tags`; the sets are disjoint, and `ways_nodes` (written by addWay) is not among them |
| Osc2SqlProps.ModifyItemSplit | osc2sql.c:404-420 | one child of a `modify` writes its delete output followed by its create output |
| Osc2SqlProps.ModifyIsDeleteThenCreate | osc2sql.c:392-428 | a `modify` of one element writes what a `delete` and then a `create` of it write |
| Xml.WalkLoopPrefix | osc2sql.c:445-467 | the walk of the first j siblings is the walk of the list cut after them |
| Xml.WalkIsPreorder | osc2sql.c:438-476 | the walk visits every node of the tree exactly once, in pre-order document order; `traverse_tree` in ctoa.c:295-332 has the same shape |
| Xml.WalkEmpty | osc2sql.c:438-476 | the walk writes nothing exactly when the visit writes nothing for every node |
| Osc2SqlProps.NoOperations | osc2sql.c:541-560 | with no operation element anywhere the walk writes nothing, so the stream is the preamble and `COMMIT;` alone |
| Osc2SqlProps.TagRowsWithoutQuotes | osc2sql.c:101-107 | when no tag field holds `"`, the tag tuples are the same escaped or verbatim |
| Osc2SqlProps.QuoteMakesRowsDiffer | osc2sql.c:105-107 | a `"` in a tag value makes the escaped tuple differ from the verbatim one |
| Ctoa.Emitter.AddTagValues | ctoa.c:56-69 | writes `, ` exactly when i > 0, then `('id', 'k', 'v')` verbatim; returns 1 |
| Ctoa.Emitter.AddTags | ctoa.c:105-109 | the tag loop writes one tuple per `tag` child in order; returns the tag count |
| Ctoa.Emitter.WriteTagPart | ctoa.c:98-110 | the tag head iff there is any child, the tuples, and `;\n` only for more than one tag |
| Ctoa.Emitter.AddNode | ctoa.c:78-117 | `in addNode\n`, then for a `node` its row and tag part; returns the tag count |
| Ctoa.Emitter.AddWay | ctoa.c:127-164 | `in addWay\n`, then for a `way` its row and tag part (no node references); returns the tag count |
| Ctoa.Emitter.DeleteNode | ctoa.c:205-227 | `in deleteNode\n`, then for a `node` the two DELETEs with the single-quoted id; returns 0 |
| Ctoa.Emitter.CreateChild | ctoa.c:179-187 | a `node` or `way` is added, anything else writes nothing |
| Ctoa.Emitter.CreateChildren | ctoa.c:178-188 | the loop writes each child's add output and counts every child |
| Ctoa.Emitter.ParseCreate | ctoa.c:167-195 | `in parse create\n`, then for a `create` with children the loop; returns the number of all children |
| Ctoa.Emitter.DeleteChild | ctoa.c:241-246 | only a `node` is deleted and counted |
| Ctoa.Emitter.DeleteChildren | ctoa.c:240-247 | the loop deletes the `node` children in order; returns their count |
| Ctoa.Emitter.ParseDelete | ctoa.c:229-254 | `in parse delete\n`, then for a `delete` with children the loop; returns the node count |
| Ctoa.Emitter.ModifyChild | ctoa.c:268-277 | a `node` writes its delete output and then its add output; anything else nothing |
| Ctoa.Emitter.ModifyChildren | ctoa.c:267-278 | the loop writes each node's delete-then-add output; returns the node count |
| Ctoa.Emitter.ParseModify | ctoa.c:256-285 | `in parse Modify\n`, then for a `modify` with children the loop; returns the node count |
| Ctoa.Emitter.DispatchOne | ctoa.c:310-322 | `delete` and `create` write their progress line and are parsed; `modify` writes only `modify it \n` |
| Ctoa.Emitter.TraverseTree | ctoa.c:295-332 | the sibling loop dispatches each node and then walks its children, writing `Walk(Dispatch, ns)` |
| Ctoa.Run | ctoa.c:386-397 | the stream is the walk from the root element alone, with no preamble |
| CtoaProps.TagPartComplete | ctoa.c:98-110 | two or more tags make one complete INSERT |
| CtoaProps.TagPartOneTag | ctoa.c:98-110 | a single tag is written without `;\n` |
| CtoaProps.TagPartNoTags | ctoa.c:98-110 | without tags only the dangling head, and only when there is a child |
| CtoaProps.NodeWithTags | ctoa.c:78-117 | a node with two or more tags becomes its two complete statements |
| CtoaProps.WayWithTags | ctoa.c:127-164 | a way with two or more tags becomes its `ways` and `way_tags` statements, with no node list |
| CtoaProps.TagPartIgnoresNodeReference | ctoa.c:152-157 | an added `nd` child does not change the tag part |
| CtoaProps.WayIgnoresNodeReferences | ctoa.c:127-164 | an `nd` child changes nothing in what addWay writes |
| CtoaProps.NoNodesDeleted | ctoa.c:240-247 | the delete loop writes nothing over children that are all ways |
| CtoaProps.DeleteIgnoresWays | ctoa.c:229-254 | a `delete` of ways writes only its progress line |
| CtoaProps.LoopsOfOne | ctoa.c:178-188 | each loop over a single child writes that child's part |
| CtoaProps.ModifyIsDeleteThenCreate | ctoa.c:256-285 | parseModify of one node writes what parseDelete and then parseCreate of it write (after the progress lines) |
| CtoaProps.NoOperations | ctoa.c:295-332 | the walk writes nothing if and only if no operation element occurs anywhere, since each one writes its progress line |
| CtoaProps.ModifyNeverApplied | ctoa.c:315-316 | a `modify` without nested operations contributes only `modify it \n`, whatever it holds |

## Left out

- File and process plumbing is not modelled: option parsing, opening the output file, reading the document with libxml2, `xmlSaveFile` in ctoa.c, and exit codes. `Run` takes the parsed root element and returns the text of the stream.
- The walk starts from the root element alone. Siblings of the root at document level are not modelled.
- The messages to standard error are not modelled. This covers osc2sql.c's progress messages and both programs' warnings for unknown names. ctoa.c's `printf` progress lines are modelled because they go into the SQL stream.
- libxml2 is replaced by the `Node` datatype:
  - `xmlStrcmp` is string equality, and a text node is named `text`;
  - `xmlGetProp` is a map lookup. Every attribute a routine reads must be present: the "ready" predicates are preconditions. A NULL passed to `printf`, `atoi` or `strlen` is outside the model.
- Memory handling is not modelled: the `xmlFree` calls on NULL or uninitialised pointers, and the leaked attribute strings.
  - A document can reach the uninitialised case. For an empty `<create/>`, `<delete/>` or `<modify/>`, the loop never runs and `parseCreate`, `parseDelete` or `parseModify` frees the uninitialised `tmp_node` (osc2sql.c:263-284, 360-381, 397-426).
  - `addNode` and `addWay` do the same for an element of the wrong name (osc2sql.c:148-182, 198-246).
  - The contracts of `ParseCreate`, `ParseDelete` and `ParseModify` say such a call writes nothing. That covers the output only up to this undefined behaviour.
- Integers are unbounded. An `atoi` overflow and counter overflow are not modelled.
- The two 5000-byte buffers of `escape`: the model requires the UTF-8 bytes of the escaped field and the zero after them to fit (`Escapable`, counted with `Utf8Length`), instead of modelling the overflow. The unescaped copy is never longer (`EscapedBytes`).
- Strings are sequences of Unicode characters, not of bytes. Escaping agrees on both: a `"` is one byte, and no byte of a longer UTF-8 encoding equals it.
- Invalid UTF-8 in an attribute is not modelled. The dead copy into `empty` is not modelled. Each escaped field is consumed before the next call to `escape`, so the shared buffer needs no modelling.
- The `config` fields (radius, factor, printOutLatLonEle) are never read by the emitters, and are left out.
- `addWay` in osc2sql.c writes node references to `ways_nodes`, while `deleteWay` deletes from `way_nodes`. The model keeps both names as written, and `Osc2SqlProps.DeleteTables` states the mismatch.
- `Osc2Sql.Emitter.AddTagValues` calls `escape` once per field into the shared buffer. The model takes each field's escaped text as a fresh value and does not model the aliasing of the buffer.
