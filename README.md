# jts_erd in Dafny

A model of the drawing core of `jts_erd`. It turns a database-schema document
into an entity-relationship diagram: a list of namespaces, each holding tables
with columns, a primary key, unique groups, indexes and foreign keys.

`get_graph` merges the caller's options over `options_defaults` and takes an
inventory of the tables. It then adds:

- one record-shaped node per shown table: a title row, one row per column in
  port order, and an optional "Extra indexes" row;
- one set of edges per foreign key.

With columns displayed, a foreign key is drawn between column rows. A side
with several columns gets a junction node and one undirected connector per
column. One labelled, two-headed summary edge carries the crow's feet. Without
columns, each namespace's distinct (tail table, head table) pairs are drawn as
plain black edges.

The graph object (`pygraphviz.AGraph`) is modelled as the class `Graph.Graph`.
It holds the nodes and edges added to it, in order. Every operation that adds
to it is a method proved against a specification function of its inputs.

Modules:

- `Schema`: the document's records.
- `Text`: `strip`, `join`, `replace`, `str(n)`, `lower`, string order and `sorted`.
- `Config`: the options and their merge.
- `Graph`: the graph class, rows, cells, ports and edges.
- `Ports`: `_get_port`.
- `Crowfoot`: `_get_crowfoot`.
- `Cells`: `_format_attribute`, `_get_column_display` and `_get_table_row_html`.
- `Tables`: `_graph_add_table`.
- `Edges`: `_add_foreign_key_edge`.
- `Inventory`, `Labels` and `Assemble`: the three passes of `get_graph`.
- `Seqs`: facts about sequences that the loops use.

Behaviour of the code worth knowing:

- Two tables of the same (namespace, name) are both accepted: the later one
  overwrites the earlier one in the inventory (`Inventory.LaterTableWins`).
  A foreign key whose tail and referenced column lists differ in length is
  drawn as given.
- The "Extra indexes" row filters indexes on `unique` only, so a primary
  index that is not marked unique is listed (`Tables.ExtraIndexFilter`).
- The row is sorted by its markup (`definition</FONT>`). This order differs
  from the order of the definition texts (`Tables.IndexOrderFollowsMarkup`).
- A default value is shown as `DEFAULT=<value>`. The `[sequence]` rule of
  `_format_attribute` is never applied to it (`Cells.DefaultShownVerbatim`).
- Without columns, table pairs are deduplicated within one namespace only, and
  keyed by table name without namespace (`Assemble.DegradedCoversPairs`).
- The head junction's name is built from the tail column names.
- A missing referenced table raises `KeyError` whether or not columns are
  drawn. The model states this as the precondition `Renderable`.

## Model

| member | source | states |
|---|---|---|
| Config.Merge | jts_erd/jts_erd.py:78-79 | every option the caller passes wins over its default, and every option left out takes its default from `options_defaults` (`LR`, columns, indexes and crow's feet shown, isolated tables kept) |
| Config.MergeExtremes | jts_erd/jts_erd.py:78-79 | no options give exactly `options_defaults`; passing every option gives exactly what was passed |
| Schema.TailColumns | jts_erd/jts_erd.py:124-128 | a bare column name is read as a one-element list; a list is taken as it is |
| Schema.IndexOf | jts_erd/jts_erd.py:489 | `list.index`: a position holding the element, with no earlier occurrence |
| Schema.IndexOfDistinct | jts_erd/jts_erd.py:494-496 | in a duplicate-free list, `index` of the element at position `i` is `i` |
| Schema.ColumnNamed | jts_erd/jts_erd.py:239 | the column found by name is a field of the table carrying that name |
| Schema.ColumnNamedUnique | jts_erd/jts_erd.py:239 | with distinct field names, looking a field up by its name gives back that field |
| Text.LStrip | jts_erd/jts_erd.py:171-172 | the result is a suffix of the input, only whitespace is removed, and it does not start with whitespace |
| Text.RStrip | jts_erd/jts_erd.py:171-172 | the result is a prefix of the input, only whitespace is removed, and it does not end with whitespace |
| Text.StripSplits | jts_erd/jts_erd.py:171-172 | `strip` cuts its input into leading whitespace, the result and trailing whitespace |
| Text.StripKeeps | jts_erd/jts_erd.py:171-172 | a character that is not whitespace survives stripping |
| Text.StripEmptyIff | jts_erd/jts_erd.py:171-172 | stripping leaves nothing exactly when the input is all whitespace |
| Text.StripKeepsInfix | jts_erd/jts_erd.py:171-172 | a piece that neither starts nor ends with whitespace is still a piece of the stripped text |
| Text.LStripKeepsLast | jts_erd/jts_erd.py:171-172 | stripping the front of a text whose last character is not whitespace leaves a non-empty text ending in that character |
| Text.PieceSurvivesStrip | jts_erd/jts_erd.py:171-172 | a piece ending in a non-whitespace character survives stripping of the text around it, from its first non-whitespace character on |
| Text.JoinEmptyIff | jts_erd/jts_erd.py:329 | joining non-empty parts is empty exactly when there are no parts |
| Text.NonEmpty | jts_erd/jts_erd.py:329 | `[v for v in vals if v]` holds exactly the non-empty parts |
| Text.ReplaceNewlines | jts_erd/jts_erd.py:329 | after `replace('\n', '; ')` no line break is left; a text without one is unchanged; the empty text stays empty and only it |
| Text.NatToString | jts_erd/jts_erd.py:317-318 | `str(n)` is a non-empty string of decimal digits that reads back as `n` |
| Text.LexLeTotal | jts_erd/jts_erd.py:259 | Python's string order compares any two strings |
| Text.LexLeCommonPrefix | jts_erd/jts_erd.py:259 | a common prefix does not change the order of two strings |
| Text.InsertSorted | jts_erd/jts_erd.py:259 | inserting into a sorted list keeps it sorted and adds exactly the one element |
| Text.SortBySorted | jts_erd/jts_erd.py:259 | `sorted` returns a sorted permutation of its input |
| Graph.CountDirAppend | jts_erd/jts_erd.py:423-474 | counting edges of one direction distributes over concatenating edge logs |
| Graph.CountDirUniform | jts_erd/jts_erd.py:423-474 | a log whose edges all have direction `d` has as many edges with `d` as it has edges, and none with another direction |
| Graph.Graph.constructor | jts_erd/jts_erd.py:83-92 | a new graph carries the given name, `rankdir` and font, and has no nodes and no edges |
| Graph.Graph.AddNode | jts_erd/jts_erd.py:271-281 | `add_node` appends one node and leaves the edges alone |
| Graph.Graph.AddEdge | jts_erd/jts_erd.py:459-475 | `add_edge` appends one edge and leaves the nodes alone |
| Ports.NonKeyColumns | jts_erd/jts_erd.py:246 | the non-key columns are exactly the fields whose name is not a key column, in field order |
| Ports.NonKeyColumnsDistinct | jts_erd/jts_erd.py:494-495 | filtering out key columns keeps field names distinct |
| Ports.NonKeyNameSet | jts_erd/jts_erd.py:494-495 | the non-key names are the field names minus the key names |
| Ports.GetPort | jts_erd/jts_erd.py:478-496 | a port lies between 1 and the number of key and non-key columns; it is within the key's length exactly for key columns; the column shown at that port is the column asked for |
| Ports.PortCountIsColumnCount | jts_erd/jts_erd.py:478-496 | with well-formed keys, the ports number exactly as many as the fields |
| Ports.FieldHasPort | jts_erd/jts_erd.py:486-496 | every field name has a port: `_get_port` does not raise for it |
| Ports.PortNamesField | jts_erd/jts_erd.py:478-496 | every port in range names a field, and that field's port is the port |
| Ports.PortsBijection | jts_erd/jts_erd.py:478-496 | ports are a bijection from the column names onto 1 to the number of fields, and port and column name undo each other |
| Ports.PortsInjective | jts_erd/jts_erd.py:478-496 | two columns share a port exactly when they are the same column |
| Crowfoot.GetCrowfoot | jts_erd/jts_erd.py:499-520 | the arrow is one of five names; it is not `none` exactly when crow's feet are shown and the cardinality is one of the four tokens |
| Crowfoot.CrowfootDistinguishes | jts_erd/jts_erd.py:512-519 | with crow's feet shown, different tokens get different arrows |
| Crowfoot.CrowfootTable | jts_erd/jts_erd.py:510-520 | `0..1`, `1`, `0..N` and `1..N` give `teeodot`, `teetee`, `crowodot` and `crowtee`; anything else, or nothing, gives `none` |
| Cells.FormatAttribute | jts_erd/jts_erd.py:358-385 | `null` (any case) gives `''` for a truthy value, else struck-through `NULL`; `name` (any case) gives the value in bold; `default` (exact case) gives `[sequence]` for a `nextval(` call, `''` for `None`, else the value; any other type leaves the value as it is |
| Cells.FormatAttributeCase | jts_erd/jts_erd.py:369-378 | `NULL` and `Name` behave like `null` and `name`, but `Default` is not the `default` rule |
| Cells.TagTextIsUniq | jts_erd/jts_erd.py:321 | the text `UNIQ` comes only from the bare tag, so testing the texts is testing the tags |
| Cells.GroupTagsMembership | jts_erd/jts_erd.py:308-318 | a column has the bare tag from the table groups exactly when one group is that column alone; it has `UNIQ<g>:<p>` exactly when it is the `p`-th column of multi-column group `g` |
| Cells.UniqueTagsMembership | jts_erd/jts_erd.py:308-322 | a column carries `UNIQ` exactly when it is unique on its own (column level or a one-column group), and `UNIQ<g>:<p>` exactly as above |
| Cells.CollectUniqueTags | jts_erd/jts_erd.py:308-322 | the loop over the unique groups and the column-level check build exactly the tags of `UniqueTags` |
| Cells.NullMarkerInverted | jts_erd/jts_erd.py:304-307 | a required column gets an empty marker; one whose `required` is false or `null` gets struck-through `NULL`; one without the `required` key gets no marker |
| Cells.CombinedTextShape | jts_erd/jts_erd.py:323-329 | the combined text has no line break and is empty exactly when every component is |
| Cells.DefaultShownVerbatim | jts_erd/jts_erd.py:324-329 | a default value appears as `DEFAULT=<value>` among the combined components |
| Cells.ColumnCells | jts_erd/jts_erd.py:297-332 | at most one text per `display` entry |
| Cells.ColumnCellsKnown | jts_erd/jts_erd.py:297-302 | when every entry is `name`, `type` or `combined`, there is exactly one text per entry, and it is that entry's text at that position |
| Cells.CombinedCell | jts_erd/jts_erd.py:302-331 | the `combined` branch builds the combined text of the column |
| Cells.ColumnDisplay | jts_erd/jts_erd.py:284-332 | the loop of `_get_column_display` returns `ColumnCells` |
| Cells.RowCells | jts_erd/jts_erd.py:343-355 | one cell per text |
| Cells.RowAnchors | jts_erd/jts_erd.py:344-350 | a row offers `f<port>` when it has a cell, `i<port>` when it has two or more, and no anchor of another row |
| Cells.TableRow | jts_erd/jts_erd.py:335-355 | the loop of `_get_table_row_html` builds the row's cells: each text formatted by its display entry, `i<port>` on the first cell, `f<port>` on the last |
| Tables.TitleQualified | jts_erd/jts_erd.py:227-228 | the title is the bare table name exactly in namespace `public`; elsewhere it is `namespace.name` |
| Tables.KeyColumns | jts_erd/jts_erd.py:238-239 | one column per key name, in key order: entry `i` is a field of the table named `primaryKey[i]` |
| Tables.NonUniqueDefinitions | jts_erd/jts_erd.py:254-258 | a definition is listed exactly when some index with it is not unique |
| Tables.BuildColumnRow | jts_erd/jts_erd.py:240-243 | one column's row is its display cells at its port |
| Tables.BuildKeyRows | jts_erd/jts_erd.py:236-243 | the first loop builds exactly the highlighted rows of the key columns, at ports 1 to the key's length |
| Tables.AppendNonKeyRows | jts_erd/jts_erd.py:246-252 | the second loop appends exactly the rows of the other columns, at the ports after the key's |
| Tables.ColumnRowsComplete | jts_erd/jts_erd.py:235-252 | a full prefix of column rows is all of them |
| Tables.BuildColumnRows | jts_erd/jts_erd.py:235-252 | the two loops together build the column rows in port order |
| Tables.BuildTableRows | jts_erd/jts_erd.py:226-266 | the rows are the title, the column rows when columns are shown, and the "Extra indexes" row when it applies |
| Tables.GraphAddTable | jts_erd/jts_erd.py:217-281 | `_graph_add_table` adds exactly the table's node and no edge |
| Tables.ShownColumnAtPort | jts_erd/jts_erd.py:235-252 | in a well-formed table the column shown at `_get_port(c)` is `c` |
| Tables.RowAtPortShowsColumn | jts_erd/jts_erd.py:234-252 | row 0 is the title; one row per field follows it before the extra row; row `_get_port(c)` shows column `c` at that port, highlighted exactly when `c` is a key column |
| Tables.RowAtColumnPort | jts_erd/jts_erd.py:234-252 | the record row at `_get_port(c)` shows column `c` at that port, highlighted exactly when `c` is a key column |
| Tables.ColumnRowAtPort | jts_erd/jts_erd.py:238-252 | the column row at a column's port shows that column |
| Tables.DisplayShowsThreeCells | jts_erd/jts_erd.py:226 | with `display` `['name', 'type', 'combined']`, every column row has three cells |
| Tables.ColumnRowAnchors | jts_erd/jts_erd.py:344-350 | a column row offers the anchors of its own port and no other |
| Tables.ColumnRowsAnchors | jts_erd/jts_erd.py:238-252 | column row `m` offers the anchors of port `m + 1` only, and is highlighted exactly when it shows a key column |
| Tables.AnchorLandsOnRow | jts_erd/jts_erd.py:229-252 | an edge anchored at `i<k>` or `f<k>` lands on row `k` and only there, when `k` is a column's port |
| Tables.KeyRowsHighlighted | jts_erd/jts_erd.py:241-251 | the rows up to the key's length are highlighted and the other column rows are not |
| Tables.ExtraIndexRowContents | jts_erd/jts_erd.py:253-266 | the extra row appears exactly when indexes are shown and some index is not unique; it lists exactly those definitions, with repetitions, sorted by their markup |
| Tables.ExtraIndexFilter | jts_erd/jts_erd.py:254 | a unique index is left out unless a non-unique index shares its definition; a primary index not marked unique is listed |
| Tables.TextOrderExample | jts_erd/jts_erd.py:256-259 | `btree (a)` sorts before `btree (a) WHERE b` as plain text |
| Tables.MarkupOrderExample | jts_erd/jts_erd.py:256-259 | once `</FONT>` follows each definition, the order of those two is reversed |
| Tables.IndexOrderFollowsMarkup | jts_erd/jts_erd.py:256-259 | the row lists `btree (a) WHERE b` before `btree (a)` |
| Edges.Escape | jts_erd/jts_erd.py:403-404 | escaping never shortens a string |
| Edges.StrRepr | jts_erd/jts_erd.py:403-404 | `repr` of a string is at least two longer and enclosed in matching quotes |
| Edges.ListRepr | jts_erd/jts_erd.py:403-404 | `str(list)` is enclosed in brackets |
| Edges.TailConnectors | jts_erd/jts_erd.py:415-424 | one connector per tail column when there are several, none otherwise |
| Edges.HeadConnectors | jts_erd/jts_erd.py:443-452 | one connector per head column when there are several, none otherwise |
| Edges.AddTailConnectors | jts_erd/jts_erd.py:415-424 | the loop adds exactly the tail connectors and no node |
| Edges.AddTailSide | jts_erd/jts_erd.py:402-429 | with several tail columns: the tail junction, then its connectors; returns the summary edge's start (junction with an empty port, or the column's row) |
| Edges.AddHeadConnectors | jts_erd/jts_erd.py:443-452 | the loop adds exactly the head connectors and no node |
| Edges.AddHeadSide | jts_erd/jts_erd.py:430-458 | with several head columns: the head junction, then its connectors; returns the summary edge's end |
| Edges.AddForeignKeyEdge | jts_erd/jts_erd.py:388-475 | `_add_foreign_key_edge` adds exactly the junctions, then the tail connectors, the head connectors and the summary edge |
| Edges.EachConnectorUndirected | jts_erd/jts_erd.py:423-451 | every connector has `dir='none'` |
| Edges.ConnectorsUndirected | jts_erd/jts_erd.py:423-451 | the connectors are all undirected and none is two-headed |
| Edges.FkTopology | jts_erd/jts_erd.py:388-475 | one junction per side with several columns; one connector per column of such a side; exactly one two-headed edge, all others undirected |
| Edges.TailColumnJoined | jts_erd/jts_erd.py:415-424 | edge `i` joins the row of tail column `i` to the tail junction |
| Edges.TailJoinIsColumn | jts_erd/jts_erd.py:402-429 | an edge joining column `c`'s row to the tail junction means `c` is a tail column |
| Edges.TailColumnsReached | jts_erd/jts_erd.py:415-424 | every tail column has its connector |
| Edges.OnlyTailColumnsReached | jts_erd/jts_erd.py:402-429 | only tail columns have a connector |
| Edges.TailSideAnchors | jts_erd/jts_erd.py:402-429 | one tail column: the summary edge starts at that column's port; several: it starts at the junction, and exactly the tail columns are joined to it |
| Edges.EdgeOrigin | jts_erd/jts_erd.py:402-475 | by position, an edge of the log is a tail connector (leaving the tail table), a head connector (entering the head table) or the summary edge |
| Edges.HeadColumnJoined | jts_erd/jts_erd.py:443-452 | the edge after the tail connectors and `i` head connectors joins the head junction to head column `i` |
| Edges.HeadJoinIsColumn | jts_erd/jts_erd.py:430-458 | an edge joining the head junction to column `c`'s row means `c` is a head column |
| Edges.HeadColumnsReached | jts_erd/jts_erd.py:443-452 | every head column has its connector |
| Edges.OnlyHeadColumnsReached | jts_erd/jts_erd.py:430-458 | only head columns have a connector |
| Edges.HeadSideAnchors | jts_erd/jts_erd.py:430-463 | one head column: the summary edge ends at that column's port; several: it ends at the junction, and exactly the head columns are joined to it |
| Edges.JunctionNamesDiffer | jts_erd/jts_erd.py:403-404 | the two junction names of a foreign key differ from each other and from both table names |
| Inventory.TableEndpointsIff | jts_erd/jts_erd.py:101-106 | one table's foreign keys mark the table itself (when it has one) and every referenced table, and nothing else |
| Inventory.EndpointsInIff | jts_erd/jts_erd.py:99-106 | one namespace marks exactly the tables some of its tables touch |
| Inventory.EndpointsIff | jts_erd/jts_erd.py:94-106 | a table is in `tables_with_edges` exactly when some table of some namespace has a foreign key from or to it |
| Inventory.PresentInKeys | jts_erd/jts_erd.py:99-100 | one namespace adds exactly its tables' keys, each mapped to a table listed under that name |
| Inventory.PresentKeys | jts_erd/jts_erd.py:94-100 | a key is present exactly when some namespace lists that table, and the table recorded under it is one listed under that name |
| Inventory.LaterTableWins | jts_erd/jts_erd.py:100 | the last table listed under a name is the one recorded |
| Inventory.MarkForeignKeys | jts_erd/jts_erd.py:101-106 | the foreign-key loop adds exactly the table's endpoints |
| Inventory.InventoryNamespace | jts_erd/jts_erd.py:98-106 | one namespace's pass updates both collections by that namespace's tables |
| Inventory.BuildInventory | jts_erd/jts_erd.py:94-106 | the inventory loop builds exactly `present_tables` and `tables_with_edges` |
| Labels.CardinalityShowsArrow | jts_erd/jts_erd.py:138-171 | a truthy cardinality puts the arrow in the label, whatever label or name is appended |
| Labels.ArrowShowsCardinality | jts_erd/jts_erd.py:138-171 | when the appended label or name holds no arrow, the label shows the arrow exactly when a cardinality is truthy |
| Labels.TooltipShowsArrow | jts_erd/jts_erd.py:147-172 | the tooltip always contains the arrow |
| Labels.TooltipEndsInOrder | jts_erd/jts_erd.py:155-172 | outside `RL`, the tooltip contains `tail(cols) ↔ head(cols)`: whole when the tail name does not start with whitespace, and from its first non-whitespace character on in any case |
| Labels.TooltipEndsReversed | jts_erd/jts_erd.py:147-172 | under `RL`, the tooltip contains `head(cols) ↔ tail(cols)`: whole when the head name does not start with whitespace, and from its first non-whitespace character on in any case |
| Labels.RankdirSwapsCardinalities | jts_erd/jts_erd.py:140-144 | under `RL` the label is the `LR` label with the two cardinalities swapped |
| Labels.LabelBeatsName | jts_erd/jts_erd.py:163-171 | a truthy `label` goes on its own line, and the reference's `name` is then ignored |
| Labels.EmptyLabelIff | jts_erd/jts_erd.py:138-171 | the label is empty exactly when no cardinality is truthy and the appended label or name is blank |
| Assemble.EdgeColor | jts_erd/jts_erd.py:136-137 | black exactly when the foreign key is enforced and blue otherwise; a missing `enforced` key gives black, and `enforced: null` gives blue |
| Assemble.FkArgsOf | jts_erd/jts_erd.py:120-188 | one `_add_foreign_key_edge` call per foreign key of the table |
| Assemble.TableNodesInStep | jts_erd/jts_erd.py:111-114 | one more table adds its node, if shown, after the nodes of the tables before it |
| Assemble.TableNodesStep | jts_erd/jts_erd.py:109-114 | one more namespace adds its nodes after those of the namespaces before it |
| Assemble.AddNamespaceTables | jts_erd/jts_erd.py:110-114 | one namespace adds exactly its shown tables' nodes, in listing order, and no edge |
| Assemble.AddTableNodes | jts_erd/jts_erd.py:108-114 | the table-node loop adds exactly the shown tables' nodes and no edge |
| Assemble.DrawTableForeignKeys | jts_erd/jts_erd.py:120-188 | with columns shown, a table's foreign keys add exactly the junctions and edges of their calls, in order |
| Assemble.CollectTablePairs | jts_erd/jts_erd.py:122-190 | without columns, a table's foreign keys add exactly their (tail, head) name pairs to `table_edges` |
| Assemble.ListingStep | jts_erd/jts_erd.py:192-197 | drawing one more remaining pair extends a plain listing of the pairs drawn so far |
| Assemble.AddPlainEdges | jts_erd/jts_erd.py:192-197 | each collected pair is drawn exactly once as a plain black edge, in some order, after the edges already there |
| Assemble.EdgesInStep | jts_erd/jts_erd.py:120-188 | one more table adds its foreign keys' edges and junctions after those of the tables before it |
| Assemble.AllEdgesStep | jts_erd/jts_erd.py:117-188 | one more namespace adds its edges and junctions after those of the namespaces before it |
| Assemble.DrawNamespaceForeignKeys | jts_erd/jts_erd.py:117-188 | with columns shown, a namespace adds exactly its tables' junctions and edges, in order |
| Assemble.CollectNamespacePairs | jts_erd/jts_erd.py:119-190 | without columns, `table_edges` for a namespace is exactly its tables' pairs |
| Assemble.DegradedLogStep | jts_erd/jts_erd.py:117-197 | one more namespace's listing extends the edge log |
| Assemble.DrawAllForeignKeys | jts_erd/jts_erd.py:116-188 | with columns shown, the foreign-key loop adds exactly every call's junctions and edges, namespace by namespace |
| Assemble.AddDegradedEdges | jts_erd/jts_erd.py:116-197 | without columns, the loop adds no node, and per namespace lists its pairs as plain edges |
| Assemble.DrawDocument | jts_erd/jts_erd.py:80-198 | the graph is named after the database and time; its nodes are the shown tables' then the junctions; its edges are every call's edges, or without columns the per-namespace listings |
| Assemble.GetGraph | jts_erd/jts_erd.py:72-198 | `get_graph` draws the document with the caller's options merged over the defaults |
| Assemble.ShownIff | jts_erd/jts_erd.py:112-113 | a table is shown exactly when isolated tables are kept or some foreign key of the document starts or ends at it |
| Assemble.TableNodesInIff | jts_erd/jts_erd.py:110-114 | a namespace's nodes are exactly its shown tables' nodes |
| Assemble.TableNodesIff | jts_erd/jts_erd.py:108-114 | the table nodes are exactly the nodes of the shown tables |
| Assemble.EveryTableShown | jts_erd/jts_erd.py:113 | when isolated tables are kept, every table gets a node |
| Assemble.EdgesOfSummaries | jts_erd/jts_erd.py:123-188 | a sequence of calls yields one two-headed edge per call |
| Assemble.EdgesInSummaries | jts_erd/jts_erd.py:120-188 | a namespace's tables yield one two-headed edge per foreign key |
| Assemble.OneSummaryPerKey | jts_erd/jts_erd.py:116-188 | with columns shown, each foreign key of the document yields exactly one two-headed edge |
| Assemble.TablePairsIff | jts_erd/jts_erd.py:122-190 | a table's pairs are exactly (its name, the referenced table's name) over its foreign keys |
| Assemble.NamespacePairsIff | jts_erd/jts_erd.py:119-190 | `table_edges` holds a pair exactly when some table of the namespace has a foreign key into a table of that name |
| Assemble.DegradedEdgesPlain | jts_erd/jts_erd.py:191-197 | without columns, every edge is a plain black edge whose pair a foreign key of one namespace joins |
| Assemble.DegradedCoversPairs | jts_erd/jts_erd.py:189-197 | without columns, every pair some namespace collects is drawn |

## Left out

- Rendering markup: the HTML of rows and cells is modelled as `Row` and `Cell` values. Colours become the `highlight` flag, and font sizes, alignment and `COLSPAN` are not recorded. The node's HTML wrapper, style, colour, shape and font are not recorded.
- `textwrap.wrap(text, width=50)`: the model's combined cell is the text before wrapping. Wrapping changes more than where lines break:
  - it expands tabs;
  - it turns each of `\t \n \v \f \r` into a space;
  - it drops whitespace at line breaks and at the end of the text;
  - it splits words longer than 50 characters;
  - it turns an all-whitespace combined text into no line at all.
  So a column whose only combined component is a whitespace-only description shows an empty cell in the source, but a non-empty `CombinedText` in the model. `Cells.CombinedTextShape` describes the text before wrapping.
- Graph attributes `strict`, `directed`, `splines` and `overlap` are not recorded. Junction attributes `label`, `style`, `color`, `arrowtail`, `arrowhead` and `shape` are not recorded either. The summary edge's `fontname`, `fontsize`, `fontcolor` and `labeltooltip` are not recorded; `labeltooltip` equals the recorded `tooltip`.
- `Graph.Graph.AddNode`: logs every `add_node` call. A second node of the same name is not merged into the first, as `pygraphviz` would merge it. Likewise, adding an edge to a node name that was never added does not create that node.
- `save_svg`, layout and drawing: file output and the Graphviz layout are left out.
- `Edges.Escape`: escapes only backslash, the quote, `\n`, `\r` and `\t`. Python's `repr` also escapes other non-printable characters as `\x..` or `\u....`.
- `Edges.StrRepr` and `Edges.ListRepr`: their contracts state the quotes and brackets and a length bound, not the full text `repr` produces. The junction names are built from them, and `Edges.JunctionNamesDiffer` states what the model needs.
- `Flag` values: `required` and `enforced` are modelled as missing, `null` or a boolean. A string or number there would be read by its truthiness in the source, and the model does not represent it.
- `Text.LowerAscii`: lower-cases ASCII letters only. This is exact for the comparisons against `null`, `name` and `nextval(`.
- Python exceptions are preconditions rather than modelled error results. A missing referenced table (`KeyError`) gives `Resolvable`. A key column that is no field (`IndexError`) gives `KeysInFields`. A column without a port (`ValueError`) gives `Drawable`. A boolean default under `default` gives the precondition of `Cells.FormatAttribute`. They are gathered in `Renderable`. The source raises in these cases and returns no graph, so no partial result is lost.
- Missing top-level keys (`database_name`, `generation_begin_time`, `datapackages`) are not modelled: a `Document` always has them. Optional table keys that the code treats as empty (`primaryKey`, `unique`, `indexes`, `foreignKeys`, `description`) are empty values.
- Input shapes the types cannot hold:
  - a bare-string `primaryKey`, which the source iterates character by character (jts_erd.py:237-243), and for which `not in pk` (jts_erd.py:246, 494-495) is a substring test: `primaryKey` is a list of names;
  - a bare-string unique-group `fields`, for which `in` and `.index` (jts_erd.py:312-313) test substrings: `fields` is a list of names;
  - a bare-string referenced `fields`: only the tail's bare string becomes a one-element list (jts_erd.py:125-128), while the referenced `fields` is used as given (jts_erd.py:132), so a string of two or more characters gets a head junction with one `_get_port` call per character (jts_erd.py:430-452), which raises `ValueError` unless columns of those one-character names exist, and `', '.join` in the tooltip (jts_erd.py:151, 161) separates its characters: a reference's `fields` is a list of names;
  - a `default_value` of `null`, for which `'DEFAULT=' + None` (jts_erd.py:324) raises `TypeError`: a default is a string or absent.
- `Assemble.AddPlainEdges`: iteration order over the Python set `table_edges` is left open. The contract states that each pair is drawn exactly once, in some order.
- The foreign-key loop of `get_graph` tests `display_columns` for each key. The model splits it into one loop per mode (`Assemble.DrawAllForeignKeys` and `Assemble.AddDegradedEdges`), and the label and tooltip are built only where they are used. The `KeyError` of the head-table lookup, raised in both modes, stays in `Renderable`.
