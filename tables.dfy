/** The record node of one table (`_graph_add_table`): a title row, one row
    per column in port order when columns are shown, and an optional row
    listing the extra (non-unique) indexes. */
module Tables {
  import opened Schema
  import opened Text
  import opened Config
  import opened Graph
  import opened Ports
  import opened Cells
  import opened Seqs

  /** The namespace whose tables are titled without a prefix. */
  const DefaultNamespace: string := "public"

  /** The cells every column row shows. */
  const Display: seq<string> := ["name", "type", "combined"]

  /** What follows every index definition in the markup that is sorted. */
  const FontClose: string := "</FONT>"

  function Title(namespace: string, tableName: string): string {
    (if namespace != DefaultNamespace then namespace + "." else "") + tableName
  }

  /** The title is the bare table name exactly in the default namespace. */
  lemma TitleQualified(namespace: string, tableName: string)
    ensures Title(namespace, tableName) == tableName <==> namespace == DefaultNamespace
    ensures namespace != DefaultNamespace ==> Title(namespace, tableName) == namespace + "." + tableName
  {
    if namespace != DefaultNamespace {
      assert |Title(namespace, tableName)| > |tableName|;
    }
  }

  /** `_graph_add_table` raises `IndexError` unless every key column is a field. */
  predicate KeysInFields(t: Table) {
    forall c :: c in t.primaryKey ==> c in ColumnNames(t.fields)
  }

  /** The row showing `column` at port `port`. */
  function ColumnRowOf(t: Table, column: Column, port: nat, highlight: bool): Row {
    ColumnRow(RowCells(Display, port, ColumnCells(Display, t, column)), highlight)
  }

  /** The key columns, in key order. */
  function KeyColumns(t: Table): (r: seq<Column>)
    requires KeysInFields(t)
    ensures |r| == |t.primaryKey|
    ensures forall i :: 0 <= i < |r| ==> r[i] in t.fields && r[i].name == t.primaryKey[i]
  {
    seq(|t.primaryKey|, i requires 0 <= i < |t.primaryKey| => ColumnNamed(t.fields, t.primaryKey[i]))
  }

  /** The columns in the order their rows appear: key columns first. */
  function ShownColumns(t: Table): seq<Column>
    requires KeysInFields(t)
  {
    KeyColumns(t) + NonKeyColumns(t.fields, t.primaryKey)
  }

  /** The column rows of the record: row `k + 1` shows the `k`-th shown
      column at port `k + 1`, highlighted exactly when it is a key column. */
  function ColumnRows(t: Table): (rows: seq<Row>)
    requires KeysInFields(t)
    ensures |rows| == |ShownColumns(t)|
  {
    var shown := ShownColumns(t);
    seq(|shown|, k requires 0 <= k < |shown| => ColumnRowOf(t, shown[k], k + 1, k < |t.primaryKey|))
  }

  /** The definitions of the indexes not marked unique, in index order. */
  function NonUniqueDefinitions(indexes: seq<Index>): (defs: seq<string>)
    ensures forall d :: d in defs <==> exists ix :: ix in indexes && !ix.unique && ix.definition == d
  {
    if indexes == [] then []
    else
      var init := indexes[..|indexes| - 1];
      var last := indexes[|indexes| - 1];
      assert indexes == init + [last];
      NonUniqueDefinitions(init) + (if last.unique then [] else [last.definition])
  }

  /** The "Extra indexes" row: shown only when indexes are displayed and
      some index is not unique; it lists those definitions in the order of
      their markup, which is each definition followed by `</FONT>`. */
  function ExtraIndexRows(opt: Options, t: Table): seq<Row> {
    var defs := NonUniqueDefinitions(t.indexes);
    if opt.displayIndexes && defs != [] then [IndexRow(SortBy(defs, FontClose))] else []
  }

  function TableRows(opt: Options, namespace: string, t: Table): seq<Row>
    requires opt.displayColumns ==> KeysInFields(t)
  {
    [TitleRow(Title(namespace, t.name), t.description)]
      + (if opt.displayColumns then ColumnRows(t) else [])
      + ExtraIndexRows(opt, t)
  }

  function TableTooltip(t: Table): string {
    if t.description != "" then t.description else "Table " + t.name
  }

  /** The node `_graph_add_table` adds. */
  function TableNodeOf(opt: Options, namespace: string, t: Table): Node
    requires opt.displayColumns ==> KeysInFields(t)
  {
    TableNode(t.name, TableRows(opt, namespace, t), TableTooltip(t))
  }

  /** One column's row: its display cells, then the row markup. */
  method BuildColumnRow(t: Table, column: Column, port: nat, highlight: bool) returns (row: Row)
    ensures row == ColumnRowOf(t, column, port, highlight)
  {
    var cells := ColumnDisplay(Display, t, column);
    row := TableRow(Display, port, cells, highlight);
  }

  /** `rows` are the first `|rows|` column rows of the record. */
  predicate ColumnRowsPrefix(t: Table, rows: seq<Row>)
    requires KeysInFields(t)
  {
    && |rows| <= |ShownColumns(t)|
    && forall m :: 0 <= m < |rows| ==>
         rows[m] == ColumnRowOf(t, ShownColumns(t)[m], m + 1, m < |t.primaryKey|)
  }

  /** The first loop of `_graph_add_table`: the key columns' rows. */
  method BuildKeyRows(t: Table) returns (rows: seq<Row>)
    requires KeysInFields(t)
    ensures |rows| == |t.primaryKey| && ColumnRowsPrefix(t, rows)
  {
    var pk := t.primaryKey;
    ghost var shown := ShownColumns(t);
    rows := [];
    var i := 0;
    while i < |pk|
      invariant 0 <= i <= |pk| && |rows| == i
      invariant forall m :: 0 <= m < |rows| ==> rows[m] == ColumnRowOf(t, shown[m], m + 1, m < |pk|)
    {
      var column := ColumnNamed(t.fields, pk[i]);
      var row := BuildColumnRow(t, column, i + 1, true);
      forall m | 0 <= m < |rows| + 1
        ensures (rows + [row])[m] == ColumnRowOf(t, shown[m], m + 1, m < |pk|)
      {
        if m == |rows| {
          assert column == shown[m];
        }
      }
      rows := rows + [row];
      i := i + 1;
    }
  }

  /** The second loop: the other columns' rows, appended to the key
      columns' rows. */
  method AppendNonKeyRows(t: Table, keyRows: seq<Row>) returns (rows: seq<Row>)
    requires KeysInFields(t)
    requires |keyRows| == |t.primaryKey| && ColumnRowsPrefix(t, keyRows)
    ensures |rows| == |ShownColumns(t)| && ColumnRowsPrefix(t, rows)
  {
    var pk := t.primaryKey;
    ghost var shown := ShownColumns(t);
    rows := keyRows;
    var columns := NonKeyColumns(t.fields, pk);
    var j := 0;
    while j < |columns|
      invariant 0 <= j <= |columns| && |rows| == |pk| + j && |shown| == |pk| + |columns|
      invariant forall m :: 0 <= m < |rows| ==> rows[m] == ColumnRowOf(t, shown[m], m + 1, m < |pk|)
    {
      var row := BuildColumnRow(t, columns[j], j + |pk| + 1, false);
      forall m | 0 <= m < |rows| + 1
        ensures (rows + [row])[m] == ColumnRowOf(t, shown[m], m + 1, m < |pk|)
      {
        if m == |rows| {
          assert columns[j] == shown[m];
        }
      }
      rows := rows + [row];
      j := j + 1;
    }
  }

  /** A full prefix is all of the column rows. */
  lemma ColumnRowsComplete(t: Table, rows: seq<Row>)
    requires KeysInFields(t)
    requires |rows| == |ShownColumns(t)| && ColumnRowsPrefix(t, rows)
    ensures rows == ColumnRows(t)
  {
    forall m | 0 <= m < |rows|
      ensures rows[m] == ColumnRows(t)[m]
    {
      ColumnRowIndex(t, m);
    }
  }

  /** The column rows `_graph_add_table` builds: the key columns' rows, then
      the others', appended to one list. */
  method BuildColumnRows(t: Table) returns (rows: seq<Row>)
    requires KeysInFields(t)
    ensures rows == ColumnRows(t)
  {
    var keyRows := BuildKeyRows(t);
    rows := AppendNonKeyRows(t, keyRows);
    ColumnRowsComplete(t, rows);
  }

  /** The label rows `_graph_add_table` builds, row by row. */
  method BuildTableRows(opt: Options, namespace: string, t: Table) returns (rows: seq<Row>)
    requires opt.displayColumns ==> KeysInFields(t)
    ensures rows == TableRows(opt, namespace, t)
  {
    rows := [TitleRow(Title(namespace, t.name), t.description)];
    if opt.displayColumns {
      var columnRows := BuildColumnRows(t);
      rows := rows + columnRows;
    }
    if opt.displayIndexes {
      var defs := NonUniqueDefinitions(t.indexes);
      if defs != [] {
        rows := rows + [IndexRow(SortBy(defs, FontClose))];
      }
    }
  }

  /** `_graph_add_table(opt, graph, namespace_name, table)`. */
  method GraphAddTable(opt: Options, g: Graph, namespace: string, t: Table)
    requires opt.displayColumns ==> KeysInFields(t)
    modifies g
    ensures g.nodes == old(g.nodes) + [TableNodeOf(opt, namespace, t)]
    ensures g.edges == old(g.edges)
  {
    var rows := BuildTableRows(opt, namespace, t);
    g.AddNode(TableNode(t.name, rows, TableTooltip(t)));
  }

  /** In a well-formed table the column shown on row `GetPort(t, c)` is
      `c` itself. */
  lemma ShownColumnAtPort(t: Table, c: Column)
    requires WellFormedKeys(t) && c in t.fields
    ensures HasPort(t, c.name) && 1 <= GetPort(t, c.name) <= |ShownColumns(t)|
    ensures ShownColumns(t)[GetPort(t, c.name) - 1] == c
  {
    PortsBijection(t);
    NameOfField(t.fields, c);
    ColumnNamedUnique(t.fields, c);
    var pk := t.primaryKey;
    var nk := NonKeyColumns(t.fields, pk);
    var shown := ShownColumns(t);
    var p := GetPort(t, c.name);
    if c.name in pk {
      assert shown[p - 1] == ColumnNamed(t.fields, pk[p - 1]);
    } else {
      var j := p - |pk| - 1;
      assert shown[p - 1] == nk[j];
      NonKeyColumnsDistinct(t.fields, pk);
      assert nk[j].name == c.name;
      assert nk[j] in t.fields;
      ColumnNamedUnique(t.fields, nk[j]);
    }
  }

  lemma TableRowsSplit(opt: Options, namespace: string, t: Table)
    requires opt.displayColumns && KeysInFields(t)
    ensures TableRows(opt, namespace, t) ==
      [TitleRow(Title(namespace, t.name), t.description)] + ColumnRows(t) + ExtraIndexRows(opt, t)
  {
  }

  /** Every column of a well-formed table is drawn on the row its port
      names: row `GetPort(t, c)` holds exactly that column's cells, at that
      port, highlighted exactly when the column is a key column. Row 0 is
      the title and the columns fill rows 1 to `|fields|`. */
  lemma RowAtPortShowsColumn(opt: Options, namespace: string, t: Table)
    requires opt.displayColumns && WellFormedKeys(t)
    ensures |TableRows(opt, namespace, t)| == 1 + |t.fields| + |ExtraIndexRows(opt, t)|
    ensures TableRows(opt, namespace, t)[0] == TitleRow(Title(namespace, t.name), t.description)
    ensures forall c :: c in t.fields ==>
      && HasPort(t, c.name)
      && GetPort(t, c.name) <= |t.fields|
      && TableRows(opt, namespace, t)[GetPort(t, c.name)] ==
           ColumnRowOf(t, c, GetPort(t, c.name), c.name in t.primaryKey)
  {
    PortCountIsColumnCount(t);
    TableRowsSplit(opt, namespace, t);
    RecordIndex(TitleRow(Title(namespace, t.name), t.description), ColumnRows(t), ExtraIndexRows(opt, t), 0);
    forall c | c in t.fields
      ensures HasPort(t, c.name) && GetPort(t, c.name) <= |t.fields|
      ensures TableRows(opt, namespace, t)[GetPort(t, c.name)] ==
        ColumnRowOf(t, c, GetPort(t, c.name), c.name in t.primaryKey)
    {
      RowAtColumnPort(opt, namespace, t, c);
    }
  }

  /** Row `GetPort(t, c)` of the record shows column `c`. */
  lemma RowAtColumnPort(opt: Options, namespace: string, t: Table, c: Column)
    requires opt.displayColumns && WellFormedKeys(t) && c in t.fields
    ensures HasPort(t, c.name) && GetPort(t, c.name) <= |t.fields|
    ensures TableRows(opt, namespace, t)[GetPort(t, c.name)] ==
      ColumnRowOf(t, c, GetPort(t, c.name), c.name in t.primaryKey)
  {
    ShownColumnAtPort(t, c);
    PortCountIsColumnCount(t);
    var p := GetPort(t, c.name);
    TableRowAt(opt, namespace, t, p);
    ColumnRowIndex(t, p - 1);
    assert ShownColumns(t)[p - 1] == c;
  }

  /** Record row `j`, for `1 <= j <=` the number of column rows, is column
      row `j - 1`. */
  lemma TableRowAt(opt: Options, namespace: string, t: Table, j: nat)
    requires opt.displayColumns && KeysInFields(t) && 1 <= j <= |ColumnRows(t)|
    ensures j < |TableRows(opt, namespace, t)| && TableRows(opt, namespace, t)[j] == ColumnRows(t)[j - 1]
  {
    TableRowsSplit(opt, namespace, t);
    RecordIndex(TitleRow(Title(namespace, t.name), t.description), ColumnRows(t), ExtraIndexRows(opt, t), j);
  }

  /** The column row at a column's port shows that column. */
  lemma ColumnRowAtPort(t: Table, c: Column)
    requires WellFormedKeys(t) && c in t.fields
    ensures HasPort(t, c.name) && 1 <= GetPort(t, c.name) <= |ColumnRows(t)|
    ensures ColumnRows(t)[GetPort(t, c.name) - 1] == ColumnRowOf(t, c, GetPort(t, c.name), c.name in t.primaryKey)
  {
    ShownColumnAtPort(t, c);
    var p := GetPort(t, c.name);
    var m := p - 1;
    ColumnRowIndex(t, m);
    assert ShownColumns(t)[m] == c;
  }

  lemma ColumnRowIndex(t: Table, m: nat)
    requires KeysInFields(t) && m < |ColumnRows(t)|
    ensures ColumnRows(t)[m] == ColumnRowOf(t, ShownColumns(t)[m], m + 1, m < |t.primaryKey|)
  {
  }

  lemma DisplayShowsThreeCells(t: Table, column: Column)
    ensures |ColumnCells(Display, t, column)| == 3
  {
    assert forall i :: 0 <= i < |Display| ==> KnownDisplay(Display[i]);
    ColumnCellsKnown(Display, t, column);
  }

  /** A column row offers the anchors of its own port and no other. */
  lemma ColumnRowAnchors(t: Table, column: Column, port: nat, highlight: bool, p: PortPrefix, k: nat)
    ensures (exists i :: 0 <= i < |ColumnRowOf(t, column, port, highlight).cells| &&
               ColumnRowOf(t, column, port, highlight).cells[i].port == Some(Port(p, k)))
      <==> k == port
  {
    var values := ColumnCells(Display, t, column);
    DisplayShowsThreeCells(t, column);
    assert ColumnRowOf(t, column, port, highlight).cells == RowCells(Display, port, values);
    RowAnchors(Display, port, values, p, k);
  }

  /** Column row `m` offers the anchors of port `m + 1` and no other, and is
      highlighted exactly when it shows a key column. */
  lemma ColumnRowsAnchors(t: Table, p: PortPrefix, k: nat, m: nat)
    requires KeysInFields(t) && m < |ColumnRows(t)|
    ensures ColumnRows(t)[m].ColumnRow?
    ensures ColumnRows(t)[m].highlight <==> m < |t.primaryKey|
    ensures (exists i :: 0 <= i < |ColumnRows(t)[m].cells| && ColumnRows(t)[m].cells[i].port == Some(Port(p, k)))
      <==> k == m + 1
  {
    ColumnRowIndex(t, m);
    ColumnRowAnchors(t, ShownColumns(t)[m], m + 1, m < |t.primaryKey|, p, k);
  }

  /** An edge anchored at port `i<k>` or `f<k>` lands on row `k` and on no
      other row: in a well-formed table with columns shown, row `j` offers
      that anchor exactly when `j == k` and `k` is a column's port. */
  lemma AnchorLandsOnRow(opt: Options, namespace: string, t: Table, p: PortPrefix, k: nat, j: nat)
    requires opt.displayColumns && WellFormedKeys(t)
    requires j < |TableRows(opt, namespace, t)|
    ensures (TableRows(opt, namespace, t)[j].ColumnRow? &&
             exists i :: 0 <= i < |TableRows(opt, namespace, t)[j].cells| &&
               TableRows(opt, namespace, t)[j].cells[i].port == Some(Port(p, k)))
      <==> (j == k && 1 <= k <= |t.fields|)
  {
    PortCountIsColumnCount(t);
    TableRowsSplit(opt, namespace, t);
    RecordIndex(TitleRow(Title(namespace, t.name), t.description), ColumnRows(t), ExtraIndexRows(opt, t), j);
    if 1 <= j <= |t.fields| {
      ColumnRowsAnchors(t, p, k, j - 1);
    }
  }

  /** Key rows are highlighted and the other column rows are not. */
  lemma KeyRowsHighlighted(opt: Options, namespace: string, t: Table, j: nat)
    requires opt.displayColumns && WellFormedKeys(t) && 1 <= j <= |t.fields|
    ensures j < |TableRows(opt, namespace, t)|
    ensures TableRows(opt, namespace, t)[j].ColumnRow?
    ensures TableRows(opt, namespace, t)[j].highlight <==> j <= |t.primaryKey|
  {
    PortCountIsColumnCount(t);
    TableRowsSplit(opt, namespace, t);
    RecordIndex(TitleRow(Title(namespace, t.name), t.description), ColumnRows(t), ExtraIndexRows(opt, t), j);
    ColumnRowsAnchors(t, I, 0, j - 1);
  }

  /** The extra-indexes row appears exactly when indexes are displayed and
      some index lacks `unique`; it then lists exactly those definitions
      (with their repetitions), sorted by their markup. */
  lemma ExtraIndexRowContents(opt: Options, t: Table)
    ensures ExtraIndexRows(opt, t) != [] <==>
      opt.displayIndexes && exists ix :: ix in t.indexes && !ix.unique
    ensures ExtraIndexRows(opt, t) != [] ==>
      && ExtraIndexRows(opt, t) == [IndexRow(ExtraIndexRows(opt, t)[0].definitions)]
      && SortedBy(ExtraIndexRows(opt, t)[0].definitions, FontClose)
      && multiset(ExtraIndexRows(opt, t)[0].definitions) == multiset(NonUniqueDefinitions(t.indexes))
  {
    var defs := NonUniqueDefinitions(t.indexes);
    SortBySorted(defs, FontClose);
    if exists ix :: ix in t.indexes && !ix.unique {
      var ix :| ix in t.indexes && !ix.unique;
      assert ix.definition in defs;
    }
    if defs != [] {
      assert defs[0] in defs;
    }
  }

  /** A unique index is left out of the row unless a non-unique index has
      the same definition; a primary index that is not marked unique is
      listed, since only `unique` is tested. */
  lemma ExtraIndexFilter(indexes: seq<Index>, ix: Index)
    requires ix in indexes
    ensures ix.unique && (forall other :: other in indexes && !other.unique ==> other.definition != ix.definition)
      ==> ix.definition !in NonUniqueDefinitions(indexes)
    ensures ix.primary && !ix.unique ==> ix.definition in NonUniqueDefinitions(indexes)
  {
  }

  /** Two definitions, one extending the other with a space. */
  const ShortDefinition: string := "btree (a)"
  const LongDefinition: string := "btree (a) WHERE b"

  /** In text order the shorter definition comes first. */
  lemma TextOrderExample()
    ensures LexLe(ShortDefinition, LongDefinition)
  {
    assert LongDefinition == ShortDefinition + " WHERE b";
    assert ShortDefinition + "" == ShortDefinition;
    LexLeCommonPrefix(ShortDefinition, "", " WHERE b");
  }

  /** In markup order the longer one comes first, because a space sorts
      before the `<` that closes the shorter one. */
  lemma MarkupOrderExample()
    ensures KeyLe(LongDefinition, ShortDefinition, FontClose)
    ensures !KeyLe(ShortDefinition, LongDefinition, FontClose)
  {
    assert LongDefinition + FontClose == ShortDefinition + " WHERE b</FONT>";
    assert ShortDefinition + FontClose == ShortDefinition + "</FONT>";
    LexLeCommonPrefix(ShortDefinition, " WHERE b</FONT>", "</FONT>");
    LexLeCommonPrefix(ShortDefinition, "</FONT>", " WHERE b</FONT>");
  }

  /** The row is ordered by markup, not by definition text. */
  lemma IndexOrderFollowsMarkup()
    ensures SortBy([ShortDefinition, LongDefinition], FontClose) == [LongDefinition, ShortDefinition]
  {
    var shorter := ShortDefinition;
    var longer := LongDefinition;
    MarkupOrderExample();
    assert [shorter, longer][..1] == [shorter];
    assert SortBy([shorter], FontClose) == [shorter] by {
      assert [shorter][..0] == [];
    }
    assert SortBy([shorter, longer], FontClose) == Insert(longer, [shorter], FontClose);
  }
}
