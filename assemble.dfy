/** `get_graph`: merge the options, take the inventory, add a node per shown
    table, then the foreign-key edges, namespace by namespace. With columns
    displayed each foreign key is drawn between column rows by
    `_add_foreign_key_edge`; without, each namespace's (tail, head) table
    pairs are collected in a set and drawn once each as plain black edges. */
module Assemble {
  import opened Schema
  import opened Config
  import opened Graph
  import opened Tables
  import opened Edges
  import opened Inventory
  import opened Labels
  import opened Seqs

  /** `'Postgres database %s (as of %s)'`. */
  function GraphName(doc: Document): string {
    "Postgres database " + doc.databaseName + " (as of " + doc.generationBeginTime + ")"
  }

  /** A table gets a node unless isolated tables are omitted and it has no
      edge. */
  predicate Shown(opt: Options, ends: set<TableKey>, ns: string, t: Table) {
    !opt.omitIsolatedTables || (ns, t.name) in ends
  }

  /** `_graph_add_table` raises on a primary key naming no field, but only
      when it lists the columns. */
  predicate NodesDrawable(opt: Options, ends: set<TableKey>, ns: string, ts: seq<Table>) {
    opt.displayColumns ==> forall t :: t in ts && Shown(opt, ends, ns, t) ==> KeysInFields(t)
  }

  predicate AllNodesDrawable(opt: Options, ends: set<TableKey>, nss: seq<Namespace>) {
    forall n :: n in nss ==> NodesDrawable(opt, ends, n.datapackage, n.resources)
  }

  /** The table nodes one namespace contributes, in listing order. */
  function TableNodesIn(opt: Options, ends: set<TableKey>, ns: string, ts: seq<Table>): seq<Node>
    requires NodesDrawable(opt, ends, ns, ts)
  {
    if ts == [] then []
    else
      var last := ts[|ts| - 1];
      TableNodesIn(opt, ends, ns, ts[..|ts| - 1])
        + (if Shown(opt, ends, ns, last) then [TableNodeOf(opt, ns, last)] else [])
  }

  function TableNodes(opt: Options, ends: set<TableKey>, nss: seq<Namespace>): seq<Node>
    requires AllNodesDrawable(opt, ends, nss)
  {
    if nss == [] then []
    else
      var last := nss[|nss| - 1];
      TableNodes(opt, ends, nss[..|nss| - 1]) + TableNodesIn(opt, ends, last.datapackage, last.resources)
  }

  /** `'black' if foreign_key.get('enforced', True) else 'blue'`. */
  function EdgeColor(fk: ForeignKey): (color: string)
    ensures color == "black" <==> Enforced(fk)
    ensures !Enforced(fk) ==> color == "blue"
    ensures fk.enforced.Missing? ==> color == "black"
    ensures fk.enforced == JsonNull ==> color == "blue"
  {
    if Enforced(fk) then "black" else "blue"
  }

  /** Every referenced table is present: `present_tables[...]` raises
      `KeyError` otherwise, whether or not columns are shown. */
  predicate ResolvableFks(present: map<TableKey, Table>, fks: seq<ForeignKey>) {
    forall fk :: fk in fks ==> RefKey(fk) in present
  }

  predicate Resolvable(present: map<TableKey, Table>, nss: seq<Namespace>) {
    forall n, t :: n in nss && t in n.resources ==> ResolvableFks(present, t.foreignKeys)
  }

  /** The arguments of the `_add_foreign_key_edge` call for foreign key `fk`
      of table `t`: tail columns (a bare name read as a list), the
      referenced table looked up in the inventory, colour, label and
      tooltip. */
  function FkArgs(opt: Options, present: map<TableKey, Table>, t: Table, fk: ForeignKey): ForeignKeyEdge
    requires RefKey(fk) in present
  {
    var r := fk.reference;
    ForeignKeyEdge(t.name, r.resource, t, present[RefKey(fk)], TailColumns(fk), r.fields,
      EdgeLabel(opt, r), EdgeTooltip(opt, t.name, TailColumns(fk), r), EdgeColor(fk),
      r.cardinalitySelf, r.cardinalityRef)
  }

  function FkArgsOf(opt: Options, present: map<TableKey, Table>, t: Table): (args: seq<ForeignKeyEdge>)
    requires ResolvableFks(present, t.foreignKeys)
    ensures |args| == |t.foreignKeys|
  {
    seq(|t.foreignKeys|, k requires 0 <= k < |t.foreignKeys| => FkArgs(opt, present, t, t.foreignKeys[k]))
  }

  predicate AllDrawable(args: seq<ForeignKeyEdge>) {
    forall k :: 0 <= k < |args| ==> Drawable(args[k])
  }

  /** Every foreign key of `t` can be drawn between column rows. */
  predicate TableDrawable(opt: Options, present: map<TableKey, Table>, t: Table) {
    ResolvableFks(present, t.foreignKeys) && AllDrawable(FkArgsOf(opt, present, t))
  }

  /** The edges and junctions that `_add_foreign_key_edge` adds for `args`,
      one call after the other. */
  function EdgesOf(opt: Options, args: seq<ForeignKeyEdge>): seq<Edge>
    requires AllDrawable(args)
  {
    if args == [] then [] else EdgesOf(opt, args[..|args| - 1]) + FkEdges(opt, args[|args| - 1])
  }

  function JunctionsOf(args: seq<ForeignKeyEdge>): seq<Node> {
    if args == [] then [] else JunctionsOf(args[..|args| - 1]) + FkNodes(args[|args| - 1])
  }

  predicate TablesDrawable(opt: Options, present: map<TableKey, Table>, ts: seq<Table>) {
    forall t :: t in ts ==> TableDrawable(opt, present, t)
  }

  function EdgesIn(opt: Options, present: map<TableKey, Table>, ts: seq<Table>): seq<Edge>
    requires TablesDrawable(opt, present, ts)
  {
    if ts == [] then []
    else
      assert ts[|ts| - 1] in ts;
      EdgesIn(opt, present, ts[..|ts| - 1]) + EdgesOf(opt, FkArgsOf(opt, present, ts[|ts| - 1]))
  }

  function JunctionsIn(opt: Options, present: map<TableKey, Table>, ts: seq<Table>): seq<Node>
    requires TablesDrawable(opt, present, ts)
  {
    if ts == [] then []
    else
      assert ts[|ts| - 1] in ts;
      JunctionsIn(opt, present, ts[..|ts| - 1]) + JunctionsOf(FkArgsOf(opt, present, ts[|ts| - 1]))
  }

  predicate AllTablesDrawable(opt: Options, present: map<TableKey, Table>, nss: seq<Namespace>) {
    forall n :: n in nss ==> TablesDrawable(opt, present, n.resources)
  }

  /** All foreign-key edges of the document with columns displayed. */
  function AllEdges(opt: Options, present: map<TableKey, Table>, nss: seq<Namespace>): seq<Edge>
    requires AllTablesDrawable(opt, present, nss)
  {
    if nss == [] then []
    else AllEdges(opt, present, nss[..|nss| - 1]) + EdgesIn(opt, present, nss[|nss| - 1].resources)
  }

  function AllJunctions(opt: Options, present: map<TableKey, Table>, nss: seq<Namespace>): seq<Node>
    requires AllTablesDrawable(opt, present, nss)
  {
    if nss == [] then []
    else AllJunctions(opt, present, nss[..|nss| - 1]) + JunctionsIn(opt, present, nss[|nss| - 1].resources)
  }

  /** `add_edge(tail, head, color='black')`. */
  function PlainEdge(tail: string, head: string): Edge {
    Edge(tail, head, Unset, Unset, DirUnset, "black", None, None, None, None, None)
  }

  /** The (tail table, head table) name pairs of the first `k` foreign keys
      of `t`. */
  function TablePairs(t: Table, k: nat): set<(string, string)>
    requires k <= |t.foreignKeys|
  {
    set i | 0 <= i < k :: (t.name, t.foreignKeys[i].reference.resource)
  }

  /** `table_edges` after a namespace's tables `ts`. */
  function NamespacePairs(ts: seq<Table>): set<(string, string)> {
    if ts == [] then {}
    else NamespacePairs(ts[..|ts| - 1]) + TablePairs(ts[|ts| - 1], |ts[|ts| - 1].foreignKeys|)
  }

  function PairOf(e: Edge): (string, string) {
    (e.tail, e.head)
  }

  /** `es` draws each pair of `pairs` exactly once, as a plain edge, in
      some order. */
  ghost predicate PlainListing(es: seq<Edge>, pairs: set<(string, string)>) {
    && (forall i :: 0 <= i < |es| ==> es[i] == PlainEdge(es[i].tail, es[i].head))
    && (forall i, j :: 0 <= i < j < |es| ==> PairOf(es[i]) != PairOf(es[j]))
    && pairs == set i | 0 <= i < |es| :: PairOf(es[i])
  }

  /** The edge log without columns: namespace after namespace, a plain
      listing of that namespace's pairs. */
  ghost predicate DegradedLog(edges: seq<Edge>, nss: seq<Namespace>)
    decreases |nss|
  {
    if nss == [] then edges == []
    else
      var pairs := NamespacePairs(nss[|nss| - 1].resources);
      && |pairs| <= |edges|
      && DegradedLog(edges[..|edges| - |pairs|], nss[..|nss| - 1])
      && PlainListing(edges[|edges| - |pairs|..], pairs)
  }

  /** The conditions under which `get_graph` returns instead of raising. */
  predicate Renderable(opt: Options, nss: seq<Namespace>) {
    && Resolvable(Present(nss), nss)
    && (opt.displayColumns ==>
          AllNodesDrawable(opt, Endpoints(nss), nss) && AllTablesDrawable(opt, Present(nss), nss))
  }

  // ---------------------------------------------------------------------
  // The table nodes.

  /** One more table of a namespace: its node, if shown, follows the
      nodes of the tables before it. */
  lemma TableNodesInStep(opt: Options, ends: set<TableKey>, ns: string, ts: seq<Table>, j: nat)
    requires j < |ts| && NodesDrawable(opt, ends, ns, ts)
    ensures NodesDrawable(opt, ends, ns, ts[..j]) && NodesDrawable(opt, ends, ns, ts[..j + 1])
    ensures opt.displayColumns && Shown(opt, ends, ns, ts[j]) ==> KeysInFields(ts[j])
    ensures TableNodesIn(opt, ends, ns, ts[..j + 1]) == TableNodesIn(opt, ends, ns, ts[..j])
      + (if Shown(opt, ends, ns, ts[j]) then [TableNodeOf(opt, ns, ts[j])] else [])
  {
    TakeTake(ts, j, j + 1);
    assert ts[..j + 1][j] == ts[j];
    assert ts[j] in ts;
  }

  lemma TableNodesStep(opt: Options, ends: set<TableKey>, nss: seq<Namespace>, i: nat)
    requires i < |nss| && AllNodesDrawable(opt, ends, nss)
    ensures AllNodesDrawable(opt, ends, nss[..i]) && AllNodesDrawable(opt, ends, nss[..i + 1])
    ensures NodesDrawable(opt, ends, nss[i].datapackage, nss[i].resources)
    ensures TableNodes(opt, ends, nss[..i + 1])
      == TableNodes(opt, ends, nss[..i]) + TableNodesIn(opt, ends, nss[i].datapackage, nss[i].resources)
  {
    TakeTake(nss, i, i + 1);
    assert nss[..i + 1][i] == nss[i];
    assert nss[i] in nss;
  }

  method AddNamespaceTables(opt: Options, g: Graph, ends: set<TableKey>, n: Namespace)
    requires NodesDrawable(opt, ends, n.datapackage, n.resources)
    modifies g
    ensures g.nodes == old(g.nodes) + TableNodesIn(opt, ends, n.datapackage, n.resources)
    ensures g.edges == old(g.edges)
  {
    var ts := n.resources;
    var j := 0;
    while j < |ts|
      invariant 0 <= j <= |ts|
      invariant g.nodes == old(g.nodes) + TableNodesIn(opt, ends, n.datapackage, ts[..j])
      invariant g.edges == old(g.edges)
    {
      var t := ts[j];
      TableNodesInStep(opt, ends, n.datapackage, ts, j);
      var hasEdge := (n.datapackage, t.name) in ends;
      if !opt.omitIsolatedTables || hasEdge {
        GraphAddTable(opt, g, n.datapackage, t);
        AppendAssoc(old(g.nodes), TableNodesIn(opt, ends, n.datapackage, ts[..j]), [TableNodeOf(opt, n.datapackage, t)]);
      } else {
        assert TableNodesIn(opt, ends, n.datapackage, ts[..j + 1]) == TableNodesIn(opt, ends, n.datapackage, ts[..j]) + [];
      }
      j := j + 1;
    }
    TakeFull(ts, j);
  }

  /** The table-node loop of `get_graph`. */
  method AddTableNodes(opt: Options, g: Graph, ends: set<TableKey>, nss: seq<Namespace>)
    requires AllNodesDrawable(opt, ends, nss)
    modifies g
    ensures g.nodes == old(g.nodes) + TableNodes(opt, ends, nss)
    ensures g.edges == old(g.edges)
  {
    var i := 0;
    while i < |nss|
      invariant 0 <= i <= |nss|
      invariant g.nodes == old(g.nodes) + TableNodes(opt, ends, nss[..i])
      invariant g.edges == old(g.edges)
    {
      TableNodesStep(opt, ends, nss, i);
      AddNamespaceTables(opt, g, ends, nss[i]);
      AppendAssoc(old(g.nodes), TableNodes(opt, ends, nss[..i]), TableNodesIn(opt, ends, nss[i].datapackage, nss[i].resources));
      i := i + 1;
    }
    TakeFull(nss, i);
  }

  // ---------------------------------------------------------------------
  // The foreign-key edges.

  lemma EdgesOfSnoc(opt: Options, args: seq<ForeignKeyEdge>, call: ForeignKeyEdge)
    requires AllDrawable(args) && Drawable(call)
    ensures AllDrawable(args + [call])
    ensures EdgesOf(opt, args + [call]) == EdgesOf(opt, args) + FkEdges(opt, call)
    ensures JunctionsOf(args + [call]) == JunctionsOf(args) + FkNodes(call)
  {
    assert (args + [call])[..|args|] == args;
  }

  /** The foreign keys of one table with columns displayed: each drawn by
      `_add_foreign_key_edge`. */
  method DrawTableForeignKeys(opt: Options, g: Graph, present: map<TableKey, Table>, t: Table)
    requires TableDrawable(opt, present, t)
    modifies g
    ensures g.nodes == old(g.nodes) + JunctionsOf(FkArgsOf(opt, present, t))
    ensures g.edges == old(g.edges) + EdgesOf(opt, FkArgsOf(opt, present, t))
  {
    ghost var args := FkArgsOf(opt, present, t);
    var k := 0;
    while k < |t.foreignKeys|
      invariant 0 <= k <= |t.foreignKeys|
      invariant AllDrawable(args[..k])
      invariant g.nodes == old(g.nodes) + JunctionsOf(args[..k])
      invariant g.edges == old(g.edges) + EdgesOf(opt, args[..k])
    {
      assert t.foreignKeys[k] in t.foreignKeys;
      var call := FkArgs(opt, present, t, t.foreignKeys[k]);
      TakeSnoc(args, k);
      EdgesOfSnoc(opt, args[..k], call);
      AddForeignKeyEdge(g, opt, call);
      AppendAssoc(old(g.nodes), JunctionsOf(args[..k]), FkNodes(call));
      AppendAssoc(old(g.edges), EdgesOf(opt, args[..k]), FkEdges(opt, call));
      k := k + 1;
    }
    TakeFull(args, k);
  }

  /** The foreign keys of one table without columns: each adds its (tail,
      head) table pair to `table_edges`. */
  method CollectTablePairs(t: Table, tableEdges: set<(string, string)>) returns (tableEdges': set<(string, string)>)
    ensures tableEdges' == tableEdges + TablePairs(t, |t.foreignKeys|)
  {
    tableEdges' := tableEdges;
    var k := 0;
    while k < |t.foreignKeys|
      invariant 0 <= k <= |t.foreignKeys|
      invariant tableEdges' == tableEdges + TablePairs(t, k)
    {
      var pair := (t.name, t.foreignKeys[k].reference.resource);
      tableEdges' := tableEdges' + {pair};
      assert TablePairs(t, k + 1) == TablePairs(t, k) + {pair};
      k := k + 1;
    }
  }

  /** Drawing one more of the remaining pairs extends the plain listing of
      the pairs drawn so far. */
  lemma ListingStep(added: seq<Edge>, pairs: set<(string, string)>, remaining: set<(string, string)>, p: (string, string))
    requires p in remaining && remaining <= pairs
    requires PlainListing(added, pairs - remaining)
    ensures PlainListing(added + [PlainEdge(p.0, p.1)], pairs - (remaining - {p}))
  {
    var added' := added + [PlainEdge(p.0, p.1)];
    assert pairs - (remaining - {p}) == (pairs - remaining) + {p};
    assert PairOf(added'[|added|]) == p;
    forall i | 0 <= i < |added| ensures added'[i] == added[i] && PairOf(added[i]) in pairs - remaining {
    }
  }

  /** Without columns: each collected pair once, in the set's iteration
      order, which the model leaves open. */
  method AddPlainEdges(g: Graph, pairs: set<(string, string)>)
    modifies g
    ensures g.nodes == old(g.nodes)
    ensures |g.edges| == |old(g.edges)| + |pairs| && g.edges[..|old(g.edges)|] == old(g.edges)
    ensures PlainListing(g.edges[|old(g.edges)|..], pairs)
  {
    var remaining := pairs;
    ghost var added: seq<Edge> := [];
    while remaining != {}
      invariant remaining <= pairs
      invariant g.nodes == old(g.nodes)
      invariant g.edges == old(g.edges) + added
      invariant |added| + |remaining| == |pairs|
      invariant PlainListing(added, pairs - remaining)
      decreases |remaining|
    {
      var p :| p in remaining;
      var e := PlainEdge(p.0, p.1);
      g.AddEdge(e);
      ListingStep(added, pairs, remaining, p);
      AppendAssoc(old(g.edges), added, [e]);
      added := added + [e];
      remaining := remaining - {p};
    }
    assert pairs - remaining == pairs;
    assert g.edges[|old(g.edges)|..] == added;
  }

  /** One more table of a namespace: its foreign keys' edges and junctions
      follow those of the tables before it. */
  lemma EdgesInStep(opt: Options, present: map<TableKey, Table>, ts: seq<Table>, j: nat)
    requires j < |ts| && TablesDrawable(opt, present, ts)
    ensures TablesDrawable(opt, present, ts[..j]) && TablesDrawable(opt, present, ts[..j + 1])
    ensures TableDrawable(opt, present, ts[j])
    ensures EdgesIn(opt, present, ts[..j + 1])
      == EdgesIn(opt, present, ts[..j]) + EdgesOf(opt, FkArgsOf(opt, present, ts[j]))
    ensures JunctionsIn(opt, present, ts[..j + 1])
      == JunctionsIn(opt, present, ts[..j]) + JunctionsOf(FkArgsOf(opt, present, ts[j]))
  {
    TakeTake(ts, j, j + 1);
    assert ts[..j + 1][j] == ts[j];
    assert ts[j] in ts;
  }

  lemma AllEdgesStep(opt: Options, present: map<TableKey, Table>, nss: seq<Namespace>, i: nat)
    requires i < |nss| && AllTablesDrawable(opt, present, nss)
    ensures AllTablesDrawable(opt, present, nss[..i]) && AllTablesDrawable(opt, present, nss[..i + 1])
    ensures TablesDrawable(opt, present, nss[i].resources)
    ensures AllEdges(opt, present, nss[..i + 1])
      == AllEdges(opt, present, nss[..i]) + EdgesIn(opt, present, nss[i].resources)
    ensures AllJunctions(opt, present, nss[..i + 1])
      == AllJunctions(opt, present, nss[..i]) + JunctionsIn(opt, present, nss[i].resources)
  {
    TakeTake(nss, i, i + 1);
    assert nss[..i + 1][i] == nss[i];
    assert nss[i] in nss;
  }

  /** One namespace with columns displayed: every foreign key of every
      table drawn in turn. */
  method DrawNamespaceForeignKeys(opt: Options, g: Graph, present: map<TableKey, Table>, ts: seq<Table>)
    requires TablesDrawable(opt, present, ts)
    modifies g
    ensures g.nodes == old(g.nodes) + JunctionsIn(opt, present, ts)
    ensures g.edges == old(g.edges) + EdgesIn(opt, present, ts)
  {
    var j := 0;
    while j < |ts|
      invariant 0 <= j <= |ts|
      invariant TablesDrawable(opt, present, ts[..j])
      invariant g.nodes == old(g.nodes) + JunctionsIn(opt, present, ts[..j])
      invariant g.edges == old(g.edges) + EdgesIn(opt, present, ts[..j])
    {
      EdgesInStep(opt, present, ts, j);
      DrawTableForeignKeys(opt, g, present, ts[j]);
      AppendAssoc(old(g.nodes), JunctionsIn(opt, present, ts[..j]), JunctionsOf(FkArgsOf(opt, present, ts[j])));
      AppendAssoc(old(g.edges), EdgesIn(opt, present, ts[..j]), EdgesOf(opt, FkArgsOf(opt, present, ts[j])));
      j := j + 1;
    }
    TakeFull(ts, j);
  }

  /** One namespace without columns: `table_edges` collected over its
      tables. */
  method CollectNamespacePairs(ts: seq<Table>) returns (tableEdges: set<(string, string)>)
    ensures tableEdges == NamespacePairs(ts)
  {
    tableEdges := {};
    var j := 0;
    while j < |ts|
      invariant 0 <= j <= |ts|
      invariant tableEdges == NamespacePairs(ts[..j])
    {
      TakeTake(ts, j, j + 1);
      assert ts[..j + 1][j] == ts[j];
      tableEdges := CollectTablePairs(ts[j], tableEdges);
      j := j + 1;
    }
    TakeFull(ts, j);
  }

  /** Extending a degraded log by the listing of namespace `i`'s pairs. */
  lemma DegradedLogStep(edges0: seq<Edge>, edges: seq<Edge>, nss: seq<Namespace>, i: nat)
    requires i < |nss| && DegradedLog(edges0, nss[..i])
    requires |edges| == |edges0| + |NamespacePairs(nss[i].resources)| && edges[..|edges0|] == edges0
    requires PlainListing(edges[|edges0|..], NamespacePairs(nss[i].resources))
    ensures DegradedLog(edges, nss[..i + 1])
  {
    var pairs := NamespacePairs(nss[i].resources);
    TakeTake(nss, i, i + 1);
    assert nss[..i + 1][i] == nss[i];
    assert |edges| - |pairs| == |edges0|;
  }

  /** The foreign-key loop of `get_graph` with columns displayed: every
      foreign key of every namespace drawn in turn. */
  method DrawAllForeignKeys(opt: Options, g: Graph, present: map<TableKey, Table>, nss: seq<Namespace>)
    requires AllTablesDrawable(opt, present, nss)
    requires g.edges == []
    modifies g
    ensures g.nodes == old(g.nodes) + AllJunctions(opt, present, nss)
    ensures g.edges == AllEdges(opt, present, nss)
  {
    var i := 0;
    while i < |nss|
      invariant 0 <= i <= |nss|
      invariant AllTablesDrawable(opt, present, nss[..i])
      invariant g.nodes == old(g.nodes) + AllJunctions(opt, present, nss[..i])
      invariant g.edges == AllEdges(opt, present, nss[..i])
    {
      AllEdgesStep(opt, present, nss, i);
      DrawNamespaceForeignKeys(opt, g, present, nss[i].resources);
      AppendAssoc(old(g.nodes), AllJunctions(opt, present, nss[..i]), JunctionsIn(opt, present, nss[i].resources));
      i := i + 1;
    }
    TakeFull(nss, i);
  }

  /** The foreign-key loop of `get_graph` without columns: per namespace,
      the table pairs collected and then drawn as plain edges. */
  method AddDegradedEdges(g: Graph, nss: seq<Namespace>)
    requires g.edges == []
    modifies g
    ensures g.nodes == old(g.nodes) && DegradedLog(g.edges, nss)
  {
    var i := 0;
    while i < |nss|
      invariant 0 <= i <= |nss|
      invariant g.nodes == old(g.nodes) && DegradedLog(g.edges, nss[..i])
    {
      ghost var edges0 := g.edges;
      var tableEdges := CollectNamespacePairs(nss[i].resources);
      AddPlainEdges(g, tableEdges);
      DegradedLogStep(edges0, g.edges, nss, i);
      i := i + 1;
    }
    TakeFull(nss, i);
  }

  /** `get_graph` once the options are merged. */
  method DrawDocument(doc: Document, opt: Options) returns (g: Graph)
    requires Renderable(opt, doc.datapackages)
    ensures fresh(g)
    ensures g.name == GraphName(doc) && g.rankdir == opt.rankdir
    ensures g.fontname == opt.fontname && g.fontsize == opt.fontsize
    ensures g.nodes == TableNodes(opt, Endpoints(doc.datapackages), doc.datapackages)
      + (if opt.displayColumns then AllJunctions(opt, Present(doc.datapackages), doc.datapackages) else [])
    ensures opt.displayColumns ==> g.edges == AllEdges(opt, Present(doc.datapackages), doc.datapackages)
    ensures !opt.displayColumns ==> DegradedLog(g.edges, doc.datapackages)
  {
    var nss := doc.datapackages;
    g := new Graph(GraphName(doc), opt.rankdir, opt.fontname, opt.fontsize);
    var present, tablesWithEdges := BuildInventory(nss);
    AddTableNodes(opt, g, tablesWithEdges, nss);
    assert g.nodes == TableNodes(opt, Endpoints(nss), nss) && g.edges == [];
    if opt.displayColumns {
      DrawAllForeignKeys(opt, g, present, nss);
    } else {
      AddDegradedEdges(g, nss);
    }
  }

  /** `get_graph(json_database_schema, **options)`: the caller's options
      merged over the defaults, then the document drawn. */
  method GetGraph(doc: Document, ov: Overrides) returns (g: Graph)
    requires Renderable(Merge(ov), doc.datapackages)
    ensures fresh(g)
    ensures g.name == GraphName(doc) && g.rankdir == Merge(ov).rankdir
    ensures g.fontname == Merge(ov).fontname && g.fontsize == Merge(ov).fontsize
    ensures g.nodes == TableNodes(Merge(ov), Endpoints(doc.datapackages), doc.datapackages)
      + (if Merge(ov).displayColumns then AllJunctions(Merge(ov), Present(doc.datapackages), doc.datapackages) else [])
    ensures Merge(ov).displayColumns ==>
      g.edges == AllEdges(Merge(ov), Present(doc.datapackages), doc.datapackages)
    ensures !Merge(ov).displayColumns ==> DegradedLog(g.edges, doc.datapackages)
  {
    g := DrawDocument(doc, Merge(ov));
  }

  // ---------------------------------------------------------------------
  // Properties of the drawing.

  /** A table is shown exactly when isolated tables are kept or some
      table of the document has a foreign key at it. */
  lemma ShownIff(opt: Options, nss: seq<Namespace>, ns: string, t: Table)
    ensures Shown(opt, Endpoints(nss), ns, t) <==>
      !opt.omitIsolatedTables || exists n, u :: n in nss && u in n.resources && Touches(n.datapackage, u, (ns, t.name))
  {
    EndpointsIff(nss, (ns, t.name));
  }

  lemma {:induction false} TableNodesInIff(opt: Options, ends: set<TableKey>, ns: string, ts: seq<Table>, node: Node)
    requires NodesDrawable(opt, ends, ns, ts)
    ensures node in TableNodesIn(opt, ends, ns, ts) <==>
      exists t :: t in ts && Shown(opt, ends, ns, t) && node == TableNodeOf(opt, ns, t)
  {
    if ts != [] {
      var init, last := ts[..|ts| - 1], ts[|ts| - 1];
      assert ts == init + [last];
      assert NodesDrawable(opt, ends, ns, init);
      TableNodesInIff(opt, ends, ns, init, node);
    }
  }

  /** The table nodes are exactly the nodes of the shown tables. */
  lemma {:induction false} TableNodesIff(opt: Options, ends: set<TableKey>, nss: seq<Namespace>, node: Node)
    requires AllNodesDrawable(opt, ends, nss)
    ensures node in TableNodes(opt, ends, nss) <==>
      exists n, t :: n in nss && t in n.resources && Shown(opt, ends, n.datapackage, t)
        && node == TableNodeOf(opt, n.datapackage, t)
  {
    if nss != [] {
      var init, last := nss[..|nss| - 1], nss[|nss| - 1];
      assert nss == init + [last];
      assert last in nss;
      TableNodesIff(opt, ends, init, node);
      TableNodesInIff(opt, ends, last.datapackage, last.resources, node);
    }
  }

  /** Without isolated tables omitted, every table gets a node. */
  lemma {:induction false} EveryTableShown(opt: Options, ends: set<TableKey>, ns: string, ts: seq<Table>)
    requires !opt.omitIsolatedTables && NodesDrawable(opt, ends, ns, ts)
    ensures |TableNodesIn(opt, ends, ns, ts)| == |ts|
  {
    if ts != [] {
      var init := ts[..|ts| - 1];
      assert NodesDrawable(opt, ends, ns, init);
      EveryTableShown(opt, ends, ns, init);
    }
  }

  /** The number of foreign keys of the tables `ts`. */
  function KeyCount(ts: seq<Table>): nat {
    if ts == [] then 0 else KeyCount(ts[..|ts| - 1]) + |ts[|ts| - 1].foreignKeys|
  }

  function AllKeyCount(nss: seq<Namespace>): nat {
    if nss == [] then 0 else AllKeyCount(nss[..|nss| - 1]) + KeyCount(nss[|nss| - 1].resources)
  }

  lemma {:induction false} EdgesOfSummaries(opt: Options, args: seq<ForeignKeyEdge>)
    requires AllDrawable(args)
    ensures CountDir(EdgesOf(opt, args), DirBoth) == |args|
  {
    if args != [] {
      var init := args[..|args| - 1];
      assert AllDrawable(init);
      EdgesOfSummaries(opt, init);
      FkTopology(opt, args[|args| - 1]);
      CountDirAppend(EdgesOf(opt, init), FkEdges(opt, args[|args| - 1]), DirBoth);
    }
  }

  lemma {:induction false} EdgesInSummaries(opt: Options, present: map<TableKey, Table>, ts: seq<Table>)
    requires TablesDrawable(opt, present, ts)
    ensures CountDir(EdgesIn(opt, present, ts), DirBoth) == KeyCount(ts)
  {
    if ts != [] {
      var init, last := ts[..|ts| - 1], ts[|ts| - 1];
      assert TablesDrawable(opt, present, init);
      assert last in ts;
      EdgesInSummaries(opt, present, init);
      EdgesOfSummaries(opt, FkArgsOf(opt, present, last));
      CountDirAppend(EdgesIn(opt, present, init), EdgesOf(opt, FkArgsOf(opt, present, last)), DirBoth);
    }
  }

  /** With columns displayed, each foreign key of the document yields
      exactly one two-headed edge: the edge carrying its label and
      crowfoots. */
  lemma {:induction false} OneSummaryPerKey(opt: Options, present: map<TableKey, Table>, nss: seq<Namespace>)
    requires AllTablesDrawable(opt, present, nss)
    ensures CountDir(AllEdges(opt, present, nss), DirBoth) == AllKeyCount(nss)
  {
    if nss != [] {
      var init, last := nss[..|nss| - 1], nss[|nss| - 1];
      assert AllTablesDrawable(opt, present, init);
      assert last in nss;
      OneSummaryPerKey(opt, present, init);
      EdgesInSummaries(opt, present, last.resources);
      CountDirAppend(AllEdges(opt, present, init), EdgesIn(opt, present, last.resources), DirBoth);
    }
  }

  lemma {:induction false} TablePairsIff(t: Table, p: (string, string))
    ensures p in TablePairs(t, |t.foreignKeys|) <==>
      exists fk :: fk in t.foreignKeys && p == (t.name, fk.reference.resource)
  {
    if p in TablePairs(t, |t.foreignKeys|) {
      var i :| 0 <= i < |t.foreignKeys| && p == (t.name, t.foreignKeys[i].reference.resource);
      assert t.foreignKeys[i] in t.foreignKeys;
    }
    if fk :| fk in t.foreignKeys && p == (t.name, fk.reference.resource) {
      var i :| 0 <= i < |t.foreignKeys| && t.foreignKeys[i] == fk;
      assert p == (t.name, t.foreignKeys[i].reference.resource);
    }
  }

  /** `table_edges` holds a pair exactly when some table of the namespace
      has a foreign key into a table of that name. */
  lemma {:induction false} NamespacePairsIff(ts: seq<Table>, p: (string, string))
    ensures p in NamespacePairs(ts) <==>
      exists t, fk :: t in ts && fk in t.foreignKeys && p == (t.name, fk.reference.resource)
  {
    if ts != [] {
      var init, last := ts[..|ts| - 1], ts[|ts| - 1];
      assert ts == init + [last];
      NamespacePairsIff(init, p);
      TablePairsIff(last, p);
    }
  }

  /** A non-empty degraded log: the log of the namespaces before the last,
      then the listing of the last one's pairs. */
  lemma DegradedLogSplit(edges: seq<Edge>, nss: seq<Namespace>)
    requires DegradedLog(edges, nss) && nss != []
    ensures |NamespacePairs(nss[|nss| - 1].resources)| <= |edges|
    ensures DegradedLog(edges[..|edges| - |NamespacePairs(nss[|nss| - 1].resources)|], nss[..|nss| - 1])
    ensures PlainListing(edges[|edges| - |NamespacePairs(nss[|nss| - 1].resources)|..], NamespacePairs(nss[|nss| - 1].resources))
  {
  }

  /** Without columns, every edge is a plain black edge between two table
      names that a foreign key of one namespace joins. */
  lemma {:induction false} DegradedEdgesPlain(edges: seq<Edge>, nss: seq<Namespace>, i: nat)
    requires DegradedLog(edges, nss) && i < |edges|
    ensures edges[i] == PlainEdge(edges[i].tail, edges[i].head) && edges[i].color == "black"
    ensures exists n :: n in nss && PairOf(edges[i]) in NamespacePairs(n.resources)
    decreases |nss|
  {
    assert nss != [];
    DegradedLogSplit(edges, nss);
    var k := |edges| - |NamespacePairs(nss[|nss| - 1].resources)|;
    var init, last := nss[..|nss| - 1], nss[|nss| - 1];
    assert last in nss;
    if i < k {
      assert edges[..k][i] == edges[i];
      DegradedEdgesPlain(edges[..k], init, i);
      var n :| n in init && PairOf(edges[i]) in NamespacePairs(n.resources);
      assert n in nss;
    } else {
      assert edges[k..][i - k] == edges[i];
    }
  }

  /** Without columns, every pair `table_edges` collects in some namespace
      is drawn. */
  lemma {:induction false} DegradedCoversPairs(edges: seq<Edge>, nss: seq<Namespace>, n: Namespace, p: (string, string))
    requires DegradedLog(edges, nss) && n in nss && p in NamespacePairs(n.resources)
    ensures exists i :: 0 <= i < |edges| && PairOf(edges[i]) == p
    decreases |nss|
  {
    DegradedLogSplit(edges, nss);
    var k := |edges| - |NamespacePairs(nss[|nss| - 1].resources)|;
    var init, last := nss[..|nss| - 1], nss[|nss| - 1];
    if n == last {
      var j :| 0 <= j < |edges[k..]| && p == PairOf(edges[k..][j]);
      assert edges[k..][j] == edges[k + j];
      assert PairOf(edges[k + j]) == p;
    } else {
      InInit(nss, n);
      DegradedCoversPairs(edges[..k], init, n, p);
      var j :| 0 <= j < k && PairOf(edges[..k][j]) == p;
      assert edges[..k][j] == edges[j];
      assert PairOf(edges[j]) == p;
    }
  }
}
