/** The edges of one foreign key (`_add_foreign_key_edge`): a single edge
    between the two tables' column rows, or, for a side with several
    columns, a point-shaped junction node that every column of that side
    joins and from which the summary edge leaves. */
module Edges {
  import opened Schema
  import opened Text
  import opened Config
  import opened Graph
  import opened Ports
  import opened Crowfoot
  import opened Seqs

  /** Tail ports are on the right of a row (`f`) and head ports on the
      left (`i`); `rankdir` `RL` mirrors both. */
  function TailPrefix(opt: Options): PortPrefix {
    if opt.rankdir == "RL" then I else F
  }

  function HeadPrefix(opt: Options): PortPrefix {
    if opt.rankdir == "RL" then F else I
  }

  /** What `repr` writes for one character inside a string literal quoted
      with `quote`. */
  function EscapeChar(c: char, quote: char): string {
    if c == '\\' then "\\\\"
    else if c == quote then ['\\', c]
    else if c == '\n' then "\\n"
    else if c == '\r' then "\\r"
    else if c == '\t' then "\\t"
    else [c]
  }

  function Escape(s: string, quote: char): (r: string)
    ensures |r| >= |s|
  {
    if s == [] then [] else Escape(s[..|s| - 1], quote) + EscapeChar(s[|s| - 1], quote)
  }

  /** Python's `repr` of a string: single quotes, unless the string holds a
      single quote and no double quote. */
  function StrRepr(s: string): (r: string)
    ensures |r| >= |s| + 2
    ensures r[0] == r[|r| - 1] && r[0] in {'\'', '"'}
  {
    var quote := if '\'' in s && '"' !in s then '"' else '\'';
    [quote] + Escape(s, quote) + [quote]
  }

  /** `str(list_of_strings)`: `['a', 'b']`. */
  function ListRepr(items: seq<string>): (r: string)
    ensures |r| >= 2 && r[0] == '[' && r[|r| - 1] == ']'
  {
    "[" + Join(", ", seq(|items|, i requires 0 <= i < |items| => StrRepr(items[i]))) + "]"
  }

  /** The name of the junction where the tail columns meet. */
  function TailAggName(tailName: string, tailColumns: seq<string>, headName: string): string {
    "tail agg " + tailName + ListRepr(tailColumns) + "->" + headName
  }

  /** The name of the junction where the head columns meet; like the tail
      junction it is keyed on the tail columns. */
  function HeadAggName(tailName: string, headName: string, tailColumns: seq<string>): string {
    "head agg " + tailName + "->" + headName + ListRepr(tailColumns)
  }

  /** The arguments `get_graph` passes to `_add_foreign_key_edge`. */
  datatype ForeignKeyEdge = ForeignKeyEdge(
    tailName: string,
    headName: string,
    tailTable: Table,
    headTable: Table,
    tailColumns: seq<string>,
    headColumns: seq<string>,
    labelText: string,
    tooltip: string,
    color: string,
    cardTail: Option<string>,
    cardHead: Option<string>)

  /** `_add_foreign_key_edge` raises unless each side names at least one
      column and every named column has a port in its table. */
  predicate Drawable(fk: ForeignKeyEdge) {
    && |fk.tailColumns| >= 1
    && |fk.headColumns| >= 1
    && (forall c :: c in fk.tailColumns ==> HasPort(fk.tailTable, c))
    && (forall c :: c in fk.headColumns ==> HasPort(fk.headTable, c))
  }

  function TailAgg(fk: ForeignKeyEdge): string {
    TailAggName(fk.tailName, fk.tailColumns, fk.headName)
  }

  function HeadAgg(fk: ForeignKeyEdge): string {
    HeadAggName(fk.tailName, fk.headName, fk.tailColumns)
  }

  /** The junction nodes: one per side with more than one column. */
  function FkNodes(fk: ForeignKeyEdge): seq<Node> {
    (if |fk.tailColumns| > 1 then [Junction(TailAgg(fk), fk.tailName)] else [])
      + (if |fk.headColumns| > 1 then [Junction(HeadAgg(fk), fk.headName)] else [])
  }

  /** The edge joining tail column `c` to the tail junction. */
  function TailConnector(opt: Options, fk: ForeignKeyEdge, c: string): Edge
    requires HasPort(fk.tailTable, c)
  {
    Edge(fk.tailName, TailAgg(fk), At(Port(TailPrefix(opt), GetPort(fk.tailTable, c))), Unset,
      DirNone, fk.color, Some(opt.edgeThickness), None, None, None, None)
  }

  /** The edge joining the head junction to head column `c`. */
  function HeadConnector(opt: Options, fk: ForeignKeyEdge, c: string): Edge
    requires HasPort(fk.headTable, c)
  {
    Edge(HeadAgg(fk), fk.headName, Unset, At(Port(HeadPrefix(opt), GetPort(fk.headTable, c))),
      DirNone, fk.color, Some(opt.edgeThickness), None, None, None, None)
  }

  function TailConnectors(opt: Options, fk: ForeignKeyEdge): (r: seq<Edge>)
    requires Drawable(fk)
    ensures |r| == if |fk.tailColumns| > 1 then |fk.tailColumns| else 0
  {
    if |fk.tailColumns| > 1 then
      seq(|fk.tailColumns|, i requires 0 <= i < |fk.tailColumns| => TailConnector(opt, fk, fk.tailColumns[i]))
    else []
  }

  function HeadConnectors(opt: Options, fk: ForeignKeyEdge): (r: seq<Edge>)
    requires Drawable(fk)
    ensures |r| == if |fk.headColumns| > 1 then |fk.headColumns| else 0
  {
    if |fk.headColumns| > 1 then
      seq(|fk.headColumns|, i requires 0 <= i < |fk.headColumns| => HeadConnector(opt, fk, fk.headColumns[i]))
    else []
  }

  lemma TailConnectorAt(opt: Options, fk: ForeignKeyEdge, i: nat)
    requires Drawable(fk) && |fk.tailColumns| > 1 && i < |fk.tailColumns|
    ensures TailConnectors(opt, fk)[i] == TailConnector(opt, fk, fk.tailColumns[i])
  {
  }

  lemma HeadConnectorAt(opt: Options, fk: ForeignKeyEdge, i: nat)
    requires Drawable(fk) && |fk.headColumns| > 1 && i < |fk.headColumns|
    ensures HeadConnectors(opt, fk)[i] == HeadConnector(opt, fk, fk.headColumns[i])
  {
  }

  /** Where the summary edge starts: the tail table's column row, or the
      tail junction (with an empty port). */
  function TailEnd(opt: Options, fk: ForeignKeyEdge): (string, PortAttr)
    requires Drawable(fk)
  {
    if |fk.tailColumns| > 1 then (TailAgg(fk), Empty)
    else (fk.tailName, At(Port(TailPrefix(opt), GetPort(fk.tailTable, fk.tailColumns[0]))))
  }

  function HeadEnd(opt: Options, fk: ForeignKeyEdge): (string, PortAttr)
    requires Drawable(fk)
  {
    if |fk.headColumns| > 1 then (HeadAgg(fk), Empty)
    else (fk.headName, At(Port(HeadPrefix(opt), GetPort(fk.headTable, fk.headColumns[0]))))
  }

  /** The labelled, two-headed edge carrying the crow's feet. */
  function SummaryEdge(opt: Options, fk: ForeignKeyEdge): Edge
    requires Drawable(fk)
  {
    Edge(TailEnd(opt, fk).0, HeadEnd(opt, fk).0, TailEnd(opt, fk).1, HeadEnd(opt, fk).1,
      DirBoth, fk.color, Some(opt.edgeThickness), Some(fk.labelText), Some(fk.tooltip),
      Some(GetCrowfoot(fk.cardTail, opt)), Some(GetCrowfoot(fk.cardHead, opt)))
  }

  /** The edges in the order they are added. */
  function FkEdges(opt: Options, fk: ForeignKeyEdge): seq<Edge>
    requires Drawable(fk)
  {
    TailConnectors(opt, fk) + HeadConnectors(opt, fk) + [SummaryEdge(opt, fk)]
  }

  /** The loop over the tail columns: one undirected connector each. */
  method AddTailConnectors(g: Graph, opt: Options, fk: ForeignKeyEdge, portR: PortPrefix, tailAgg: string)
    requires Drawable(fk) && |fk.tailColumns| > 1
    requires portR == TailPrefix(opt) && tailAgg == TailAgg(fk)
    modifies g
    ensures g.nodes == old(g.nodes)
    ensures g.edges == old(g.edges) + TailConnectors(opt, fk)
  {
    ghost var tails := TailConnectors(opt, fk);
    var i := 0;
    while i < |fk.tailColumns|
      invariant 0 <= i <= |fk.tailColumns|
      invariant g.nodes == old(g.nodes)
      invariant g.edges == old(g.edges) + tails[..i]
    {
      var p := GetPort(fk.tailTable, fk.tailColumns[i]);
      var e := Edge(fk.tailName, tailAgg, At(Port(portR, p)), Unset,
        DirNone, fk.color, Some(opt.edgeThickness), None, None, None, None);
      TailConnectorAt(opt, fk, i);
      TakeSnoc(tails, i);
      g.AddEdge(e);
      AppendAssoc(old(g.edges), tails[..i], [e]);
      i := i + 1;
    }
  }

  /** The tail half of `_add_foreign_key_edge`: with several tail columns,
      the tail junction and one undirected connector per column; returns
      where the summary edge starts. */
  method AddTailSide(g: Graph, opt: Options, fk: ForeignKeyEdge) returns (tailNode: string, tailPort: PortAttr)
    requires Drawable(fk)
    modifies g
    ensures g.nodes == old(g.nodes) + (if |fk.tailColumns| > 1 then [Junction(TailAgg(fk), fk.tailName)] else [])
    ensures g.edges == old(g.edges) + TailConnectors(opt, fk)
    ensures (tailNode, tailPort) == TailEnd(opt, fk)
  {
    var portR := if opt.rankdir == "RL" then I else F;
    if |fk.tailColumns| > 1 {
      var tailAgg := TailAggName(fk.tailName, fk.tailColumns, fk.headName);
      g.AddNode(Junction(tailAgg, fk.tailName));
      AddTailConnectors(g, opt, fk, portR, tailAgg);
      tailNode, tailPort := tailAgg, Empty;
    } else {
      tailNode, tailPort := fk.tailName, At(Port(portR, GetPort(fk.tailTable, fk.tailColumns[0])));
    }
  }

  /** The loop over the head columns: one undirected connector each. */
  method AddHeadConnectors(g: Graph, opt: Options, fk: ForeignKeyEdge, portL: PortPrefix, headAgg: string)
    requires Drawable(fk) && |fk.headColumns| > 1
    requires portL == HeadPrefix(opt) && headAgg == HeadAgg(fk)
    modifies g
    ensures g.nodes == old(g.nodes)
    ensures g.edges == old(g.edges) + HeadConnectors(opt, fk)
  {
    ghost var heads := HeadConnectors(opt, fk);
    var i := 0;
    while i < |fk.headColumns|
      invariant 0 <= i <= |fk.headColumns|
      invariant g.nodes == old(g.nodes)
      invariant g.edges == old(g.edges) + heads[..i]
    {
      var p := GetPort(fk.headTable, fk.headColumns[i]);
      var e := Edge(headAgg, fk.headName, Unset, At(Port(portL, p)),
        DirNone, fk.color, Some(opt.edgeThickness), None, None, None, None);
      HeadConnectorAt(opt, fk, i);
      TakeSnoc(heads, i);
      g.AddEdge(e);
      AppendAssoc(old(g.edges), heads[..i], [e]);
      i := i + 1;
    }
  }

  /** The head half: with several head columns, the head junction and one
      undirected connector per column; returns where the summary edge
      ends. */
  method AddHeadSide(g: Graph, opt: Options, fk: ForeignKeyEdge) returns (headNode: string, headPort: PortAttr)
    requires Drawable(fk)
    modifies g
    ensures g.nodes == old(g.nodes) + (if |fk.headColumns| > 1 then [Junction(HeadAgg(fk), fk.headName)] else [])
    ensures g.edges == old(g.edges) + HeadConnectors(opt, fk)
    ensures (headNode, headPort) == HeadEnd(opt, fk)
  {
    var portL := if opt.rankdir == "RL" then F else I;
    if |fk.headColumns| > 1 {
      var headAgg := HeadAggName(fk.tailName, fk.headName, fk.tailColumns);
      g.AddNode(Junction(headAgg, fk.headName));
      AddHeadConnectors(g, opt, fk, portL, headAgg);
      headNode, headPort := headAgg, Empty;
    } else {
      headNode, headPort := fk.headName, At(Port(portL, GetPort(fk.headTable, fk.headColumns[0])));
    }
  }

  /** `_add_foreign_key_edge(schema_graph, ...)`: the junctions, the
      connectors and the summary edge, in that order. */
  method AddForeignKeyEdge(g: Graph, opt: Options, fk: ForeignKeyEdge)
    requires Drawable(fk)
    modifies g
    ensures g.nodes == old(g.nodes) + FkNodes(fk)
    ensures g.edges == old(g.edges) + FkEdges(opt, fk)
  {
    ghost var tailJunctions := if |fk.tailColumns| > 1 then [Junction(TailAgg(fk), fk.tailName)] else [];
    ghost var headJunctions := if |fk.headColumns| > 1 then [Junction(HeadAgg(fk), fk.headName)] else [];
    ghost var tails, heads := TailConnectors(opt, fk), HeadConnectors(opt, fk);
    var tailNode, tailPort := AddTailSide(g, opt, fk);
    var headNode, headPort := AddHeadSide(g, opt, fk);
    AppendAssoc(old(g.nodes), tailJunctions, headJunctions);
    var summary := Edge(tailNode, headNode, tailPort, headPort, DirBoth, fk.color,
      Some(opt.edgeThickness), Some(fk.labelText), Some(fk.tooltip),
      Some(GetCrowfoot(fk.cardTail, opt)), Some(GetCrowfoot(fk.cardHead, opt)));
    assert summary == SummaryEdge(opt, fk);
    g.AddEdge(summary);
    AppendAssoc(old(g.edges), tails, heads);
    AppendAssoc(old(g.edges), tails + heads, [summary]);
  }

  /** Each connector is undirected. */
  lemma EachConnectorUndirected(opt: Options, fk: ForeignKeyEdge)
    requires Drawable(fk)
    ensures forall e | e in TailConnectors(opt, fk) :: e.dir == DirNone
    ensures forall e | e in HeadConnectors(opt, fk) :: e.dir == DirNone
  {
  }

  /** The connectors are all undirected. */
  lemma ConnectorsUndirected(opt: Options, fk: ForeignKeyEdge)
    requires Drawable(fk)
    ensures CountDir(TailConnectors(opt, fk) + HeadConnectors(opt, fk), DirNone)
      == |TailConnectors(opt, fk) + HeadConnectors(opt, fk)|
    ensures CountDir(TailConnectors(opt, fk) + HeadConnectors(opt, fk), DirBoth) == 0
  {
    var tails, heads := TailConnectors(opt, fk), HeadConnectors(opt, fk);
    EachConnectorUndirected(opt, fk);
    assert forall e | e in tails + heads :: e in tails || e in heads;
    CountDirUniform(tails + heads, DirNone);
    CountDirUniform(tails + heads, DirBoth);
  }

  /** One junction per side with several columns; one connector per column
      of such a side, all undirected; exactly one two-headed edge. */
  lemma FkTopology(opt: Options, fk: ForeignKeyEdge)
    requires Drawable(fk)
    ensures |FkNodes(fk)| == (if |fk.tailColumns| > 1 then 1 else 0) + (if |fk.headColumns| > 1 then 1 else 0)
    ensures |FkEdges(opt, fk)| ==
      (if |fk.tailColumns| > 1 then |fk.tailColumns| else 0)
      + (if |fk.headColumns| > 1 then |fk.headColumns| else 0) + 1
    ensures CountDir(FkEdges(opt, fk), DirBoth) == 1
    ensures CountDir(FkEdges(opt, fk), DirNone) == |FkEdges(opt, fk)| - 1
  {
    var conns := TailConnectors(opt, fk) + HeadConnectors(opt, fk);
    var summary := [SummaryEdge(opt, fk)];
    ConnectorsUndirected(opt, fk);
    CountDirUniform(summary, DirNone);
    CountDirUniform(summary, DirBoth);
    CountDirAppend(conns, summary, DirNone);
    CountDirAppend(conns, summary, DirBoth);
  }

  /** `e` joins tail column `c`'s row to the tail junction. */
  predicate JoinsTailColumn(opt: Options, fk: ForeignKeyEdge, e: Edge, c: string)
    requires HasPort(fk.tailTable, c)
  {
    e.tail == fk.tailName && e.head == TailAgg(fk) && e.tailport == At(Port(TailPrefix(opt), GetPort(fk.tailTable, c)))
  }

  /** `e` joins the head junction to head column `c`'s row. */
  predicate JoinsHeadColumn(opt: Options, fk: ForeignKeyEdge, e: Edge, c: string)
    requires HasPort(fk.headTable, c)
  {
    e.tail == HeadAgg(fk) && e.head == fk.headName && e.headport == At(Port(HeadPrefix(opt), GetPort(fk.headTable, c)))
  }

  /** With several tail columns, edge `i` joins tail column `i`. */
  lemma TailColumnJoined(opt: Options, fk: ForeignKeyEdge, i: nat)
    requires Drawable(fk) && |fk.tailColumns| > 1 && i < |fk.tailColumns|
    ensures i < |FkEdges(opt, fk)| && JoinsTailColumn(opt, fk, FkEdges(opt, fk)[i], fk.tailColumns[i])
  {
    var tails := TailConnectors(opt, fk);
    TailConnectorAt(opt, fk, i);
    assert FkEdges(opt, fk)[i] == tails[i];
  }

  /** With several tail columns, an edge that joins column `c` to the tail
      junction is one of the tail connectors, so `c` is a tail column. */
  lemma TailJoinIsColumn(opt: Options, fk: ForeignKeyEdge, c: string, e: Edge)
    requires Drawable(fk) && |fk.tailColumns| > 1 && HasPort(fk.tailTable, c)
    requires e in FkEdges(opt, fk) && JoinsTailColumn(opt, fk, e, c)
    ensures c in fk.tailColumns
  {
    var edges := FkEdges(opt, fk);
    var k :| 0 <= k < |edges| && edges[k] == e;
    var tails := TailConnectors(opt, fk);
    var heads := HeadConnectors(opt, fk);
    JunctionNamesDiffer(fk);
    EdgeOrigin(opt, fk, k);
    assert k < |tails|;
    TailConnectorAt(opt, fk, k);
    PortsInjective(fk.tailTable, c, fk.tailColumns[k]);
  }

  /** Every tail column has its connector in the log. */
  lemma TailColumnsReached(opt: Options, fk: ForeignKeyEdge)
    requires Drawable(fk) && |fk.tailColumns| > 1
    ensures forall c | c in fk.tailColumns :: exists e :: e in FkEdges(opt, fk) && JoinsTailColumn(opt, fk, e, c)
  {
    var edges := FkEdges(opt, fk);
    forall c | c in fk.tailColumns
      ensures exists e :: e in edges && JoinsTailColumn(opt, fk, e, c)
    {
      var i :| 0 <= i < |fk.tailColumns| && fk.tailColumns[i] == c;
      TailColumnJoined(opt, fk, i);
      assert edges[i] in edges;
    }
  }

  /** Only tail columns have a connector to the tail junction. */
  lemma OnlyTailColumnsReached(opt: Options, fk: ForeignKeyEdge)
    requires Drawable(fk) && |fk.tailColumns| > 1
    ensures forall c | HasPort(fk.tailTable, c) && (exists e :: e in FkEdges(opt, fk) && JoinsTailColumn(opt, fk, e, c))
      :: c in fk.tailColumns
  {
    var edges := FkEdges(opt, fk);
    forall c | HasPort(fk.tailTable, c) && (exists e :: e in edges && JoinsTailColumn(opt, fk, e, c))
      ensures c in fk.tailColumns
    {
      var e :| e in edges && JoinsTailColumn(opt, fk, e, c);
      TailJoinIsColumn(opt, fk, c, e);
    }
  }

  /** Every column of the tail side is reached: with one column, the
      summary edge starts at that column's row; with several, the summary
      edge starts at the tail junction, and exactly the tail columns have
      an edge from their row to that junction. */
  lemma TailSideAnchors(opt: Options, fk: ForeignKeyEdge)
    requires Drawable(fk)
    ensures |fk.tailColumns| == 1 ==>
      SummaryEdge(opt, fk).tail == fk.tailName &&
      SummaryEdge(opt, fk).tailport == At(Port(TailPrefix(opt), GetPort(fk.tailTable, fk.tailColumns[0])))
    ensures |fk.tailColumns| > 1 ==>
      && SummaryEdge(opt, fk).tail == TailAgg(fk) && SummaryEdge(opt, fk).tailport == Empty
      && forall c | HasPort(fk.tailTable, c) ::
           c in fk.tailColumns <==> (exists e :: e in FkEdges(opt, fk) && JoinsTailColumn(opt, fk, e, c))
  {
    if |fk.tailColumns| > 1 {
      TailColumnsReached(opt, fk);
      OnlyTailColumnsReached(opt, fk);
    }
  }

  /** Where edge `k` of a foreign key's log comes from, by position: a tail
      connector, a head connector, or the summary edge. */
  lemma EdgeOrigin(opt: Options, fk: ForeignKeyEdge, k: nat)
    requires Drawable(fk) && k < |FkEdges(opt, fk)|
    ensures k < |TailConnectors(opt, fk)| ==>
      FkEdges(opt, fk)[k] == TailConnectors(opt, fk)[k] && FkEdges(opt, fk)[k].tail == fk.tailName
    ensures |TailConnectors(opt, fk)| <= k < |TailConnectors(opt, fk)| + |HeadConnectors(opt, fk)| ==>
      FkEdges(opt, fk)[k] == HeadConnectors(opt, fk)[k - |TailConnectors(opt, fk)|]
      && FkEdges(opt, fk)[k].head == fk.headName
    ensures k == |TailConnectors(opt, fk)| + |HeadConnectors(opt, fk)| ==>
      FkEdges(opt, fk)[k] == SummaryEdge(opt, fk)
  {
    var tails, heads := TailConnectors(opt, fk), HeadConnectors(opt, fk);
    if k < |tails| {
      TailConnectorAt(opt, fk, k);
    } else if k < |tails| + |heads| {
      HeadConnectorAt(opt, fk, k - |tails|);
    }
  }

  /** With several head columns, the edge after the tail connectors and
      `i` head connectors joins head column `i`. */
  lemma HeadColumnJoined(opt: Options, fk: ForeignKeyEdge, i: nat)
    requires Drawable(fk) && |fk.headColumns| > 1 && i < |fk.headColumns|
    ensures |TailConnectors(opt, fk)| + i < |FkEdges(opt, fk)|
    ensures JoinsHeadColumn(opt, fk, FkEdges(opt, fk)[|TailConnectors(opt, fk)| + i], fk.headColumns[i])
  {
    var tails := TailConnectors(opt, fk);
    var heads := HeadConnectors(opt, fk);
    HeadConnectorAt(opt, fk, i);
    assert FkEdges(opt, fk)[|tails| + i] == heads[i];
  }

  /** With several head columns, an edge that joins the head junction to
      column `c` is one of the head connectors, so `c` is a head column. */
  lemma HeadJoinIsColumn(opt: Options, fk: ForeignKeyEdge, c: string, e: Edge)
    requires Drawable(fk) && |fk.headColumns| > 1 && HasPort(fk.headTable, c)
    requires e in FkEdges(opt, fk) && JoinsHeadColumn(opt, fk, e, c)
    ensures c in fk.headColumns
  {
    var edges := FkEdges(opt, fk);
    var k :| 0 <= k < |edges| && edges[k] == e;
    var tails := TailConnectors(opt, fk);
    var heads := HeadConnectors(opt, fk);
    JunctionNamesDiffer(fk);
    EdgeOrigin(opt, fk, k);
    assert |tails| <= k < |tails| + |heads|;
    HeadConnectorAt(opt, fk, k - |tails|);
    PortsInjective(fk.headTable, c, fk.headColumns[k - |tails|]);
  }

  /** Every head column has its connector in the log. */
  lemma HeadColumnsReached(opt: Options, fk: ForeignKeyEdge)
    requires Drawable(fk) && |fk.headColumns| > 1
    ensures forall c | c in fk.headColumns :: exists e :: e in FkEdges(opt, fk) && JoinsHeadColumn(opt, fk, e, c)
  {
    var edges := FkEdges(opt, fk);
    var n := |TailConnectors(opt, fk)|;
    forall c | c in fk.headColumns
      ensures exists e :: e in edges && JoinsHeadColumn(opt, fk, e, c)
    {
      var i :| 0 <= i < |fk.headColumns| && fk.headColumns[i] == c;
      HeadColumnJoined(opt, fk, i);
      assert edges[n + i] in edges;
    }
  }

  /** Only head columns have a connector from the head junction. */
  lemma OnlyHeadColumnsReached(opt: Options, fk: ForeignKeyEdge)
    requires Drawable(fk) && |fk.headColumns| > 1
    ensures forall c | HasPort(fk.headTable, c) && (exists e :: e in FkEdges(opt, fk) && JoinsHeadColumn(opt, fk, e, c))
      :: c in fk.headColumns
  {
    var edges := FkEdges(opt, fk);
    forall c | HasPort(fk.headTable, c) && (exists e :: e in edges && JoinsHeadColumn(opt, fk, e, c))
      ensures c in fk.headColumns
    {
      var e :| e in edges && JoinsHeadColumn(opt, fk, e, c);
      HeadJoinIsColumn(opt, fk, c, e);
    }
  }

  /** The mirror image for the head side. */
  lemma HeadSideAnchors(opt: Options, fk: ForeignKeyEdge)
    requires Drawable(fk)
    ensures |fk.headColumns| == 1 ==>
      SummaryEdge(opt, fk).head == fk.headName &&
      SummaryEdge(opt, fk).headport == At(Port(HeadPrefix(opt), GetPort(fk.headTable, fk.headColumns[0])))
    ensures |fk.headColumns| > 1 ==>
      && SummaryEdge(opt, fk).head == HeadAgg(fk) && SummaryEdge(opt, fk).headport == Empty
      && forall c | HasPort(fk.headTable, c) ::
           c in fk.headColumns <==> (exists e :: e in FkEdges(opt, fk) && JoinsHeadColumn(opt, fk, e, c))
  {
    if |fk.headColumns| > 1 {
      HeadColumnsReached(opt, fk);
      OnlyHeadColumnsReached(opt, fk);
    }
  }

  /** The two junctions of a foreign key never share a name. */
  lemma JunctionNamesDiffer(fk: ForeignKeyEdge)
    ensures TailAgg(fk) != HeadAgg(fk)
    ensures |TailAgg(fk)| > |fk.tailName| && |TailAgg(fk)| > |fk.headName|
    ensures |HeadAgg(fk)| > |fk.tailName| && |HeadAgg(fk)| > |fk.headName|
  {
    assert TailAgg(fk)[0] == 't' && HeadAgg(fk)[0] == 'h';
  }
}
