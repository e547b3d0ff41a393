/** What the code hands to the graph library, recorded instead of drawn:
    table nodes with their structured record labels, point-shaped junction
    nodes, and edges with the attributes the code sets on them. */
module Graph {
  import opened Schema

  /** A port's letter: `i` marks a row's leftmost cell, `f` its rightmost. */
  datatype PortPrefix = I | F

  /** A port `i<row>` or `f<row>` on a table record. */
  datatype Port = Port(prefix: PortPrefix, row: nat)

  /** An edge's `tailport`/`headport` attribute: not passed, passed as `''`,
      or naming a port. */
  datatype PortAttr = Unset | Empty | At(port: Port)

  /** The `dir` attribute: not passed, `'none'` or `'both'`. */
  datatype Dir = DirUnset | DirNone | DirBoth

  /** One table cell: its text and the port it carries, if any. */
  datatype Cell = Cell(text: string, port: Option<Port>)

  /** One row of a table record: the title row (row 0), a column row (its
      cells and whether it is highlighted as a primary-key row), or the
      "Extra indexes" row listing index definitions in display order. */
  datatype Row =
    | TitleRow(title: string, comment: string)
    | ColumnRow(cells: seq<Cell>, highlight: bool)
    | IndexRow(definitions: seq<string>)

  datatype Node =
    | TableNode(name: string, rows: seq<Row>, tooltip: string)
    | Junction(name: string, id: string)

  datatype Edge = Edge(
    tail: string,
    head: string,
    tailport: PortAttr,
    headport: PortAttr,
    dir: Dir,
    color: string,
    penwidth: Option<real>,
    labelText: Option<string>,
    tooltip: Option<string>,
    arrowtail: Option<string>,
    arrowhead: Option<string>)

  /** The number of edges in `edges` whose `dir` is `d`. */
  function CountDir(edges: seq<Edge>, d: Dir): nat {
    if edges == [] then 0
    else CountDir(edges[..|edges| - 1], d) + (if edges[|edges| - 1].dir == d then 1 else 0)
  }

  lemma {:induction false} CountDirAppend(a: seq<Edge>, b: seq<Edge>, d: Dir)
    ensures CountDir(a + b, d) == CountDir(a, d) + CountDir(b, d)
    decreases |b|
  {
    if b != [] {
      assert (a + b)[..|a + b| - 1] == a + b[..|b| - 1];
      CountDirAppend(a, b[..|b| - 1], d);
    } else {
      assert a + b == a;
    }
  }

  /** Counting edges of one direction: all of them when every edge has it. */
  lemma {:induction false} CountDirUniform(edges: seq<Edge>, d: Dir)
    ensures (forall e :: e in edges ==> e.dir == d) ==> CountDir(edges, d) == |edges|
    ensures (forall e :: e in edges ==> e.dir != d) ==> CountDir(edges, d) == 0
  {
    if edges != [] {
      var init := edges[..|edges| - 1];
      assert forall e :: e in init ==> e in edges;
      assert edges[|edges| - 1] in edges;
      CountDirUniform(init, d);
    }
  }

  /** The graph object: graph-level attributes fixed at construction, and
      the nodes and edges added to it, in the order they were added. */
  class Graph {
    const name: string
    const rankdir: string
    const fontname: string
    const fontsize: int
    var nodes: seq<Node>
    var edges: seq<Edge>

    constructor (name: string, rankdir: string, fontname: string, fontsize: int)
      ensures this.name == name && this.rankdir == rankdir
      ensures this.fontname == fontname && this.fontsize == fontsize
      ensures nodes == [] && edges == []
    {
      this.name := name;
      this.rankdir := rankdir;
      this.fontname := fontname;
      this.fontsize := fontsize;
      nodes := [];
      edges := [];
    }

    method AddNode(n: Node)
      modifies this
      ensures nodes == old(nodes) + [n] && edges == old(edges)
    {
      nodes := nodes + [n];
    }

    method AddEdge(e: Edge)
      modifies this
      ensures edges == old(edges) + [e] && nodes == old(nodes)
    {
      edges := edges + [e];
    }
  }
}
