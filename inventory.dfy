/** The inventory pass of `get_graph`: `present_tables`, every table by
    (namespace, name), and `tables_with_edges`, every table at either end of
    some foreign key. */
module Inventory {
  import opened Schema

  /** A table's identity across the document: (namespace, table name). */
  type TableKey = (string, string)

  /** The table a foreign key points at. */
  function RefKey(fk: ForeignKey): TableKey {
    (fk.reference.datapackage, fk.reference.resource)
  }

  /** `present_tables` after the tables `ts` of namespace `ns` were added to
      `m`; a later table with the same name overwrites an earlier one. */
  function PresentIn(m: map<TableKey, Table>, ns: string, ts: seq<Table>): map<TableKey, Table> {
    if ts == [] then m
    else PresentIn(m, ns, ts[..|ts| - 1])[(ns, ts[|ts| - 1].name) := ts[|ts| - 1]]
  }

  /** `present_tables` after the namespaces `nss`. */
  function Present(nss: seq<Namespace>): map<TableKey, Table> {
    if nss == [] then map[]
    else PresentIn(Present(nss[..|nss| - 1]), nss[|nss| - 1].datapackage, nss[|nss| - 1].resources)
  }

  /** The edges one table contributes to `tables_with_edges`: itself and
      every referenced table, for each of its foreign keys. */
  function TableEndpoints(ns: string, name: string, fks: seq<ForeignKey>): set<TableKey> {
    if fks == [] then {}
    else TableEndpoints(ns, name, fks[..|fks| - 1]) + {(ns, name), RefKey(fks[|fks| - 1])}
  }

  function EndpointsIn(ns: string, ts: seq<Table>): set<TableKey> {
    if ts == [] then {}
    else EndpointsIn(ns, ts[..|ts| - 1]) + TableEndpoints(ns, ts[|ts| - 1].name, ts[|ts| - 1].foreignKeys)
  }

  /** `tables_with_edges`. */
  function Endpoints(nss: seq<Namespace>): set<TableKey> {
    if nss == [] then {}
    else Endpoints(nss[..|nss| - 1]) + EndpointsIn(nss[|nss| - 1].datapackage, nss[|nss| - 1].resources)
  }

  /** Table `t` of namespace `ns` has an edge at table `key`: `key` is `t`
      itself and `t` has a foreign key, or one of `t`'s foreign keys points
      at `key`. */
  predicate Touches(ns: string, t: Table, key: TableKey) {
    || (key == (ns, t.name) && t.foreignKeys != [])
    || exists fk :: fk in t.foreignKeys && key == RefKey(fk)
  }

  lemma {:induction false} TableEndpointsIff(ns: string, name: string, fks: seq<ForeignKey>, key: TableKey)
    ensures key in TableEndpoints(ns, name, fks) <==>
      (key == (ns, name) && fks != []) || exists fk :: fk in fks && key == RefKey(fk)
  {
    if fks != [] {
      var init := fks[..|fks| - 1];
      TableEndpointsIff(ns, name, init, key);
      assert fks == init + [fks[|fks| - 1]];
      if key == RefKey(fks[|fks| - 1]) {
        assert fks[|fks| - 1] in fks;
      }
    }
  }

  lemma {:induction false} EndpointsInIff(ns: string, ts: seq<Table>, key: TableKey)
    ensures key in EndpointsIn(ns, ts) <==> exists t :: t in ts && Touches(ns, t, key)
  {
    if ts != [] {
      var init := ts[..|ts| - 1];
      var last := ts[|ts| - 1];
      EndpointsInIff(ns, init, key);
      TableEndpointsIff(ns, last.name, last.foreignKeys, key);
      assert ts == init + [last];
      assert last in ts;
    }
  }

  /** A table is in `tables_with_edges` exactly when some table of some
      namespace has an edge at it. */
  lemma {:induction false} EndpointsIff(nss: seq<Namespace>, key: TableKey)
    ensures key in Endpoints(nss) <==>
      exists n, t :: n in nss && t in n.resources && Touches(n.datapackage, t, key)
  {
    if nss != [] {
      var init := nss[..|nss| - 1];
      var last := nss[|nss| - 1];
      EndpointsIff(init, key);
      EndpointsInIff(last.datapackage, last.resources, key);
      assert nss == init + [last];
      assert last in nss;
    }
  }

  lemma {:induction false} PresentInKeys(m: map<TableKey, Table>, ns: string, ts: seq<Table>, key: TableKey)
    ensures key in PresentIn(m, ns, ts) <==> key in m || exists t :: t in ts && key == (ns, t.name)
    ensures key in PresentIn(m, ns, ts) ==>
      (key in m && PresentIn(m, ns, ts)[key] == m[key]) || (PresentIn(m, ns, ts)[key] in ts && key == (ns, PresentIn(m, ns, ts)[key].name))
  {
    if ts != [] {
      var init := ts[..|ts| - 1];
      PresentInKeys(m, ns, init, key);
      assert ts == init + [ts[|ts| - 1]];
    }
  }

  /** A table is present exactly when some namespace lists it, and the table
      recorded under a key is one that namespace lists under that name. */
  lemma {:induction false} PresentKeys(nss: seq<Namespace>, key: TableKey)
    ensures key in Present(nss) <==> exists n, t :: n in nss && t in n.resources && key == (n.datapackage, t.name)
    ensures key in Present(nss) ==>
      exists n :: n in nss && Present(nss)[key] in n.resources && key == (n.datapackage, Present(nss)[key].name)
  {
    if nss != [] {
      var init := nss[..|nss| - 1];
      var last := nss[|nss| - 1];
      PresentKeys(init, key);
      PresentInKeys(Present(init), last.datapackage, last.resources, key);
      assert nss == init + [last];
      assert last in nss;
    }
  }

  /** The last table listed under a name wins: a duplicate name in one
      namespace overwrites the earlier entry rather than being rejected. */
  lemma {:induction false} LaterTableWins(m: map<TableKey, Table>, ns: string, ts: seq<Table>, j: nat)
    requires j < |ts|
    requires forall l :: j < l < |ts| ==> ts[l].name != ts[j].name
    ensures (ns, ts[j].name) in PresentIn(m, ns, ts) && PresentIn(m, ns, ts)[(ns, ts[j].name)] == ts[j]
  {
    var init := ts[..|ts| - 1];
    if j < |ts| - 1 {
      LaterTableWins(m, ns, init, j);
    }
  }

  /** Filling the inventory from one table's foreign keys. */
  method MarkForeignKeys(withEdges: set<TableKey>, ns: string, t: Table) returns (r: set<TableKey>)
    ensures r == withEdges + TableEndpoints(ns, t.name, t.foreignKeys)
  {
    r := withEdges;
    var k := 0;
    while k < |t.foreignKeys|
      invariant 0 <= k <= |t.foreignKeys|
      invariant r == withEdges + TableEndpoints(ns, t.name, t.foreignKeys[..k])
    {
      var reference := t.foreignKeys[k].reference;
      r := r + {(ns, t.name)};
      r := r + {(reference.datapackage, reference.resource)};
      assert t.foreignKeys[..k + 1][..k] == t.foreignKeys[..k];
      k := k + 1;
    }
    assert t.foreignKeys[..k] == t.foreignKeys;
  }

  /** The inventory pass over one namespace. */
  method InventoryNamespace(present: map<TableKey, Table>, withEdges: set<TableKey>, n: Namespace)
    returns (present': map<TableKey, Table>, withEdges': set<TableKey>)
    ensures present' == PresentIn(present, n.datapackage, n.resources)
    ensures withEdges' == withEdges + EndpointsIn(n.datapackage, n.resources)
  {
    present', withEdges' := present, withEdges;
    var j := 0;
    while j < |n.resources|
      invariant 0 <= j <= |n.resources|
      invariant present' == PresentIn(present, n.datapackage, n.resources[..j])
      invariant withEdges' == withEdges + EndpointsIn(n.datapackage, n.resources[..j])
    {
      var t := n.resources[j];
      present' := present'[(n.datapackage, t.name) := t];
      withEdges' := MarkForeignKeys(withEdges', n.datapackage, t);
      assert n.resources[..j + 1][..j] == n.resources[..j];
      j := j + 1;
    }
    assert n.resources[..j] == n.resources;
  }

  /** The inventory loop of `get_graph`. */
  method BuildInventory(nss: seq<Namespace>) returns (present: map<TableKey, Table>, withEdges: set<TableKey>)
    ensures present == Present(nss)
    ensures withEdges == Endpoints(nss)
  {
    present, withEdges := map[], {};
    var i := 0;
    while i < |nss|
      invariant 0 <= i <= |nss|
      invariant present == Present(nss[..i])
      invariant withEdges == Endpoints(nss[..i])
    {
      present, withEdges := InventoryNamespace(present, withEdges, nss[i]);
      assert nss[..i + 1][..i] == nss[..i];
      i := i + 1;
    }
    assert nss[..i] == nss;
  }
}
