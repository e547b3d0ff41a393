/** Port numbers (`_get_port`): the row of a table's record that shows a
    column. Row 0 is the title; primary-key columns follow in key order,
    then every other column in field order. */
module Ports {
  import opened Schema

  /** `[c for c in table['fields'] if c['name'] not in pk]`. */
  function NonKeyColumns(fields: seq<Column>, pk: seq<string>): (r: seq<Column>)
    ensures |r| <= |fields|
    ensures forall c :: c in r <==> c in fields && c.name !in pk
  {
    if fields == [] then []
    else
      var init := fields[..|fields| - 1];
      var last := fields[|fields| - 1];
      assert fields == init + [last];
      if last.name in pk then NonKeyColumns(init, pk) else NonKeyColumns(init, pk) + [last]
  }

  /** Filtering keeps field names distinct. */
  lemma {:induction false} NonKeyColumnsDistinct(fields: seq<Column>, pk: seq<string>)
    requires Distinct(ColumnNames(fields))
    ensures Distinct(ColumnNames(NonKeyColumns(fields, pk)))
  {
    if fields != [] {
      var init := fields[..|fields| - 1];
      var last := fields[|fields| - 1];
      var r := NonKeyColumns(init, pk);
      assert Distinct(ColumnNames(init)) by {
        forall i, j | 0 <= i < j < |init| ensures ColumnNames(init)[i] != ColumnNames(init)[j] {
          assert ColumnNames(fields)[i] != ColumnNames(fields)[j];
        }
      }
      NonKeyColumnsDistinct(init, pk);
      if last.name !in pk {
        forall c | c in r ensures c.name != last.name {
          var m :| 0 <= m < |init| && init[m] == c;
          assert ColumnNames(fields)[m] != ColumnNames(fields)[|fields| - 1];
        }
        var rn := ColumnNames(r + [last]);
        forall i, j | 0 <= i < j < |rn| ensures rn[i] != rn[j] {
          if j == |rn| - 1 {
            assert (r + [last])[i] in r;
          } else {
            assert ColumnNames(r)[i] != ColumnNames(r)[j];
          }
        }
      }
    }
  }

  /** The non-key column names, in field order. */
  function NonKeyNames(t: Table): seq<string> {
    ColumnNames(NonKeyColumns(t.fields, t.primaryKey))
  }

  /** `_get_port` returns instead of raising `ValueError`: the name is a key
      column or a non-key field. */
  predicate HasPort(t: Table, c: string) {
    c in t.primaryKey || c in NonKeyNames(t)
  }

  /** The number of ports a table's columns occupy. */
  function PortCount(t: Table): nat {
    |t.primaryKey| + |NonKeyNames(t)|
  }

  /** The column name shown on row `k`: the inverse of `GetPort`. */
  function ColumnAtPort(t: Table, k: nat): string
    requires 1 <= k <= PortCount(t)
  {
    if k <= |t.primaryKey| then t.primaryKey[k - 1] else NonKeyNames(t)[k - |t.primaryKey| - 1]
  }

  /** `_get_port(table, column)`. Key columns take the ports up to `|pk|`,
      the rest the ports after them, and the port gives the column back. */
  function GetPort(t: Table, c: string): (p: nat)
    requires HasPort(t, c)
    ensures 1 <= p <= PortCount(t)
    ensures p <= |t.primaryKey| <==> c in t.primaryKey
    ensures ColumnAtPort(t, p) == c
  {
    if c in t.primaryKey then IndexOf(t.primaryKey, c) + 1
    else |t.primaryKey| + IndexOf(NonKeyNames(t), c) + 1
  }

  /** Distinct field names; a duplicate-free primary key naming only fields. */
  predicate WellFormedKeys(t: Table) {
    && Distinct(ColumnNames(t.fields))
    && Distinct(t.primaryKey)
    && forall c :: c in t.primaryKey ==> c in ColumnNames(t.fields)
  }

  lemma {:induction false} DistinctCard<T>(s: seq<T>)
    requires Distinct(s)
    ensures |set x | x in s| == |s|
  {
    if s != [] {
      var init := s[..|s| - 1];
      assert Distinct(init);
      DistinctCard(init);
      assert (set x | x in s) == (set x | x in init) + {s[|s| - 1]};
    }
  }

  lemma NameOfField(fields: seq<Column>, c: Column)
    requires c in fields
    ensures c.name in ColumnNames(fields)
  {
    var m :| 0 <= m < |fields| && fields[m] == c;
    assert ColumnNames(fields)[m] == c.name;
  }

  /** The non-key names are the field names that are not key names. */
  lemma NonKeyNameSet(t: Table)
    ensures (set x | x in NonKeyNames(t)) == (set x | x in ColumnNames(t.fields)) - (set x | x in t.primaryKey)
  {
    var names := ColumnNames(t.fields);
    var nk := NonKeyColumns(t.fields, t.primaryKey);
    var nkNames := NonKeyNames(t);
    forall x | x in nkNames ensures x in names && x !in t.primaryKey {
      var j :| 0 <= j < |nkNames| && nkNames[j] == x;
      assert nk[j] in nk;
      NameOfField(t.fields, nk[j]);
    }
    forall x | x in names && x !in t.primaryKey ensures x in nkNames {
      var m :| 0 <= m < |names| && names[m] == x;
      assert t.fields[m] in nk;
      NameOfField(nk, t.fields[m]);
    }
  }

  /** With well-formed keys, the ports cover exactly the columns. */
  lemma PortCountIsColumnCount(t: Table)
    requires WellFormedKeys(t)
    ensures PortCount(t) == |t.fields|
  {
    var all := set x | x in ColumnNames(t.fields);
    var keys := set x | x in t.primaryKey;
    var rest := set x | x in NonKeyNames(t);
    DistinctCard(ColumnNames(t.fields));
    DistinctCard(t.primaryKey);
    NonKeyColumnsDistinct(t.fields, t.primaryKey);
    DistinctCard(NonKeyNames(t));
    NonKeyNameSet(t);
    assert keys <= all;
    assert |rest| == |all| - |keys|;
  }

  /** Every field name has a port. */
  lemma FieldHasPort(t: Table, c: string)
    requires c in ColumnNames(t.fields)
    ensures HasPort(t, c)
  {
    if c !in t.primaryKey {
      var nk := NonKeyColumns(t.fields, t.primaryKey);
      var m :| 0 <= m < |t.fields| && ColumnNames(t.fields)[m] == c;
      assert t.fields[m] in nk;
      NameOfField(nk, t.fields[m]);
    }
  }

  /** Every port in range names a field, whose port it is. */
  lemma PortNamesField(t: Table, k: nat)
    requires WellFormedKeys(t) && 1 <= k <= PortCount(t)
    ensures ColumnAtPort(t, k) in ColumnNames(t.fields) && HasPort(t, ColumnAtPort(t, k))
    ensures GetPort(t, ColumnAtPort(t, k)) == k
  {
    var pk := t.primaryKey;
    var c := ColumnAtPort(t, k);
    if k <= |pk| {
      IndexOfDistinct(pk, k - 1);
    } else {
      var nk := NonKeyColumns(t.fields, pk);
      var j := k - |pk| - 1;
      assert c == NonKeyNames(t)[j];
      assert NonKeyNames(t)[j] == nk[j].name;
      assert nk[j] in nk;
      assert nk[j].name !in pk;
      NameOfField(t.fields, nk[j]);
      NonKeyColumnsDistinct(t.fields, pk);
      IndexOfDistinct(NonKeyNames(t), j);
    }
  }

  /** Ports are a bijection from a table's column names onto `1..|fields|`:
      every column gets a port in range, every port in range names a column,
      and the two directions undo each other. */
  lemma PortsBijection(t: Table)
    requires WellFormedKeys(t)
    ensures PortCount(t) == |t.fields|
    ensures forall c :: c in ColumnNames(t.fields) ==> HasPort(t, c) && 1 <= GetPort(t, c) <= |t.fields|
    ensures forall k :: 1 <= k <= |t.fields| ==>
      ColumnAtPort(t, k) in ColumnNames(t.fields) && HasPort(t, ColumnAtPort(t, k)) && GetPort(t, ColumnAtPort(t, k)) == k
  {
    PortCountIsColumnCount(t);
    forall c | c in ColumnNames(t.fields) ensures HasPort(t, c) {
      FieldHasPort(t, c);
    }
    forall k | 1 <= k <= |t.fields|
      ensures ColumnAtPort(t, k) in ColumnNames(t.fields) && HasPort(t, ColumnAtPort(t, k)) && GetPort(t, ColumnAtPort(t, k)) == k
    {
      PortNamesField(t, k);
    }
  }

  /** Two columns share a port exactly when they are the same column. */
  lemma PortsInjective(t: Table, c: string, d: string)
    requires HasPort(t, c) && HasPort(t, d)
    ensures GetPort(t, c) == GetPort(t, d) <==> c == d
  {
  }
}
