/** The extended JSON-table-schema document that the diagram is drawn from:
    namespaces ("datapackages") own tables ("resources"), tables own fields,
    keys, unique groups, indexes and foreign keys.

    Keys that the code reads with `in` or `.get(...)` and that behave exactly
    like an empty value when absent (`primaryKey`, `unique`, `indexes`,
    `foreignKeys`, `description`) are modelled as that empty value. */
module Schema {

  datatype Option<T> = None | Some(value: T)

  /** Python truthiness of an optional string: present and not empty. */
  predicate Truthy(o: Option<string>) {
    o.Some? && o.value != ""
  }

  /** A boolean key of the document: missing, present with JSON `null`,
      or present with a boolean. */
  datatype Flag = Missing | JsonNull | Given(value: bool)

  /** Python truthiness of a flag that is present. */
  predicate FlagTruthy(f: Flag) {
    f.Given? && f.value
  }

  /** Column-level constraints: `required` may be missing or `null`;
      `unique` is the truthiness of `constraints.get('unique')`. */
  datatype Constraints = Constraints(required: Flag, unique: bool)

  datatype Column = Column(
    name: string,
    columnType: string,
    constraints: Constraints,
    defaultValue: Option<string>,
    description: string)

  datatype UniqueGroup = UniqueGroup(fields: seq<string>)

  datatype Index = Index(
    name: string,
    definition: string,
    fields: seq<string>,
    primary: bool,
    unique: bool)

  datatype Reference = Reference(
    datapackage: string,
    resource: string,
    fields: seq<string>,
    name: Option<string>,
    labelText: Option<string>,   // the reference's `label`
    cardinalitySelf: Option<string>,
    cardinalityRef: Option<string>)

  /** A foreign key's `fields` entry is either one bare column name or a list. */
  datatype FieldList = Bare(field: string) | Listed(fields: seq<string>)

  datatype ForeignKey = ForeignKey(fields: FieldList, reference: Reference, enforced: Flag)

  datatype Table = Table(
    name: string,
    description: string,
    fields: seq<Column>,
    primaryKey: seq<string>,
    unique: seq<UniqueGroup>,
    indexes: seq<Index>,
    foreignKeys: seq<ForeignKey>)

  datatype Namespace = Namespace(datapackage: string, resources: seq<Table>)

  datatype Document = Document(
    databaseName: string,
    generationBeginTime: string,
    datapackages: seq<Namespace>)

  /** The tail column names of a foreign key, a bare string read as a one-element list. */
  function TailColumns(fk: ForeignKey): (cols: seq<string>)
    ensures fk.fields.Bare? ==> cols == [fk.fields.field]
    ensures fk.fields.Listed? ==> cols == fk.fields.fields
  {
    match fk.fields
    case Bare(f) => [f]
    case Listed(fs) => fs
  }

  /** The truthiness of `foreign_key.get('enforced', True)`: a missing key
      counts as enforced, a `null` one as not enforced. */
  predicate Enforced(fk: ForeignKey) {
    fk.enforced.Missing? || FlagTruthy(fk.enforced)
  }

  function ColumnNames(fields: seq<Column>): (names: seq<string>)
    ensures |names| == |fields|
    ensures forall i :: 0 <= i < |fields| ==> names[i] == fields[i].name
  {
    if fields == [] then [] else ColumnNames(fields[..|fields| - 1]) + [fields[|fields| - 1].name]
  }

  predicate Distinct<T(==)>(s: seq<T>) {
    forall i, j :: 0 <= i < j < |s| ==> s[i] != s[j]
  }

  /** Python's `list.index`: the position of the first occurrence. */
  function IndexOf<T(==)>(s: seq<T>, x: T): (i: nat)
    requires x in s
    ensures i < |s| && s[i] == x
    ensures forall j :: 0 <= j < i ==> s[j] != x
  {
    if s[0] == x then 0 else 1 + IndexOf(s[1..], x)
  }

  lemma IndexOfDistinct<T>(s: seq<T>, i: nat)
    requires Distinct(s) && i < |s|
    ensures IndexOf(s, s[i]) == i
  {
  }

  /** `[c for c in table['fields'] if c['name'] == name][0]`. */
  function ColumnNamed(fields: seq<Column>, name: string): (c: Column)
    requires name in ColumnNames(fields)
    ensures c in fields && c.name == name
  {
    fields[IndexOf(ColumnNames(fields), name)]
  }

  /** In a table whose column names are distinct, the column found by name
      is the only one with that name. */
  lemma ColumnNamedUnique(fields: seq<Column>, c: Column)
    requires Distinct(ColumnNames(fields)) && c in fields
    ensures c.name in ColumnNames(fields) && ColumnNamed(fields, c.name) == c
  {
    var m :| 0 <= m < |fields| && fields[m] == c;
    IndexOfDistinct(ColumnNames(fields), m);
  }
}
