/** The cells of one column row: per-cell formatting (`_format_attribute`),
    the texts shown for a column (`_get_column_display`, with its unique
    tags and combined annotation) and the row's cells with their ports
    (`_get_table_row_html`). */
module Cells {
  import opened Schema
  import opened Text
  import opened Graph

  /** A value handed to `_format_attribute`: a string, a boolean, or `None`. */
  datatype Value = Str(s: string) | Bool(b: bool) | Null

  predicate IsTruthy(v: Value) {
    match v
    case Str(s) => s != ""
    case Bool(b) => b
    case Null => false
  }

  /** `'%s' % v`. */
  function Repr(v: Value): string {
    match v
    case Str(s) => s
    case Bool(b) => if b then "True" else "False"
    case Null => "None"
  }

  /** `_format_attribute(attribute_type, attribute_value)`. The type is
      compared case-insensitively for `null` and `name`, exactly for
      `default`. Lower-casing only ASCII letters is exact here: no other
      character lower-cases to a letter of "null", "name" or "nextval(".
      A boolean under `default` would raise in the source. */
  function FormatAttribute(attrType: string, v: Value): (r: Value)
    requires attrType == "default" ==> !v.Bool?
    ensures v.Str? ==> r.Str?
    ensures LowerAscii(attrType) == "null" ==>
      r == Str(if IsTruthy(v) then "" else "<s>NULL</s>")
    ensures LowerAscii(attrType) == "name" ==> r == Str("<b>" + Repr(v) + "</b>")
    ensures attrType == "default" && v.Str? ==>
      r == (if StartsWith(LowerAscii(v.s), "nextval(") then Str("[sequence]") else v)
    ensures attrType == "default" && v.Null? ==> r == Str("")
    ensures LowerAscii(attrType) != "null" && LowerAscii(attrType) != "name" && attrType != "default" ==> r == v
  {
    var kind := LowerAscii(attrType);
    if kind == "null" then
      if IsTruthy(v) then Str("") else Str("<s>NULL</s>")
    else if kind == "name" then
      Str("<b>" + Repr(v) + "</b>")
    else if attrType == "default" then
      if v.Str? then
        if StartsWith(LowerAscii(v.s), "nextval(") then Str("[sequence]") else v
      else Str("")
    else v
  }

  /** The type is matched case-insensitively for `null` and `name`, but a
      `Default` type is not the `default` rule and leaves a sequence call as
      it is. */
  lemma FormatAttributeCase(v: Value)
    ensures FormatAttribute("NULL", v) == FormatAttribute("null", v)
    ensures FormatAttribute("Name", v) == FormatAttribute("name", v)
    ensures FormatAttribute("Default", Str("nextval('s')")) == Str("nextval('s')")
    ensures FormatAttribute("default", Str("NEXTVAL('s')")) == Str("[sequence]")
  {
    assert LowerAscii("NULL") == "null";
    assert LowerAscii("Name") == "name";
    assert LowerAscii("Default") == "default";
    assert LowerAscii("NEXTVAL('s')")[..8] == "nextval(";
  }

  /** A unique-constraint tag: `UNIQ`, or `UNIQ<group>:<position>` for a
      column of a multi-column unique group (both numbers count from 1). */
  datatype UniqueTag = Uniq | Numbered(group: nat, position: nat)

  function TagText(t: UniqueTag): string {
    match t
    case Uniq => "UNIQ"
    case Numbered(g, p) => "UNIQ" + NatToString(g) + ":" + NatToString(p)
  }

  /** The source tests `'UNIQ' not in uniques` on the texts; on tags that is
      the same test, since only `Uniq` reads `UNIQ`. */
  lemma TagTextIsUniq(t: UniqueTag)
    ensures TagText(t) == "UNIQ" <==> t == Uniq
  {
  }

  /** The tag a unique group (numbered `ordinal`) gives `column`, if any. */
  function GroupTag(g: UniqueGroup, ordinal: nat, column: string): seq<UniqueTag> {
    if column !in g.fields then []
    else if |g.fields| == 1 then [Uniq]
    else [Numbered(ordinal, IndexOf(g.fields, column) + 1)]
  }

  /** The tags of the first `n` table-level unique groups. */
  function GroupTags(groups: seq<UniqueGroup>, column: string, n: nat): seq<UniqueTag>
    requires n <= |groups|
  {
    if n == 0 then [] else GroupTags(groups, column, n - 1) + GroupTag(groups[n - 1], n, column)
  }

  /** All unique tags of a column: one per table-level group holding it,
      then `UNIQ` for a column-level `unique` unless already present. */
  function UniqueTags(groups: seq<UniqueGroup>, column: string, columnUnique: bool): seq<UniqueTag> {
    var tags := GroupTags(groups, column, |groups|);
    if Uniq !in tags && columnUnique then tags + [Uniq] else tags
  }

  lemma {:induction false} GroupTagsMembership(groups: seq<UniqueGroup>, column: string, n: nat)
    requires n <= |groups|
    ensures Uniq in GroupTags(groups, column, n) <==>
      exists i :: 0 <= i < n && groups[i].fields == [column]
    ensures forall g: nat, p: nat :: Numbered(g, p) in GroupTags(groups, column, n) <==>
      1 <= g <= n && column in groups[g - 1].fields && |groups[g - 1].fields| > 1 &&
      p == IndexOf(groups[g - 1].fields, column) + 1
  {
    if n > 0 {
      GroupTagsMembership(groups, column, n - 1);
      var last := groups[n - 1];
      assert column in last.fields && |last.fields| == 1 <==> last.fields == [column] by {
        if last.fields == [column] { assert last.fields[0] == column; }
        if column in last.fields && |last.fields| == 1 { assert last.fields == [last.fields[0]]; }
      }
    }
  }

  /** A column carries `UNIQ` exactly when it is unique on its own (a
      one-column group or a column-level `unique`), and `UNIQ<g>:<p>`
      exactly when it is the `p`-th column of the multi-column group `g`. */
  lemma UniqueTagsMembership(groups: seq<UniqueGroup>, column: string, columnUnique: bool)
    ensures Uniq in UniqueTags(groups, column, columnUnique) <==>
      columnUnique || exists i :: 0 <= i < |groups| && groups[i].fields == [column]
    ensures forall g: nat, p: nat :: Numbered(g, p) in UniqueTags(groups, column, columnUnique) <==>
      1 <= g <= |groups| && column in groups[g - 1].fields && |groups[g - 1].fields| > 1 &&
      p == IndexOf(groups[g - 1].fields, column) + 1
  {
    GroupTagsMembership(groups, column, |groups|);
  }

  /** The loop of `_get_column_display` over the table's unique groups,
      followed by the column-level check. */
  method CollectUniqueTags(groups: seq<UniqueGroup>, column: string, columnUnique: bool)
    returns (uniques: seq<UniqueTag>)
    ensures uniques == UniqueTags(groups, column, columnUnique)
  {
    uniques := [];
    var i := 0;
    while i < |groups|
      invariant 0 <= i <= |groups|
      invariant uniques == GroupTags(groups, column, i)
    {
      var fields := groups[i].fields;
      if column in fields {
        var position := IndexOf(fields, column);
        if |fields| == 1 {
          uniques := uniques + [Uniq];
        } else {
          uniques := uniques + [Numbered(i + 1, position + 1)];
        }
      }
      i := i + 1;
    }
    if Uniq !in uniques && columnUnique {
      uniques := uniques + [Uniq];
    }
  }

  function TagTexts(tags: seq<UniqueTag>): seq<string> {
    seq(|tags|, i requires 0 <= i < |tags| => TagText(tags[i]))
  }

  /** The nullability marker: present whenever the `required` key is, even
      as `null`, and then formatted from its value by the `null` rule. */
  function NullMarker(c: Constraints): seq<string> {
    match c.required
    case Missing => []
    case JsonNull => [FormatAttribute("null", Null).s]
    case Given(b) => [FormatAttribute("null", Bool(b)).s]
  }

  /** The marker is inverted: a required column gets an empty marker, a
      column whose `required` is false or `null` a struck-through `NULL`. */
  lemma NullMarkerInverted(c: Constraints)
    ensures c.required == Given(true) ==> NullMarker(c) == [""]
    ensures c.required == Given(false) ==> NullMarker(c) == ["<s>NULL</s>"]
    ensures c.required == JsonNull ==> NullMarker(c) == ["<s>NULL</s>"]
    ensures c.required.Missing? ==> NullMarker(c) == []
  {
    assert LowerAscii("null") == "null";
  }

  function DefaultText(column: Column): string {
    if column.defaultValue.Some? then "DEFAULT=" + column.defaultValue.value else ""
  }

  /** The components of the combined cell, before empty ones are dropped. */
  function CombinedParts(t: Table, column: Column): seq<string> {
    NullMarker(column.constraints)
      + [Join("; ", TagTexts(UniqueTags(t.unique, column.name, column.constraints.unique))),
         DefaultText(column),
         column.description]
  }

  /** The combined cell's text before it is wrapped at 50 characters. */
  function CombinedText(t: Table, column: Column): string {
    ReplaceNewlines(Join("; ", NonEmpty(CombinedParts(t, column))))
  }

  /** The combined text has no line breaks, and is empty exactly when every
      component is. */
  lemma CombinedTextShape(t: Table, column: Column)
    ensures '\n' !in CombinedText(t, column)
    ensures CombinedText(t, column) == "" <==> forall p :: p in CombinedParts(t, column) ==> p == ""
  {
    var kept := NonEmpty(CombinedParts(t, column));
    JoinEmptyIff("; ", kept);
    if kept != [] {
      assert kept[0] in kept;
    }
  }

  /** A default value is shown as `DEFAULT=<value>`: the `[sequence]` rule of
      `_format_attribute` is never applied to it. */
  lemma DefaultShownVerbatim(t: Table, column: Column)
    requires column.defaultValue.Some?
    ensures "DEFAULT=" + column.defaultValue.value in NonEmpty(CombinedParts(t, column))
  {
    var parts := CombinedParts(t, column);
    assert parts[|parts| - 2] == DefaultText(column);
    assert DefaultText(column) in parts;
  }

  /** What one `display` entry contributes: `name`, `type` and `combined`
      give one text, anything else gives nothing. */
  function DisplayCell(d: string, t: Table, column: Column): seq<string> {
    if d == "name" then [column.name]
    else if d == "type" then [column.columnType]
    else if d == "combined" then [CombinedText(t, column)]
    else []
  }

  predicate KnownDisplay(d: string) {
    d == "name" || d == "type" || d == "combined"
  }

  /** `_get_column_display(display, table, column)`: at most one text per
      entry. */
  function ColumnCells(display: seq<string>, t: Table, column: Column): (r: seq<string>)
    ensures |r| <= |display|
  {
    if display == [] then []
    else ColumnCells(display[..|display| - 1], t, column) + DisplayCell(display[|display| - 1], t, column)
  }

  /** When every entry is known, each entry contributes exactly its own
      text, at its own position. */
  lemma {:induction false} ColumnCellsKnown(display: seq<string>, t: Table, column: Column)
    requires forall i :: 0 <= i < |display| ==> KnownDisplay(display[i])
    ensures |ColumnCells(display, t, column)| == |display|
    ensures forall i :: 0 <= i < |display| ==> [ColumnCells(display, t, column)[i]] == DisplayCell(display[i], t, column)
  {
    if display != [] {
      var n := |display|;
      var init := display[..n - 1];
      assert forall i :: 0 <= i < |init| ==> init[i] == display[i];
      ColumnCellsKnown(init, t, column);
      var r := ColumnCells(display, t, column);
      assert r == ColumnCells(init, t, column) + DisplayCell(display[n - 1], t, column);
      forall i | 0 <= i < n
        ensures [r[i]] == DisplayCell(display[i], t, column)
      {
        if i < n - 1 {
          assert r[i] == ColumnCells(init, t, column)[i];
        }
      }
    }
  }

  lemma ColumnCellsSnoc(display: seq<string>, i: nat, t: Table, column: Column)
    requires i < |display|
    ensures ColumnCells(display[..i + 1], t, column) == ColumnCells(display[..i], t, column) + DisplayCell(display[i], t, column)
  {
    assert display[..i + 1][..i] == display[..i];
  }

  /** The `combined` branch of `_get_column_display`. */
  method CombinedCell(t: Table, column: Column) returns (text: string)
    ensures text == CombinedText(t, column)
  {
    var uniques := CollectUniqueTags(t.unique, column.name, column.constraints.unique);
    var vals := NullMarker(column.constraints)
      + [Join("; ", TagTexts(uniques)), DefaultText(column), column.description];
    text := ReplaceNewlines(Join("; ", NonEmpty(vals)));
  }

  /** The loop of `_get_column_display`. */
  method ColumnDisplay(display: seq<string>, t: Table, column: Column) returns (res: seq<string>)
    ensures res == ColumnCells(display, t, column)
  {
    res := [];
    var i := 0;
    while i < |display|
      invariant 0 <= i <= |display|
      invariant res == ColumnCells(display[..i], t, column)
    {
      var d := display[i];
      ColumnCellsSnoc(display, i, t, column);
      if d == "name" {
        res := res + [column.name];
      } else if d == "type" {
        res := res + [column.columnType];
      } else if d == "combined" {
        var text := CombinedCell(t, column);
        res := res + [text];
      }
      i := i + 1;
    }
    assert display[..i] == display;
  }

  /** The port a row's `i`-th of `n` cells carries: `i<port>` on the first,
      `f<port>` on the last, which wins when they are the same cell. */
  function CellPort(i: nat, n: nat, port: nat): Option<Port> {
    if i == n - 1 then Some(Port(F, port)) else if i == 0 then Some(Port(I, port)) else None
  }

  /** The cells `_get_table_row_html` makes from a column's texts. */
  function RowCells(display: seq<string>, port: nat, values: seq<string>): (cells: seq<Cell>)
    requires |values| <= |display|
    ensures |cells| == |values|
  {
    seq(|values|, i requires 0 <= i < |values| =>
      Cell(FormatAttribute(display[i], Str(values[i])).s, CellPort(i, |values|, port)))
  }

  /** A row offers the anchor `f<k>` when it has a cell, `i<k>` when it has
      two or more, and no anchor naming another row. */
  lemma RowAnchors(display: seq<string>, port: nat, values: seq<string>, p: PortPrefix, k: nat)
    requires |values| <= |display|
    ensures (exists i :: 0 <= i < |values| && RowCells(display, port, values)[i].port == Some(Port(p, k))) <==>
      k == port && (if p == F then |values| >= 1 else |values| >= 2)
  {
    var cells := RowCells(display, port, values);
    if k == port && p == F && |values| >= 1 {
      assert cells[|values| - 1].port == Some(Port(p, k));
    }
    if k == port && p == I && |values| >= 2 {
      assert cells[0].port == Some(Port(p, k));
    }
  }

  /** `_get_table_row_html(opt, display, port, table_cols, highlight=...)`. */
  method TableRow(display: seq<string>, port: nat, values: seq<string>, highlight: bool) returns (row: Row)
    requires |values| <= |display|
    ensures row == ColumnRow(RowCells(display, port, values), highlight)
  {
    var cells: seq<Cell> := [];
    var i := 0;
    while i < |values|
      invariant 0 <= i <= |values|
      invariant cells == RowCells(display, port, values)[..i]
    {
      var text := FormatAttribute(display[i], Str(values[i])).s;
      var anchor: Option<Port> := None;
      if i == 0 {
        anchor := Some(Port(I, port));
      }
      if i == |values| - 1 {
        anchor := Some(Port(F, port));
      }
      cells := cells + [Cell(text, anchor)];
      i := i + 1;
    }
    row := ColumnRow(cells, highlight);
  }
}
