/** The text `get_graph` puts on a foreign-key edge: a label showing the two
    cardinalities and the reference's own label or name, and a tooltip
    naming both ends with their columns. */
module Labels {
  import opened Schema
  import opened Text
  import opened Config

  /** The two-way arrow between the ends of a label or tooltip. */
  const Arrow: char := '\U{2194}'

  /** `'%s' % value` for an optional cardinality: an absent one prints as
      `None`. */
  function CardText(c: Option<string>): string {
    match c
    case None => "None"
    case Some(v) => v
  }

  /** The cardinality part of the label: empty unless one of the two
      cardinalities is truthy; `rankdir` `RL` puts the referenced side
      first. */
  function CardLabel(opt: Options, r: Reference): string {
    if Truthy(r.cardinalitySelf) || Truthy(r.cardinalityRef) then
      if opt.rankdir == "RL" then CardText(r.cardinalityRef) + " " + [Arrow] + " " + CardText(r.cardinalitySelf)
      else CardText(r.cardinalitySelf) + " " + [Arrow] + " " + CardText(r.cardinalityRef)
    else ""
  }

  /** `name(col1, col2)`. */
  function EndText(name: string, columns: seq<string>): string {
    name + "(" + Join(", ", columns) + ")"
  }

  /** The tooltip before the reference's label or name is appended: the
      cardinalities, then the two ends in drawing order. */
  function BaseTooltip(opt: Options, tailName: string, tailColumns: seq<string>, r: Reference): string {
    if opt.rankdir == "RL" then
      CardLabel(opt, r) + "     " + EndText(r.resource, r.fields) + " " + [Arrow] + " " + EndText(tailName, tailColumns)
    else
      CardLabel(opt, r) + "     " + EndText(tailName, tailColumns) + " " + [Arrow] + " " + EndText(r.resource, r.fields)
  }

  /** What the reference's `label` (preferred) or else its `name` appends to
      the label and to the tooltip. */
  function LabelSuffix(r: Reference): string {
    if Truthy(r.labelText) then "\n" + r.labelText.value
    else if Truthy(r.name) then "   " + r.name.value
    else ""
  }

  function TooltipSuffix(r: Reference): string {
    if Truthy(r.labelText) then "     " + r.labelText.value
    else if Truthy(r.name) then "     " + r.name.value
    else ""
  }

  /** The edge label, stripped. */
  function EdgeLabel(opt: Options, r: Reference): string {
    Strip(CardLabel(opt, r) + LabelSuffix(r))
  }

  /** The edge tooltip, stripped. */
  function EdgeTooltip(opt: Options, tailName: string, tailColumns: seq<string>, r: Reference): string {
    Strip(BaseTooltip(opt, tailName, tailColumns, r) + TooltipSuffix(r))
  }

  /** A truthy cardinality puts the arrow in the label, whatever label or
      name is appended. */
  lemma CardinalityShowsArrow(opt: Options, r: Reference)
    ensures Truthy(r.cardinalitySelf) || Truthy(r.cardinalityRef) ==> Arrow in EdgeLabel(opt, r)
  {
    if Truthy(r.cardinalitySelf) || Truthy(r.cardinalityRef) {
      var s := CardLabel(opt, r) + LabelSuffix(r);
      assert Arrow in CardLabel(opt, r);
      assert Arrow in s;
      StripKeeps(s, Arrow);
    }
  }

  /** The label shows the arrow exactly when a cardinality is truthy, when
      the appended label or name holds none. */
  lemma ArrowShowsCardinality(opt: Options, r: Reference)
    requires Arrow !in LabelSuffix(r)
    ensures Arrow in EdgeLabel(opt, r) <==> Truthy(r.cardinalitySelf) || Truthy(r.cardinalityRef)
  {
    var s := CardLabel(opt, r) + LabelSuffix(r);
    var i, j := StripSplits(s);
    CardinalityShowsArrow(opt, r);
    if !(Truthy(r.cardinalitySelf) || Truthy(r.cardinalityRef)) {
      assert s == LabelSuffix(r);
    }
  }

  /** The tooltip always contains the arrow. */
  lemma TooltipShowsArrow(opt: Options, tailName: string, tailColumns: seq<string>, r: Reference)
    ensures Arrow in EdgeTooltip(opt, tailName, tailColumns, r)
  {
    var s := BaseTooltip(opt, tailName, tailColumns, r) + TooltipSuffix(r);
    var a := EndText(tailName, tailColumns);
    var b := EndText(r.resource, r.fields);
    var prefix := if opt.rankdir == "RL" then CardLabel(opt, r) + "     " + b + " " else CardLabel(opt, r) + "     " + a + " ";
    assert s[|prefix|] == Arrow;
    StripKeeps(s, Arrow);
  }

  /** Under `LR` the tooltip names the tail end, the arrow, then the head
      end: that text survives stripping whole when the tail table's name
      does not start with whitespace, and from its first non-whitespace
      character on in any case. */
  lemma TooltipEndsInOrder(opt: Options, tailName: string, tailColumns: seq<string>, r: Reference)
    requires opt.rankdir != "RL"
    ensures Infix(LStrip(EndText(tailName, tailColumns) + " " + [Arrow] + " " + EndText(r.resource, r.fields)),
      EdgeTooltip(opt, tailName, tailColumns, r))
    ensures tailName == [] || !IsSpace(tailName[0]) ==>
      Infix(EndText(tailName, tailColumns) + " " + [Arrow] + " " + EndText(r.resource, r.fields),
        EdgeTooltip(opt, tailName, tailColumns, r))
  {
    var w := EndText(tailName, tailColumns) + " " + [Arrow] + " " + EndText(r.resource, r.fields);
    assert w[|w| - 1] == ')';
    assert BaseTooltip(opt, tailName, tailColumns, r) + TooltipSuffix(r)
      == (CardLabel(opt, r) + "     ") + w + TooltipSuffix(r);
    PieceSurvivesStrip(CardLabel(opt, r) + "     ", w, TooltipSuffix(r));
    if tailName == [] || !IsSpace(tailName[0]) {
      assert w[0] == (if tailName == [] then '(' else tailName[0]);
    }
  }

  /** Under `RL` the ends swap: the head end, the arrow, then the tail end. */
  lemma TooltipEndsReversed(opt: Options, tailName: string, tailColumns: seq<string>, r: Reference)
    requires opt.rankdir == "RL"
    ensures Infix(LStrip(EndText(r.resource, r.fields) + " " + [Arrow] + " " + EndText(tailName, tailColumns)),
      EdgeTooltip(opt, tailName, tailColumns, r))
    ensures r.resource == [] || !IsSpace(r.resource[0]) ==>
      Infix(EndText(r.resource, r.fields) + " " + [Arrow] + " " + EndText(tailName, tailColumns),
        EdgeTooltip(opt, tailName, tailColumns, r))
  {
    var w := EndText(r.resource, r.fields) + " " + [Arrow] + " " + EndText(tailName, tailColumns);
    assert w[|w| - 1] == ')';
    assert BaseTooltip(opt, tailName, tailColumns, r) + TooltipSuffix(r)
      == (CardLabel(opt, r) + "     ") + w + TooltipSuffix(r);
    PieceSurvivesStrip(CardLabel(opt, r) + "     ", w, TooltipSuffix(r));
    if r.resource == [] || !IsSpace(r.resource[0]) {
      assert w[0] == (if r.resource == [] then '(' else r.resource[0]);
    }
  }

  /** `rankdir` `RL` reads the cardinalities from the other side: its label
      is the `LR` label of the reference with the two cardinalities swapped. */
  lemma RankdirSwapsCardinalities(opt: Options, r: Reference)
    requires opt.rankdir == "RL"
    ensures CardLabel(opt, r)
      == CardLabel(opt.(rankdir := "LR"), r.(cardinalitySelf := r.cardinalityRef, cardinalityRef := r.cardinalitySelf))
  {
  }

  /** The reference's `label` takes precedence over its `name`, and goes on
      a line of its own. */
  lemma LabelBeatsName(opt: Options, r: Reference)
    requires Truthy(r.labelText)
    ensures EdgeLabel(opt, r) == Strip(CardLabel(opt, r) + "\n" + r.labelText.value)
    ensures EdgeLabel(opt, r) == EdgeLabel(opt, r.(name := None))
  {
    assert CardLabel(opt, r) + LabelSuffix(r) == CardLabel(opt, r) + "\n" + r.labelText.value;
  }

  /** A label is empty exactly when no cardinality is truthy and the
      appended label or name is blank. */
  lemma EmptyLabelIff(opt: Options, r: Reference)
    ensures EdgeLabel(opt, r) == "" <==>
      !(Truthy(r.cardinalitySelf) || Truthy(r.cardinalityRef)) && AllSpace(LabelSuffix(r))
  {
    var s := CardLabel(opt, r) + LabelSuffix(r);
    StripEmptyIff(s);
    if Truthy(r.cardinalitySelf) || Truthy(r.cardinalityRef) {
      var k := if opt.rankdir == "RL" then |CardText(r.cardinalityRef)| + 1 else |CardText(r.cardinalitySelf)| + 1;
      assert s[k] == Arrow;
      assert !IsSpace(s[k]);
    } else {
      assert s == LabelSuffix(r);
    }
  }
}
