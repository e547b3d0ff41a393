/** Crow's-foot arrow ends (`_get_crowfoot`): a cardinality token becomes
    the name of a Graphviz arrow shape. */
module Crowfoot {
  import opened Schema
  import opened Config

  /** The four cardinality tokens the code recognises. */
  predicate Recognised(card: Option<string>) {
    card.Some? && card.value in {"0..1", "1", "0..N", "1..N"}
  }

  /** `_get_crowfoot(cardinality, opt)`: never fails; `'none'` unless crow's
      feet are shown and the token is recognised. */
  function GetCrowfoot(card: Option<string>, opt: Options): (arrow: string)
    ensures arrow in {"none", "teeodot", "teetee", "crowodot", "crowtee"}
    ensures arrow != "none" <==> opt.displayCrowfoots && Recognised(card)
  {
    if !opt.displayCrowfoots then "none"
    else if card == Some("0..1") then "teeodot"
    else if card == Some("1") then "teetee"
    else if card == Some("0..N") then "crowodot"
    else if card == Some("1..N") then "crowtee"
    else "none"
  }

  /** With crow's feet shown, the four tokens get four different arrows, so
      the arrow tells the cardinality back. */
  lemma CrowfootDistinguishes(a: Option<string>, b: Option<string>, opt: Options)
    requires opt.displayCrowfoots && Recognised(a) && Recognised(b) && a != b
    ensures GetCrowfoot(a, opt) != GetCrowfoot(b, opt)
  {
  }

  /** The arrow for each token: zero-or-one, exactly one, zero-or-many,
      one-or-many. */
  lemma CrowfootTable(opt: Options)
    requires opt.displayCrowfoots
    ensures GetCrowfoot(Some("0..1"), opt) == "teeodot"
    ensures GetCrowfoot(Some("1"), opt) == "teetee"
    ensures GetCrowfoot(Some("0..N"), opt) == "crowodot"
    ensures GetCrowfoot(Some("1..N"), opt) == "crowtee"
    ensures GetCrowfoot(Some("bogus"), opt) == "none" && GetCrowfoot(None, opt) == "none"
  {
  }
}
