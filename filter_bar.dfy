/** The tag filter bar of the project catalogue: one pill per tag, drawn active when the
    tag is among the active filters, a "Clear (n)" button and an "n filters active"
    indicator. The bar keeps no filter state of its own; it forwards clicks to its
    `onToggle` callback. */
module FilterBar {

  import opened Wrappers
  import opened Text

  /** A rendered tag pill: its tag and whether it is drawn in the active style. */
  datatype TagButton = TagButton(tag: string, active: bool)

  /** `tags.map(...)` with `isActive = active.includes(tag)`. */
  function Buttons(tags: seq<string>, active: seq<string>): (r: seq<TagButton>)
    ensures |r| == |tags|
    ensures forall i | 0 <= i < |r| :: r[i].tag == tags[i] && (r[i].active <==> tags[i] in active)
  {
    if tags == [] then []
    else [TagButton(tags[0], tags[0] in active)] + Buttons(tags[1..], active)
  }

  /** The arguments `handleToggle` hands to `onToggle` when a pill is clicked. */
  function OnTagClick(b: TagButton): seq<string> {
    [b.tag]
  }

  /** The count the button and the indicator display. */
  function CountText(active: seq<string>): string {
    NatToString(|active|)
  }

  /** "filter" for exactly one active tag, "filters" otherwise. */
  function Noun(n: nat): (r: string)
    ensures r == "filter" <==> n == 1
    ensures r == "filter" || r == "filters"
  {
    if n == 1 then "filter" else "filters"
  }

  /** The Clear button, present only while some tag is active. */
  function ClearLabel(active: seq<string>): Option<string> {
    if |active| > 0 then Some("Clear (" + CountText(active) + ")") else None
  }

  /** The indicator text, present only while some tag is active. */
  function Indicator(active: seq<string>): Option<string> {
    if |active| > 0 then Some(CountText(active) + " " + Noun(|active|) + " active") else None
  }

  /** The Clear button and the indicator appear exactly when some tag is active, and the
      count both display reads back as the number of active tags. */
  lemma ClearAndIndicatorShown(active: seq<string>)
    ensures ClearLabel(active).Some? <==> active != []
    ensures Indicator(active).Some? <==> active != []
    ensures active != [] ==>
      && ClearLabel(active) == Some("Clear (" + CountText(active) + ")")
      && Indicator(active) == Some(CountText(active) + " " + Noun(|active|) + " active")
    ensures DigitsValue(CountText(active)) == |active|
  {
    NatToStringRoundTrip(|active|);
  }
}
