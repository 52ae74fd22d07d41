/** The skill radar: category groups built once, a category selection toggled by clicks,
    the skill nodes of the selected group (their ids and number; their 3D positions are
    not modelled) and the overlay count. */
module SkillRadar {

  import opened Wrappers
  import opened Seqs
  import opened SkillsData

  /** `grouped` as the `grouped` memo leaves it: one entry per listed category, holding
      that category's skills. */
  ghost predicate GroupedBy(g: map<string, seq<Skill>>, cats: seq<string>, ss: seq<Skill>) {
    && g.Keys == set c | c in cats
    && forall c | c in g :: g[c] == OfCategory(ss, c)
  }

  /** The `grouped` memo: `categories.forEach((c) => (map[c] = skills.filter(...)))`. */
  method BuildGrouped(cats: seq<string>, ss: seq<Skill>) returns (g: map<string, seq<Skill>>)
    ensures GroupedBy(g, cats, ss)
  {
    g := map[];
    for i := 0 to |cats|
      invariant g.Keys == set c | c in cats[..i]
      invariant forall c | c in g :: g[c] == OfCategory(ss, c)
    {
      assert cats[..i + 1] == cats[..i] + [cats[i]];
      g := g[cats[i] := OfCategory(ss, cats[i])];
    }
    assert cats[..|cats|] == cats;
  }

  /** Each group is the skills of its category in listed order; no skill sits in two
      groups, and a skill whose category is not listed sits in none. */
  lemma GroupsPartition(g: map<string, seq<Skill>>, cats: seq<string>, ss: seq<Skill>, s: Skill)
    requires GroupedBy(g, cats, ss)
    ensures forall c | c in g :: IsSubsequence(g[c], ss)
    ensures forall c, d | c in g && d in g && c != d :: !(s in g[c] && s in g[d])
    ensures s.category !in cats ==> forall c | c in g :: s !in g[c]
    ensures forall c | c in g :: (s in g[c] <==> s in ss && s.category == c)
  {
  }

  // ---------------------------------------------------------------- selection and nodes

  /** Clicking a category selects it; clicking the selected one clears the selection. */
  function ClickCategory(selected: Option<string>, cat: string): (r: Option<string>)
    ensures selected == Some(cat) <==> r == None
    ensures selected != Some(cat) ==> r == Some(cat)
  {
    if selected == Some(cat) then None else Some(cat)
  }

  /** A selection that is set and non-empty (JavaScript truthiness of the string). */
  predicate Truthy(selected: Option<string>) {
    selected.Some? && selected.value != ""
  }

  /** `grouped[c] || []`. */
  function GroupOf(g: map<string, seq<Skill>>, c: string): seq<Skill> {
    if c in g then g[c] else []
  }

  /** The ids of `skillNodes`: none without a selection, otherwise one per skill of the
      selected group, in group order. */
  function SkillNodeIds(selected: Option<string>, g: map<string, seq<Skill>>): (r: seq<string>)
    ensures !Truthy(selected) ==> r == []
    ensures Truthy(selected) ==>
      && |r| == |GroupOf(g, selected.value)|
      && forall i | 0 <= i < |r| :: r[i] == GroupOf(g, selected.value)[i].id
  {
    if !Truthy(selected) then []
    else Ids(GroupOf(g, selected.value))
  }

  function Ids(ss: seq<Skill>): (r: seq<string>)
    ensures |r| == |ss| && forall i | 0 <= i < |r| :: r[i] == ss[i].id
  {
    if ss == [] then [] else [ss[0].id] + Ids(ss[1..])
  }

  /** The overlay: `None` for the "Select a category" prompt, otherwise
      `grouped[selectedCategory]?.length ?? 0`. */
  function OverlayCount(selected: Option<string>, g: map<string, seq<Skill>>): Option<nat> {
    if !Truthy(selected) then None
    else if selected.value in g then Some(|g[selected.value]|)
    else Some(0)
  }

  /** The overlay counts exactly the skill nodes drawn, and for a listed category that is
      the number of its skills. */
  lemma OverlayMatchesNodes(selected: Option<string>, g: map<string, seq<Skill>>, ss: seq<Skill>)
    requires GroupedBy(g, Categories, ss)
    ensures Truthy(selected) ==> OverlayCount(selected, g) == Some(|SkillNodeIds(selected, g)|)
    ensures !Truthy(selected) ==> OverlayCount(selected, g) == None && SkillNodeIds(selected, g) == []
    ensures Truthy(selected) && selected.value in Categories ==>
      OverlayCount(selected, g) == Some(|OfCategory(ss, selected.value)|)
  {
  }

  class SkillRadarState {
    const grouped: map<string, seq<Skill>>
    var selectedCategory: Option<string>

    constructor ()
      ensures GroupedBy(grouped, Categories, Skills) && selectedCategory == None
    {
      var g := BuildGrouped(Categories, Skills);
      grouped := g;
      selectedCategory := None;
    }

    /** A click on a category button or a category node. */
    method Click(cat: string)
      modifies this
      ensures selectedCategory == ClickCategory(old(selectedCategory), cat)
    {
      selectedCategory := ClickCategory(selectedCategory, cat);
    }
  }

  /** Clicking a category twice ends without a selection, unless it was the selected one
      to begin with; and then no skill node is drawn. */
  lemma ClickTwice(selected: Option<string>, cat: string, g: map<string, seq<Skill>>)
    ensures ClickCategory(ClickCategory(selected, cat), cat) == (if selected == Some(cat) then selected else None)
    ensures selected != Some(cat) ==> SkillNodeIds(ClickCategory(ClickCategory(selected, cat), cat), g) == []
  {
  }
}
