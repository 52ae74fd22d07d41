/** The technology grid: an "All" button and one button per category choose which
    skills the grid lists. */
module TechnologyGrid {

  import opened Wrappers
  import opened Seqs
  import opened SkillsData
  import SkillRadar

  /** `filter ? skills.filter((s) => s.category === filter) : skills`; an empty filter
      string is falsy and shows everything. */
  function Filtered(filter: Option<string>, ss: seq<Skill>): (r: seq<Skill>)
    ensures (filter == None || filter == Some("")) ==> r == ss
    ensures filter.Some? && filter.value != "" ==>
      forall s :: s in r <==> s in ss && s.category == filter.value
    ensures filter.Some? && filter.value != "" ==>
      forall s :: multiset(r)[s] == if s.category == filter.value then multiset(ss)[s] else 0
    ensures IsSubsequence(r, ss)
  {
    if filter.Some? && filter.value != "" then OfCategory(ss, filter.value)
    else
      SubsequenceRefl(ss);
      ss
  }

  /** For every listed category the grid shows exactly the radar's group for it. */
  lemma GridAgreesWithRadar(g: map<string, seq<Skill>>, ss: seq<Skill>, c: string)
    requires SkillRadar.GroupedBy(g, Categories, ss)
    requires c in Categories
    ensures c in g && Filtered(Some(c), ss) == g[c]
  {
    CategoriesWellFormed();
  }

  class TechnologyGridState {
    var filter: Option<string>

    constructor ()
      ensures filter == None
    {
      filter := None;
    }

    function Shown(): seq<Skill>
      reads this
    {
      Filtered(filter, Skills)
    }

    /** The "All" button. */
    method SelectAll()
      modifies this
      ensures filter == None && Shown() == Skills
    {
      filter := None;
    }

    /** A category button. */
    method SelectCategory(c: string)
      modifies this
      ensures filter == Some(c)
    {
      filter := Some(c);
    }
  }

  /** The last click decides what the grid lists. */
  method LastClickWins(t: TechnologyGridState, c: string, d: string)
    modifies t
  {
    t.SelectCategory(c);
    t.SelectAll();
    t.SelectCategory(d);
    assert t.filter == Some(d);
    t.SelectAll();
    assert t.Shown() == Skills;
  }
}
