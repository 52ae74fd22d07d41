/** The project catalogue: the tag list, the tag filter, the date sort, the active-tag
    toggle, the "load more" window, the grid/list switch and the project modal. */
module ProjectList {

  import opened Wrappers
  import opened Text
  import opened Seqs
  import FilterBar

  /** A catalogue entry; the optional fields are absent or present. */
  datatype Project = Project(
    id: string, title: string, desc: string, tags: seq<string>,
    live: Option<string>, repo: Option<string>, date: Option<string>,
    image: Option<string>, color: Option<string>)

  datatype SortMode = ByDate | Featured
  datatype ViewMode = Grid | List

  /** Cards shown before any "load more". */
  const InitialVisible: nat := 9
  /** Cards added by one "load more" step. */
  const PageSize: nat := 6

  // ---------------------------------------------------------------- tags

  /** `projects.flatMap((p) => p.tags)`. */
  function FlatTags(ps: seq<Project>): (r: seq<string>)
    ensures forall t :: t in r <==> exists i | 0 <= i < |ps| :: t in ps[i].tags
  {
    if ps == [] then []
    else
      var rest := FlatTags(ps[1..]);
      assert forall i | 0 < i < |ps| :: ps[i] == ps[1..][i - 1];
      ps[0].tags + rest
  }

  /** `getAllTags`: every tag of every project exactly once, nothing else, in the order
      the tags first occur. */
  function AllTags(ps: seq<Project>): (r: seq<string>)
    ensures forall t :: t in r <==> exists i | 0 <= i < |ps| :: t in ps[i].tags
    ensures NoDuplicates(r)
    ensures forall i | 0 <= i < |r| :: r[i] in FlatTags(ps)
    ensures forall i, j | 0 <= i < j < |r| :: IndexOf(FlatTags(ps), r[i]) < IndexOf(FlatTags(ps), r[j])
  {
    Distinct(FlatTags(ps))
  }

  // ---------------------------------------------------------------- the tag filter

  /** `activeTags.every((t) => p.tags.includes(t))`. */
  predicate CarriesAll(active: seq<string>, p: Project) {
    forall t | t in active :: t in p.tags
  }

  function Carries(active: seq<string>): Project -> bool {
    p => CarriesAll(active, p)
  }

  /** The filter step of `filtered`: skipped when no tag is active, otherwise the projects
      carrying every active tag. */
  function FilterByTags(ps: seq<Project>, active: seq<string>): (r: seq<Project>)
    ensures active == [] ==> r == ps
    ensures active != [] ==> forall p :: p in r <==> p in ps && CarriesAll(active, p)
    ensures active != [] ==> forall p :: multiset(r)[p] == if CarriesAll(active, p) then multiset(ps)[p] else 0
    ensures IsSubsequence(r, ps)
  {
    if |active| > 0 then
      FilterIsSubsequence(ps, Carries(active));
      FilterCounts(ps, Carries(active));
      Filter(ps, Carries(active))
    else
      SubsequenceRefl(ps);
      ps
  }

  /** The length test in front of the filter changes nothing: with no active tag every
      project carries them all. */
  lemma FilterGuardRedundant(ps: seq<Project>, active: seq<string>)
    ensures FilterByTags(ps, active) == Filter(ps, Carries(active))
  {
    if active == [] {
      FilterAll(ps, Carries(active));
    }
  }

  // ---------------------------------------------------------------- the date sort

  /** `p.date || ''`. */
  function DateKey(p: Project): string {
    p.date.GetOr("")
  }

  /** Newest first: no project is followed by one with a later date string. */
  predicate SortedByDateDesc(s: seq<Project>) {
    forall i, j | 0 <= i < j < |s| :: !LexLess(DateKey(s[i]), DateKey(s[j]))
  }

  /** No project of `s` has a later date string than `k`. */
  predicate AtMost(s: seq<Project>, k: string) {
    forall y | y in s :: !LexLess(k, DateKey(y))
  }

  function HasDate(k: string): Project -> bool {
    p => DateKey(p) == k
  }

  /** Places `x` in front of the first project dated strictly before it. */
  function Insert(x: Project, r: seq<Project>): seq<Project> {
    if r == [] || LexLess(DateKey(r[0]), DateKey(x)) then [x] + r
    else [r[0]] + Insert(x, r[1..])
  }

  /** The comparator sort of `filtered` under `'date'`: `b.date.localeCompare(a.date)`
      with the stable sort of the language, spelled as an insertion sort that takes the
      projects in order. */
  function SortByDate(s: seq<Project>): seq<Project> {
    if s == [] then []
    else Insert(s[|s| - 1], SortByDate(s[..|s| - 1]))
  }

  lemma {:induction false} InsertPermutes(x: Project, r: seq<Project>)
    ensures multiset(Insert(x, r)) == multiset(r) + multiset{x}
  {
    if !(r == [] || LexLess(DateKey(r[0]), DateKey(x))) {
      InsertPermutes(x, r[1..]);
      assert r == [r[0]] + r[1..];
    }
  }

  /** In a sorted list every project is dated no later than the first one. */
  lemma SortedHead(r: seq<Project>)
    requires SortedByDateDesc(r) && r != []
    ensures AtMost(r, DateKey(r[0]))
  {
    forall y | y in r ensures !LexLess(DateKey(r[0]), DateKey(y)) {
      if y == r[0] {
        LexLessIrreflexive(DateKey(y));
      }
    }
  }

  /** A bound on the first project of a sorted list bounds all of it. */
  lemma AtMostFromHead(r: seq<Project>, k: string)
    requires SortedByDateDesc(r) && r != [] && LexLess(DateKey(r[0]), k)
    ensures forall y | y in r :: LexLess(DateKey(y), k)
  {
    SortedHead(r);
    forall y | y in r ensures LexLess(DateKey(y), k) {
      if DateKey(y) != DateKey(r[0]) {
        LexLessTotal(DateKey(y), DateKey(r[0]));
        LexLessTransitive(DateKey(y), DateKey(r[0]), k);
      }
    }
  }

  lemma {:induction false} InsertSorted(x: Project, r: seq<Project>)
    requires SortedByDateDesc(r)
    ensures SortedByDateDesc(Insert(x, r))
  {
    if r == [] {
    } else if LexLess(DateKey(r[0]), DateKey(x)) {
      AtMostFromHead(r, DateKey(x));
      var out := [x] + r;
      forall i, j | 0 <= i < j < |out| ensures !LexLess(DateKey(out[i]), DateKey(out[j])) {
        if i == 0 {
          assert out[j] in r;
          LexLessTotal(DateKey(out[j]), DateKey(x));
        } else {
          assert out[i] == r[i - 1] && out[j] == r[j - 1];
        }
      }
    } else {
      var t := Insert(x, r[1..]);
      InsertSorted(x, r[1..]);
      InsertPermutes(x, r[1..]);
      var out := [r[0]] + t;
      forall i, j | 0 <= i < j < |out| ensures !LexLess(DateKey(out[i]), DateKey(out[j])) {
        if i == 0 {
          assert out[j] in multiset(t);
          if out[j] != x {
            assert out[j] in r[1..];
            var m :| 0 <= m < |r[1..]| && r[1..][m] == out[j];
            assert r[m + 1] == out[j];
          }
        } else {
          assert out[i] == t[i - 1] && out[j] == t[j - 1];
        }
      }
    }
  }

  /** Inserting keeps the projects of each date in their order and puts `x` after the
      ones dated like it. */
  lemma {:induction false} InsertStable(x: Project, r: seq<Project>, k: string)
    requires SortedByDateDesc(r)
    ensures Filter(Insert(x, r), HasDate(k)) == Filter(r, HasDate(k)) + (if DateKey(x) == k then [x] else [])
  {
    if r == [] {
      FilterCons(x, r, HasDate(k));
    } else if LexLess(DateKey(r[0]), DateKey(x)) {
      InsertFrontStable(x, r, k);
    } else {
      SortedTail(r);
      InsertStable(x, r[1..], k);
      InsertSkipStable(x, r, k);
    }
  }

  lemma SortedTail(r: seq<Project>)
    requires SortedByDateDesc(r) && r != []
    ensures SortedByDateDesc(r[1..])
  {
    forall i, j | 0 <= i < j < |r| - 1 ensures !LexLess(DateKey(r[1..][i]), DateKey(r[1..][j])) {
      assert r[1..][i] == r[i + 1] && r[1..][j] == r[j + 1];
    }
  }

  lemma InsertFrontStable(x: Project, r: seq<Project>, k: string)
    requires SortedByDateDesc(r) && r != [] && LexLess(DateKey(r[0]), DateKey(x))
    ensures Filter(Insert(x, r), HasDate(k)) == Filter(r, HasDate(k)) + (if DateKey(x) == k then [x] else [])
  {
    FilterCons(x, r, HasDate(k));
    if DateKey(x) == k {
      NoneDatedLike(x, r);
      FilterNone(r, HasDate(k));
    }
  }

  lemma InsertSkipStable(x: Project, r: seq<Project>, k: string)
    requires r != [] && !LexLess(DateKey(r[0]), DateKey(x))
    requires Filter(Insert(x, r[1..]), HasDate(k)) == Filter(r[1..], HasDate(k)) + (if DateKey(x) == k then [x] else [])
    ensures Filter(Insert(x, r), HasDate(k)) == Filter(r, HasDate(k)) + (if DateKey(x) == k then [x] else [])
  {
    var keep := HasDate(k);
    var head := if keep(r[0]) then [r[0]] else [];
    var tail := if DateKey(x) == k then [x] else [];
    var t := Insert(x, r[1..]);
    assert Insert(x, r) == [r[0]] + t;
    FilterCons(r[0], t, keep);
    assert Filter(r, keep) == head + Filter(r[1..], keep);
    AppendAssoc(head, Filter(r[1..], keep), tail);
  }

  /** When `x` goes in front of a sorted list, no project of the list shares its date. */
  lemma NoneDatedLike(x: Project, r: seq<Project>)
    requires SortedByDateDesc(r) && r != [] && LexLess(DateKey(r[0]), DateKey(x))
    ensures forall y | y in r :: !HasDate(DateKey(x))(y)
  {
    AtMostFromHead(r, DateKey(x));
    LexLessIrreflexive(DateKey(x));
  }

  /** Sorting by date returns the same projects, newest first, and projects with the same
      date string keep their relative order. */
  lemma {:induction false} SortByDateCorrect(s: seq<Project>)
    ensures multiset(SortByDate(s)) == multiset(s)
    ensures SortedByDateDesc(SortByDate(s))
    ensures forall k :: Filter(SortByDate(s), HasDate(k)) == Filter(s, HasDate(k))
  {
    if s != [] {
      var init, last := s[..|s| - 1], s[|s| - 1];
      assert s == init + [last];
      SortByDateCorrect(init);
      InsertPermutes(last, SortByDate(init));
      InsertSorted(last, SortByDate(init));
      forall k ensures Filter(SortByDate(s), HasDate(k)) == Filter(s, HasDate(k)) {
        InsertStable(last, SortByDate(init), k);
        FilterSnoc(init, last, HasDate(k));
      }
    }
  }

  /** The `filtered` memo: a copy of the projects, filtered by the active tags, then
      sorted by date under `'date'`. */
  function Filtered(ps: seq<Project>, active: seq<string>, sort: SortMode): seq<Project> {
    var out := FilterByTags(ps, active);
    if sort == ByDate then SortByDate(out) else out
  }

  /** What the catalogue shows: under `'featured'` the filtered projects in catalogue
      order; under `'date'` the same projects newest first, ties in catalogue order. */
  lemma FilteredSpec(ps: seq<Project>, active: seq<string>, sort: SortMode)
    ensures multiset(Filtered(ps, active, sort)) == multiset(FilterByTags(ps, active))
    ensures sort == Featured ==> Filtered(ps, active, sort) == FilterByTags(ps, active)
    ensures sort == ByDate ==> SortedByDateDesc(Filtered(ps, active, sort))
    ensures forall k :: Filter(Filtered(ps, active, sort), HasDate(k)) == Filter(FilterByTags(ps, active), HasDate(k))
  {
    SortByDateCorrect(FilterByTags(ps, active));
  }

  // ---------------------------------------------------------------- the tag toggle

  function Without(t: string): string -> bool {
    x => x != t
  }

  /** The `onToggleTag` updater: removes every copy of a present tag, appends an absent
      one. */
  function ToggleTag(s: seq<string>, t: string): (r: seq<string>)
    ensures t in r <==> t !in s
    ensures forall x | x != t :: x in r <==> x in s
    ensures t !in s ==> r == s + [t]
    ensures t in s ==> IsSubsequence(r, s)
  {
    if t in s then
      FilterIsSubsequence(s, Without(t));
      Filter(s, Without(t))
    else s + [t]
  }

  /** Toggling keeps the active list free of duplicates. */
  lemma ToggleTagNoDuplicates(s: seq<string>, t: string)
    requires NoDuplicates(s)
    ensures NoDuplicates(ToggleTag(s, t))
  {
    if t in s {
      FilterNoDuplicates(s, Without(t));
    }
  }

  /** A click on the pill at position `i` of FilterBar forwards that pill's tag, and the
      toggle it triggers redraws exactly that pill in the opposite style: every pill of
      another tag keeps its style. */
  lemma PillClickToggles(tags: seq<string>, active: seq<string>, i: nat)
    requires i < |tags|
    ensures FilterBar.OnTagClick(FilterBar.Buttons(tags, active)[i]) == [tags[i]]
    ensures var after := FilterBar.Buttons(tags, ToggleTag(active, tags[i]));
      && (after[i].active <==> !FilterBar.Buttons(tags, active)[i].active)
      && forall j | 0 <= j < |tags| && tags[j] != tags[i] ::
           after[j].active == FilterBar.Buttons(tags, active)[j].active
  {
  }

  /** Toggling an absent tag twice restores the list. */
  lemma ToggleTagTwice(s: seq<string>, t: string)
    requires t !in s
    ensures ToggleTag(ToggleTag(s, t), t) == s
  {
    FilterSnoc(s, t, Without(t));
    FilterAll(s, Without(t));
  }

  /** The updaters queued by a run of `onToggle` calls, applied in call order. */
  function ApplyToggles(s: seq<string>, ts: seq<string>): seq<string> {
    if ts == [] then s else ToggleTag(ApplyToggles(s, ts[..|ts| - 1]), ts[|ts| - 1])
  }

  /** Removing a tag that occurs once shortens the list by one. */
  lemma {:induction false} RemoveOnce(s: seq<string>, t: string)
    requires NoDuplicates(s) && t in s
    ensures |Filter(s, Without(t))| == |s| - 1
  {
    assert s == [s[0]] + s[1..];
    FilterCons(s[0], s[1..], Without(t));
    if s[0] == t {
      FilterAll(s[1..], Without(t));
    } else {
      RemoveOnce(s[1..], t);
    }
  }

  /** Toggling distinct tags that are all present removes exactly those tags, one
      element each. */
  lemma {:induction false} ApplyTogglesRemoves(s: seq<string>, ts: seq<string>)
    requires NoDuplicates(s) && NoDuplicates(ts)
    requires forall x | x in ts :: x in s
    ensures forall x :: x in ApplyToggles(s, ts) <==> x in s && x !in ts
    ensures NoDuplicates(ApplyToggles(s, ts))
    ensures |ApplyToggles(s, ts)| == |s| - |ts|
  {
    if ts != [] {
      var init, last := ts[..|ts| - 1], ts[|ts| - 1];
      assert ts == init + [last];
      assert NoDuplicates(init) by {
        forall i, j | 0 <= i < j < |init| ensures init[i] != init[j] {
          assert init[i] == ts[i] && init[j] == ts[j];
        }
      }
      ApplyTogglesRemoves(s, init);
      assert last !in init;
      var r := ApplyToggles(s, init);
      ToggleTagNoDuplicates(r, last);
      RemoveOnce(r, last);
    }
  }

  /** "Clear all" toggles each active tag once, in list order; on a duplicate-free list
      the queued updaters leave no tag active. */
  lemma ClearAllEmpties(active: seq<string>)
    requires NoDuplicates(active)
    ensures ApplyToggles(active, active) == []
  {
    ApplyTogglesRemoves(active, active);
  }

  // ---------------------------------------------------------------- the window

  /** The "load more" updater `(v) => Math.min(projects.length, v + 6)`. */
  function NextVisible(total: nat, v: nat): (r: nat)
    ensures r <= total
    ensures r == total || r == v + PageSize
    ensures r <= v + PageSize
    ensures v <= total ==> v <= r
    ensures v < total ==> v < r
  {
    if total < v + PageSize then total else v + PageSize
  }

  /** `filtered.slice(0, visible)`. */
  function VisibleProjects(filtered: seq<Project>, visible: nat): (r: seq<Project>)
    ensures |r| == if visible < |filtered| then visible else |filtered|
    ensures r <= filtered
  {
    if visible < |filtered| then filtered[..visible] else filtered
  }

  /** "Load More" is offered exactly when some filtered project is not shown yet, and the
      empty state exactly when nothing is shown. */
  lemma WindowOffers(filtered: seq<Project>, visible: nat)
    ensures visible < |filtered| <==> VisibleProjects(filtered, visible) != filtered
    ensures VisibleProjects(filtered, visible) == [] <==> visible == 0 || filtered == []
  {
  }

  // ---------------------------------------------------------------- the component

  class Catalogue {
    const projects: seq<Project>
    var visible: nat
    var activeTags: seq<string>
    var view: ViewMode
    var sort: SortMode
    var selected: Option<Project>
    var isModalOpen: bool

    /** The active tags never repeat. */
    ghost predicate Valid()
      reads this
    {
      NoDuplicates(activeTags)
    }

    constructor (projects: seq<Project>)
      ensures Valid()
      ensures this.projects == projects && visible == InitialVisible && activeTags == []
      ensures view == Grid && sort == ByDate && selected == None && !isModalOpen
    {
      this.projects := projects;
      visible := InitialVisible;
      activeTags := [];
      view := Grid;
      sort := ByDate;
      selected := None;
      isModalOpen := false;
    }

    /** `tags`, the pills FilterBar draws. */
    function Tags(): seq<string>
      reads this
    {
      AllTags(projects)
    }

    function FilteredProjects(): seq<Project>
      reads this
    {
      Filtered(projects, activeTags, sort)
    }

    /** `visibleProjects`, the cards on screen. */
    function Shown(): seq<Project>
      reads this
    {
      VisibleProjects(FilteredProjects(), visible)
    }

    /** `onToggleTag(t)`. */
    method OnToggleTag(t: string)
      requires Valid()
      modifies this
      ensures Valid()
      ensures activeTags == ToggleTag(old(activeTags), t)
      ensures visible == old(visible) && view == old(view) && sort == old(sort)
      ensures selected == old(selected) && isModalOpen == old(isModalOpen)
    {
      ToggleTagNoDuplicates(activeTags, t);
      activeTags := ToggleTag(activeTags, t);
    }

    /** A click on FilterBar's pill at position `i`: `handleToggle` forwards the pill's
        tag to `onToggleTag`, and the pill then shows the opposite style. */
    method OnPillClick(i: nat)
      requires Valid() && i < |Tags()|
      modifies this
      ensures Valid()
      ensures activeTags == ToggleTag(old(activeTags), Tags()[i])
      ensures FilterBar.Buttons(Tags(), activeTags)[i].active <==> !FilterBar.Buttons(Tags(), old(activeTags))[i].active
      ensures visible == old(visible) && view == old(view) && sort == old(sort)
      ensures selected == old(selected) && isModalOpen == old(isModalOpen)
    {
      var b := FilterBar.Buttons(Tags(), activeTags)[i];
      PillClickToggles(Tags(), activeTags, i);
      OnToggleTag(FilterBar.OnTagClick(b)[0]);
    }

    /** FilterBar's "Clear all": `active.forEach(onToggle)` over the tags active when the
        button is pressed. */
    method OnClearAll()
      requires Valid()
      modifies this
      ensures Valid()
      ensures activeTags == []
      ensures visible == old(visible) && view == old(view) && sort == old(sort)
      ensures selected == old(selected) && isModalOpen == old(isModalOpen)
    {
      var active := activeTags;
      var i := 0;
      while i < |active|
        invariant 0 <= i <= |active|
        invariant Valid()
        invariant activeTags == ApplyToggles(active, active[..i])
        invariant visible == old(visible) && view == old(view) && sort == old(sort)
        invariant selected == old(selected) && isModalOpen == old(isModalOpen)
      {
        assert active[..i + 1][..i] == active[..i];
        OnToggleTag(active[i]);
        i := i + 1;
      }
      assert active[..i] == active;
      ClearAllEmpties(active);
    }

    /** The "Load More Projects" button. */
    method OnLoadMore()
      modifies this
      ensures visible == NextVisible(|projects|, old(visible))
      ensures activeTags == old(activeTags) && view == old(view) && sort == old(sort)
      ensures selected == old(selected) && isModalOpen == old(isModalOpen)
    {
      visible := NextVisible(|projects|, visible);
    }

    /** The scroll listener: near the bottom of the page it takes one "load more" step.
        The window and document measurements are inputs. */
    method OnScroll(innerHeight: int, scrollY: int, bodyHeight: int)
      modifies this
      ensures innerHeight + scrollY >= bodyHeight - 500 ==> visible == NextVisible(|projects|, old(visible))
      ensures innerHeight + scrollY < bodyHeight - 500 ==> visible == old(visible)
      ensures activeTags == old(activeTags) && view == old(view) && sort == old(sort)
      ensures selected == old(selected) && isModalOpen == old(isModalOpen)
    {
      if innerHeight + scrollY >= bodyHeight - 500 {
        OnLoadMore();
      }
    }

    /** The grid/list switch. */
    method ToggleView()
      modifies this
      ensures view == (if old(view) == Grid then List else Grid)
      ensures visible == old(visible) && activeTags == old(activeTags) && sort == old(sort)
      ensures selected == old(selected) && isModalOpen == old(isModalOpen)
    {
      view := if view == Grid then List else Grid;
    }

    /** The sort dropdown. */
    method SetSort(m: SortMode)
      modifies this
      ensures sort == m
      ensures visible == old(visible) && activeTags == old(activeTags) && view == old(view)
      ensures selected == old(selected) && isModalOpen == old(isModalOpen)
    {
      sort := m;
    }

    /** The empty state's "Clear Filters" button. */
    method ClearFilters()
      modifies this
      ensures Valid() && activeTags == []
      ensures visible == old(visible) && view == old(view) && sort == old(sort)
      ensures selected == old(selected) && isModalOpen == old(isModalOpen)
    {
      activeTags := [];
    }

    /** `handleOpenProject`. */
    method OpenProject(p: Project)
      modifies this
      ensures selected == Some(p) && isModalOpen
      ensures visible == old(visible) && activeTags == old(activeTags)
      ensures view == old(view) && sort == old(sort)
    {
      selected := Some(p);
      isModalOpen := true;
    }

    /** `handleCloseModal`, up to its timer: the modal starts fading while the project
        stays selected. */
    method CloseModal()
      modifies this
      ensures !isModalOpen && selected == old(selected)
      ensures visible == old(visible) && activeTags == old(activeTags)
      ensures view == old(view) && sort == old(sort)
    {
      isModalOpen := false;
    }

    /** The 300 ms timer `handleCloseModal` starts: it clears the selection. */
    method ModalTimerElapsed()
      modifies this
      ensures selected == None && isModalOpen == old(isModalOpen)
      ensures visible == old(visible) && activeTags == old(activeTags)
      ensures view == old(view) && sort == old(sort)
    {
      selected := None;
    }
  }

  /** Two grid/list clicks come back to the same view; closing the modal unmounts it only
      once the timer has fired. */
  method ViewAndModalScenario(ps: seq<Project>, p: Project)
  {
    var c := new Catalogue(ps);
    c.ToggleView();
    assert c.view == List;
    c.ToggleView();
    assert c.view == Grid;
    c.OpenProject(p);
    c.CloseModal();
    assert c.selected == Some(p) && !c.isModalOpen;
    c.ModalTimerElapsed();
    assert c.selected == None;
  }
}
