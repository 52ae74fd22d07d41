# Frontier AI Studio: a verified model of the portfolio's interface logic

This project models the deterministic logic inside the Frontier AI Studio portfolio site,
a Next.js application, and proves properties of it in Dafny. It covers eight components:

- **Project catalogue** (`ProjectList`, driven by `FilterBar`): tag extraction, the
  "carries every active tag" filter, the stable newest-first date sort, the active-tag
  toggle, the "load more" window, the grid/list switch and the project modal.
- **Tag filter bar** (`FilterBar`): active pills, click forwarding, the "Clear all" loop
  and the count labels.
- **Contact form** (`ContactForm`): the unanchored `\S+@\S+\.\S+` e-mail test, the
  field rules, and how the form state changes under edits, submission, Clear and "Send
  another message".
- **Navigation bar** (`NavBar`): the active-link rule, the pill placement loop, the
  hide-on-scroll state machine, the overlay focus trap and the menu-closing rules.
- **Theme store** (`ThemeContext`): initial resolution, `setTheme`, `toggle`, and the
  mirroring into storage and into the document's `data-theme` attribute.
- **Skills** (`SkillRadar3D`, `TechnologyGrid` and their shared data): category
  grouping, the select/deselect rule, the skill-node ids and the overlay count, and the
  grid's category filter.
- **Layout containers** (`Container`, `GridContainer`, `FlexContainer`): class-name
  composition from the lookup tables, whitespace normalisation, and the truthiness-filtered
  column-class join.

Each component becomes one module. There are three shared modules:

- `Wrappers`: `Option` and `Result`.
- `Seqs`: filter, subsequence, first occurrence, and `Array.from(new Set(...))`.
- `Text`: JavaScript's whitespace set, `trim`, `replace(/\s+/g, ' ')`, `join(' ')`,
  UTF-16 length, decimal integers, and code-point order.

Code that is an expression is modelled as functions with lemmas. Components that hold
React state are modelled as classes. Each state field is a class field, and each
handler is a method whose `ensures` gives its complete new state. An asynchronous
continuation that changes modelled state (the settled `await`, the 300 ms modal timer,
an animation frame) is its own method, called after the handler that schedules it.

The functions that define the behaviour (`ProjectList.SortByDate`, `Filtered`,
`ApplyToggles`, `ContactForm.ValidationErrors`, `Text.Normalize`, `NavBar.IsActive`,
`Container.GridCols`, `FlexClass`, `SkillRadar.OverlayCount` and the like) are documented
by the rows of the lemmas and methods that state their properties.

`ContactForm.SubmitFlow`, `ProjectList.ViewAndModalScenario`, `NavBar.PillMatchesHighlight`,
`NavBar.OverlayNavigation`, `ThemeContext.ReloadKeepsChoice` and `TechnologyGrid.LastClickWins`
are usage examples. Each drives a short sequence of calls and derives its outcome from
those methods' contracts alone, so they add no rows of their own.

Four behaviours of the code deserve a note:

- NavBar's keydown handler tests for Escape before it checks the length of the focusable
  list. Escape therefore closes the overlay even when the list is empty.
- The menu-closing effect depends on `[pathname]`. It closes the menu only when the
  pathname actually changes.
- `handleCloseModal`'s timer clears `selected` unconditionally. A project opened again
  within 300 ms of a close therefore loses its selection when the first timer fires.
  `ProjectList.Catalogue.ModalTimerElapsed` models this as written.
- `visible` starts at 9. With fewer than 9 projects, the first "load more" step lowers it to
  the project count (ProjectList.tsx:127 and :164). This is why `ProjectList.NextVisible`
  promises a window that does not shrink only when the window already fits the list.

## Model

| member | source | states |
|---|---|---|
| Text.Trim | src/components/contact/ContactForm.tsx:35 | `trim` leaves no whitespace at either end |
| Text.TrimIsSlice | src/components/contact/ContactForm.tsx:35-37 | `trim` returns a slice of its input and removes only whitespace, and only at the two ends |
| Text.Utf16Length | src/components/contact/ContactForm.tsx:37 | `.length` counts UTF-16 code units: at least one and at most two per code point |
| Text.NormalizeIsJoinOfWords | src/components/ui/Container.tsx:79 | `trim().replace(/\s+/g, ' ')` equals the whitespace-separated tokens of the input joined by single spaces |
| Text.NormalizeProperties | src/components/ui/Container.tsx:79 | the normalised string has no leading, trailing or doubled whitespace, uses only plain spaces, and keeps every token in order |
| Text.NormalizeIdempotent | src/components/ui/Container.tsx:280 | normalising twice gives the same string as normalising once |
| Text.JoinSpaceIsNormal | src/components/ui/Container.tsx:210 | `join(' ')` of non-empty whitespace-free tokens is normalised |
| Text.WordsOfJoinSpace | src/components/ui/Container.tsx:210 | splitting `join(' ')` of such tokens on whitespace gives those tokens back |
| Text.WordsJoin2 | src/components/ui/Container.tsx:70 | a single space between two template slots never fuses tokens: the tokens of the join are those of the left slot followed by those of the right |
| Text.IntToStringRoundTrip | src/components/ui/Container.tsx:205-209 | the decimal rendering inside `grid-cols-${n}` reads back as `n` |
| Text.IntToStringNoWhitespace | src/components/ui/Container.tsx:205-209 | a rendered integer contains no whitespace, so the column class it builds is a single token |
| Text.LexLessTotal | src/components/projects/ProjectList.tsx:141 | the date comparison orders any two different strings exactly one way |
| Text.LexLessTransitive | src/components/projects/ProjectList.tsx:141 | the date comparison is transitive |
| Seqs.Distinct | src/components/projects/ProjectList.tsx:123 | `Array.from(new Set(s))` holds the elements of `s` and no other values, each once, ordered by first occurrence |
| Seqs.FilterCounts | src/components/projects/ProjectList.tsx:139 | `filter` keeps every copy of a kept value and drops every copy of the others |
| Seqs.FilterIsSubsequence | src/components/projects/ProjectList.tsx:139 | `filter` keeps a subsequence of its input |
| ContactForm.ValidateEmail | src/components/contact/ContactForm.tsx:20 | `validateEmail(s)` holds iff `s` has an '@' preceded by a non-whitespace character and a later '.' followed by one, with only non-whitespace characters (at least one) between the two |
| ContactForm.Scan | src/components/contact/ContactForm.tsx:20 | from any automaton state that correctly describes the prefix read so far, the left-to-right scan decides the unanchored match |
| ContactForm.InDomainStep | src/components/contact/ContactForm.tsx:20 | the middle `\S+` extends by one character exactly when that character is non-whitespace and follows "X@" or the middle run |
| ContactForm.MatchedWithinStep | src/components/contact/ContactForm.tsx:20 | a match ends at the next character exactly when that character is non-whitespace and follows the pattern's '.' |
| ContactForm.Set | src/components/contact/ContactForm.tsx:29 | `{ ...s, [k]: v }` sets field `k` to `v` and leaves every other field unchanged |
| ContactForm.ErrorsFor | src/components/contact/ContactForm.tsx:33-38 | the record has an entry for each failing rule and nothing else, and each entry holds that rule's non-empty message |
| ContactForm.Validate | src/components/contact/ContactForm.tsx:33-39 | the step-by-step `err` record equals the validation errors of the form |
| ContactForm.ValidationRules | src/components/contact/ContactForm.tsx:35-37 | a name error iff the trimmed name is empty; an e-mail error iff the e-mail test fails; a message error iff the trimmed message is under 10 code units |
| ContactForm.ValidationErrorsShape | src/components/contact/ContactForm.tsx:33-39 | validation never sets `submit`; only the three required fields can fail, each with its own message |
| ContactForm.OptionalFieldsNeverFail | src/components/contact/ContactForm.tsx:33-39 | company, role, budget and timeline never produce an error |
| ContactForm.ValidIff | src/components/contact/ContactForm.tsx:43-44 | validation returns no keys iff all three required rules hold |
| ContactForm.ContactFormState.constructor | src/components/contact/ContactForm.tsx:18-26 | the form starts at `initial`, with no errors, not submitting and not submitted |
| ContactForm.ContactFormState.OnChange | src/components/contact/ContactForm.tsx:28-31 | an edit sets only field `k` and only `errors[k]`, which becomes "" and is then not displayed; everything else stays |
| ContactForm.ContactFormState.OnSubmit | src/components/contact/ContactForm.tsx:41-48 | an invalid form replaces the errors with the validation result and changes nothing else; a valid form starts submitting and keeps its fields |
| ContactForm.ContactFormState.SubmitSettled | src/components/contact/ContactForm.tsx:49-58 | success gives `submitted` and `form = initial`; failure sets only the `submit` error; either way `submitting` ends false |
| ContactForm.ContactFormState.Clear | src/components/contact/ContactForm.tsx:115 | Clear resets the fields to `initial` and leaves the errors and flags untouched |
| ContactForm.ContactFormState.SendAnother | src/components/contact/ContactForm.tsx:70 | "Send another message" clears `submitted` and changes nothing else |
| ProjectList.FlatTags | src/components/projects/ProjectList.tsx:123 | `flatMap((p) => p.tags)` contains exactly the tags of some project |
| ProjectList.AllTags | src/components/projects/ProjectList.tsx:123 | `getAllTags` holds every tag of every project and nothing else, each once, in first-occurrence order |
| ProjectList.FilterByTags | src/components/projects/ProjectList.tsx:137-140 | with no active tag every project is kept; otherwise exactly the projects carrying every active tag, each with all its copies; always a subsequence of the input |
| ProjectList.FilterGuardRedundant | src/components/projects/ProjectList.tsx:138-140 | the `activeTags.length` guard changes nothing: the plain `every` filter gives the same list |
| ProjectList.InsertPermutes | src/components/projects/ProjectList.tsx:141 | one insertion step adds exactly one project |
| ProjectList.InsertSorted | src/components/projects/ProjectList.tsx:141 | one insertion step keeps a newest-first list newest-first |
| ProjectList.InsertStable | src/components/projects/ProjectList.tsx:141 | one insertion step keeps projects with equal dates in order and places the new one after them |
| ProjectList.SortByDateCorrect | src/components/projects/ProjectList.tsx:141 | the date sort is a permutation, its dates (missing read as '') are non-increasing, and it is stable |
| ProjectList.FilteredSpec | src/components/projects/ProjectList.tsx:136-143 | `filtered` is a permutation of the tag-filtered list: unchanged under 'featured', newest first and stable under 'date' |
| ProjectList.ToggleTag | src/components/projects/ProjectList.tsx:148 | an absent tag is appended at the end; a present tag is removed with every copy, keeping the rest as a subsequence in order; no other tag's presence changes |
| ProjectList.ToggleTagNoDuplicates | src/components/projects/ProjectList.tsx:147-149 | toggling keeps the active tags free of duplicates |
| ProjectList.PillClickToggles | src/components/projects/FilterBar.tsx:38-66 | the pill at position i forwards its own tag, and the toggle of that tag flips that pill's style and no other tag's pill |
| ProjectList.ToggleTagTwice | src/components/projects/ProjectList.tsx:148 | toggling an absent tag twice restores the list exactly |
| ProjectList.RemoveOnce | src/components/projects/ProjectList.tsx:148 | removing a tag that appears once shortens the list by one |
| ProjectList.ApplyTogglesRemoves | src/components/projects/ProjectList.tsx:148 | toggling distinct present tags in sequence removes exactly those tags and keeps the list duplicate-free |
| ProjectList.ClearAllEmpties | src/components/projects/FilterBar.tsx:144 | applying the toggle updater once per tag of a duplicate-free active list, in order, yields `[]` |
| ProjectList.NextVisible | src/components/projects/ProjectList.tsx:164 | the next window is exactly `min(projects.length, v + 6)`: at most the project count, at most six more than before, equal to one of the two, never smaller than a window within the count, and larger while projects remain |
| ProjectList.VisibleProjects | src/components/projects/ProjectList.tsx:145 | the shown projects are the first `min(visible, \|filtered\|)` of `filtered` |
| ProjectList.WindowOffers | src/components/projects/ProjectList.tsx:243-257 | "Load More" appears iff some filtered project is hidden; the empty state appears iff nothing is shown |
| ProjectList.Catalogue.constructor | src/components/projects/ProjectList.tsx:126-132 | the initial state: 9 visible, no active tag, grid view, date sort, nothing selected, modal closed |
| ProjectList.Catalogue.OnToggleTag | src/components/projects/ProjectList.tsx:147-149 | the active tags become the toggle of the old ones, stay duplicate-free, and nothing else changes |
| ProjectList.Catalogue.OnPillClick | src/components/projects/FilterBar.tsx:20-39 | a pill click toggles that pill's tag in the active list, flips the pill's style, keeps the list duplicate-free, and changes nothing else |
| ProjectList.Catalogue.OnClearAll | src/components/projects/FilterBar.tsx:144 | the loop that calls `onToggle` for each active tag leaves no tag active and changes nothing else |
| ProjectList.Catalogue.OnLoadMore | src/components/projects/ProjectList.tsx:261 | the button takes one capped step of the window and changes nothing else |
| ProjectList.Catalogue.OnScroll | src/components/projects/ProjectList.tsx:161-166 | within 500 px of the page bottom the window takes one capped step; otherwise nothing changes |
| ProjectList.Catalogue.ToggleView | src/components/projects/ProjectList.tsx:201 | the view alternates between grid and list; nothing else changes |
| ProjectList.Catalogue.SetSort | src/components/projects/ProjectList.tsx:183 | the dropdown sets the sort mode and nothing else |
| ProjectList.Catalogue.ClearFilters | src/components/projects/ProjectList.tsx:250 | "Clear Filters" empties the active tags and nothing else |
| ProjectList.Catalogue.OpenProject | src/components/projects/ProjectList.tsx:151-154 | opening selects the project and opens the modal |
| ProjectList.Catalogue.CloseModal | src/components/projects/ProjectList.tsx:156-157 | closing first only closes the modal; the selection stays |
| ProjectList.Catalogue.ModalTimerElapsed | src/components/projects/ProjectList.tsx:158 | the timer then clears the selection and nothing else |
| FilterBar.Buttons | src/components/projects/FilterBar.tsx:59-60 | one pill per tag, in order; a pill is active iff its tag is in `active` |
| FilterBar.Noun | src/components/projects/FilterBar.tsx:193 | the label reads "filter" iff exactly one tag is active, and "filters" otherwise |
| FilterBar.ClearAndIndicatorShown | src/components/projects/FilterBar.tsx:142-193 | the Clear button and the indicator appear iff some tag is active; the count they show reads back as `active.length` |
| NavBar.CurrentPath | src/components/NavBar.tsx:18 | a missing or empty pathname reads as "/"; any other is kept as is |
| NavBar.ActiveRule | src/components/NavBar.tsx:263-264 | home is active only on exactly "/"; any other link is active iff it is a raw string prefix of the path, so "/projects" matches "/projectsX" |
| NavBar.LinkSecondChars | src/components/NavBar.tsx:9-15 | home is "/", and the other four hrefs have the distinct second characters 'p', 's', 'a' and 'c' |
| NavBar.ActiveShape | src/components/NavBar.tsx:9-15 | an active link is home iff the path is "/"; any other active link shares its second character with the path |
| NavBar.AtMostOneActive | src/components/NavBar.tsx:9-15 | with these five links no path makes two links active |
| NavBar.PositionPill | src/components/NavBar.tsx:136-155 | the loop picks the first active link in order, and collapses the pill iff no link is active |
| NavBar.ScrollStep | src/components/NavBar.tsx:33-43 | a frame sets `scrolled` iff y > 50, hides when moving down past 100, reveals when moving up, otherwise keeps `hidden`, and stores y as `lastY` |
| NavBar.NeverHidesNearTop | src/components/NavBar.tsx:37-41 | a visible bar stays visible through any run of offsets that never exceeds 100 |
| NavBar.RunEndsAtLastOffset | src/components/NavBar.tsx:34-43 | after a run of frames `lastY` is the last offset and `scrolled` follows it |
| NavBar.FocusTrapKey | src/components/NavBar.tsx:70-93 | Escape closes the overlay; with a non-empty list, Tab on the last element wraps to the first and Shift+Tab on the first wraps to the last; every other key and position is left to the browser |
| NavBar.FocusStaysInside | src/components/NavBar.tsx:76-92 | Tab and Shift+Tab from any focusable element land on a focusable element |
| NavBar.NavBarState.constructor | src/components/NavBar.tsx:18-26 | the initial state: the current path, not scrolled, not hidden, menu closed, `lastY` 0, no frame pending |
| NavBar.NavBarState.OnScroll | src/components/NavBar.tsx:30-47 | a scroll event requests a frame iff none is pending, and changes no visible state |
| NavBar.NavBarState.Frame | src/components/NavBar.tsx:32-45 | the frame applies one scroll step and releases the pending flag |
| NavBar.NavBarState.OpenMenu | src/components/NavBar.tsx:300 | the hamburger opens the menu and changes nothing else |
| NavBar.NavBarState.CloseMenu | src/components/NavBar.tsx:330-386 | the backdrop, the logo, the close button and every overlay link close the menu and change nothing else |
| NavBar.NavBarState.Navigate | src/components/NavBar.tsx:222-224 | a change of pathname closes the menu; the same pathname leaves it as it was |
| NavBar.NavBarState.OnKeyDown | src/components/NavBar.tsx:55-101 | with the menu open a key is handled by the focus trap, and Escape closes the menu; with it closed no listener exists |
| ThemeContext.ParseTheme | src/context/ThemeContext.tsx:22 | only the exact strings "light" and "dark" are accepted as a stored theme |
| ThemeContext.ThemeNameRoundTrip | src/context/ThemeContext.tsx:21-24 | a stored theme name reads back as that theme, and only that theme's name does |
| ThemeContext.ResolveInitial | src/context/ThemeContext.tsx:18-35 | a valid stored value wins; otherwise, including after a throwing read, the theme is dark iff the system reports a dark preference, so a missing `matchMedia` gives light |
| ThemeContext.StoredChoiceWins | src/context/ThemeContext.tsx:21-25 | a stored choice is used whatever the system prefers |
| ThemeContext.Flip | src/context/ThemeContext.tsx:48 | the toggle updater always changes the theme |
| ThemeContext.ToggleParity | src/context/ThemeContext.tsx:48 | toggling twice is the identity; from light, n toggles give dark iff n is odd |
| ThemeContext.UseTheme | src/context/ThemeContext.tsx:53-57 | `useTheme` returns the provider's value, and fails with the guard's message outside a provider |
| ThemeContext.ThemeProvider.constructor | src/context/ThemeContext.tsx:16 | before mount the theme is light and the attribute is not yet set |
| ThemeContext.ThemeProvider.Persist | src/context/ThemeContext.tsx:37-45 | the effect stores the theme unless the write throws, which is swallowed, and always sets the attribute |
| ThemeContext.ThemeProvider.Mount | src/context/ThemeContext.tsx:18-35 | mount sets the resolved initial theme and leaves the attribute, and storage when writable, mirroring it; a throwing write leaves storage as it was |
| ThemeContext.ThemeProvider.SetTheme | src/context/ThemeContext.tsx:47 | `setTheme(t)` makes the theme exactly `t`; storage and attribute follow a change, nothing happens otherwise, and mirroring is preserved |
| ThemeContext.ThemeProvider.Toggle | src/context/ThemeContext.tsx:48 | `toggle` flips the theme and mirrors it into storage and the attribute |
| SkillsData.OfCategory | src/components/skills/SkillRadar3D.tsx:38 | `skills.filter((s) => s.category === c)` keeps exactly the skills of category `c`, every copy, as a subsequence |
| SkillsData.GroupsDisjoint | src/components/skills/SkillRadar3D.tsx:38 | the filters for two different categories share no skill |
| SkillsData.CategoriesWellFormed | src/data/skillsData.ts:26 | the listed categories are distinct and non-empty |
| SkillRadar.BuildGrouped | src/components/skills/SkillRadar3D.tsx:36-40 | the `forEach` builds one entry per listed category, each holding that category's skills in order |
| SkillRadar.GroupsPartition | src/components/skills/SkillRadar3D.tsx:38 | each group is a subsequence of the skills; groups are pairwise disjoint; a skill of an unlisted category is in no group; a skill is in group c iff its category is c |
| SkillRadar.ClickCategory | src/components/skills/SkillRadar3D.tsx:66 | clicking the selected category clears the selection; clicking any other selects it |
| SkillRadar.SkillNodeIds | src/components/skills/SkillRadar3D.tsx:43-55 | no nodes without a selection; otherwise one node per skill of the selected group, ids in group order |
| SkillRadar.Ids | src/components/skills/SkillRadar3D.tsx:51-54 | `list.map((s) => s.id)` has one id per skill, in order |
| SkillRadar.OverlayMatchesNodes | src/components/skills/SkillRadar3D.tsx:99-100 | the overlay count equals the number of nodes drawn; for a listed category it is the size of its group; with no selection the prompt shows and no node is drawn |
| SkillRadar.ClickTwice | src/components/skills/SkillRadar3D.tsx:66 | clicking an unselected category twice ends with no selection and no skill nodes |
| SkillRadar.SkillRadarState.constructor | src/components/skills/SkillRadar3D.tsx:33-40 | the groups are built from the data and nothing is selected |
| SkillRadar.SkillRadarState.Click | src/components/skills/SkillRadar3D.tsx:66-84 | a button or node click applies the select/deselect rule |
| TechnologyGrid.Filtered | src/components/skills/TechnologyGrid.tsx:8 | a null or empty filter shows every skill in order; filter c shows exactly the skills of category c, every copy; always a subsequence |
| TechnologyGrid.GridAgreesWithRadar | src/components/skills/TechnologyGrid.tsx:8 | for each listed category the grid's filtered list equals the radar's group |
| TechnologyGrid.TechnologyGridState.constructor | src/components/skills/TechnologyGrid.tsx:7 | the filter starts null |
| TechnologyGrid.TechnologyGridState.SelectAll | src/components/skills/TechnologyGrid.tsx:14 | "All" clears the filter so every skill is shown |
| TechnologyGrid.TechnologyGridState.SelectCategory | src/components/skills/TechnologyGrid.tsx:16 | a category button sets the filter to that category |
| Container.SizeClassIsWord | src/components/ui/Container.tsx:14-22 | every width class in the table is a single token |
| Container.GapClassIsWord | src/components/ui/Container.tsx:196-202 | every gap class is a single token other than `flex-wrap` |
| Container.DirectionClassIsWord | src/components/ui/Container.tsx:241-244 | every direction class is a single token other than `flex-wrap` |
| Container.AlignClassIsWord | src/components/ui/Container.tsx:246-251 | every alignment class is a single token other than `flex-wrap` |
| Container.JustifyClassIsWord | src/components/ui/Container.tsx:253-260 | every justification class is a single token other than `flex-wrap` |
| Container.Render | src/components/ui/Container.tsx:47-84 | the container renders a bleed wrapper iff `bleed` is true |
| Container.SizeSlotIsWord | src/components/ui/Container.tsx:59 | the size slot is always a single token |
| Container.OwnTemplateWords | src/components/ui/Container.tsx:58-61 | the container's own classes are `w-full`, the size class, the padding classes and, when centred, `mx-auto`, in that order |
| Container.SingleClasses | src/components/ui/Container.tsx:77-84 | without bleed, the one className is normalised and lists the container's own classes followed by the caller's tokens |
| Container.BleedClasses | src/components/ui/Container.tsx:64-74 | with bleed, the outer element carries `w-full` and the caller's tokens; the inner element carries only the container's own classes |
| Container.FluidOverridesSize | src/components/ui/Container.tsx:59 | `fluid` forces `max-w-none` whatever the size; otherwise the size slot is the table entry, `max-w-7xl` by default |
| Container.CenterRule | src/components/ui/Container.tsx:61 | unless `center` is false the last own class is `mx-auto`; with `center` false there is no centring class |
| Container.DefaultClasses | src/components/ui/Container.tsx:47-62 | the defaults give `max-w-7xl`, `px-6 sm:px-8 lg:px-12` and `mx-auto`, in a normalised className ending with the caller's tokens |
| Container.ColClassWords | src/components/ui/Container.tsx:205-209 | every emitted column class is a single token |
| Container.GridColsRule | src/components/ui/Container.tsx:204-210 | `gridCols` is the truthy breakpoint classes, in the order default, sm, md, lg, xl, joined by single spaces, and is normalised |
| Container.PresentOfFive | src/components/ui/Container.tsx:210 | `filter(Boolean)` on the five entries keeps the present ones in order |
| Container.PresentColEntries | src/components/ui/Container.tsx:204-210 | the filtered entries are exactly the classes of the truthy breakpoints |
| Container.ColClassesAreWords | src/components/ui/Container.tsx:204-209 | every column class in the list is a single token |
| Container.DefaultGridCols | src/components/ui/Container.tsx:191 | the default columns give `grid-cols-1 md:grid-cols-2 lg:grid-cols-3` |
| Container.ZeroColsOmitted | src/components/ui/Container.tsx:205-206 | a column count of 0 is omitted exactly as an absent one is |
| Container.GridClassWords | src/components/ui/Container.tsx:214 | the grid's className lists `grid`, the column classes, the gap class and the caller's tokens |
| Container.GridContainerClasses | src/components/ui/Container.tsx:190-218 | without bleed the grid renders one normalised className: the container's own classes, then `grid`, the column classes, the gap class and the caller's tokens |
| Container.FlexTemplateWords | src/components/ui/Container.tsx:272-279 | the multi-line template's tokens are `flex`, direction, alignment, justification, gap, `flex-wrap` when wrapping, then the caller's tokens |
| Container.FlexClassWords | src/components/ui/Container.tsx:272-280 | the flex className is normalised and holds exactly those tokens in that order |
| Container.FlexClassStable | src/components/ui/Container.tsx:280 | the flex className passes through the container's own normalisation unchanged |
| Container.FlexWrapIff | src/components/ui/Container.tsx:278 | `flex-wrap` is in the className iff `wrap` is true, provided the caller's className does not already contain it |
| Container.FlexContainerClasses | src/components/ui/Container.tsx:232-284 | without bleed the flex container renders one normalised className: the container's own classes followed by the flex tokens |

## Left out

- Animation: the GSAP tweens, the magnetic hover offsets (NavBar.tsx:188-219), the pill's
  measured position and width, and the entrance transitions are floating-point work in a
  library outside this model. For the pill, only which link it sits under is modelled.
- 3D rendering: the node positions of SkillRadar3D are trigonometric floats. Only the ids
  and the number of skill nodes are modelled.
- Browser APIs become inputs or fields. Storage is a cell plus fixed read-throws and
  write-throws flags. `matchMedia` is an optional boolean. The document attribute is a
  field. Window and page measurements are integers passed to the scroll handlers. The
  FilterBar ripple DOM nodes and the body-overflow lock are not modelled.
- Timers and `await`: each continuation is a separate method, called in the order the
  event loop would run it. Real time is not modelled.
- NavBar's 50 ms timer that focuses the first focusable element when the menu opens
  (NavBar.tsx:68) is not modelled: it moves DOM focus only, and the focus position is an
  input of the focus trap.
- ContactForm.ContactFormState.SubmitSettled: the `failed` flag stands for the `catch`
  branch. The placeholder delay in the source never rejects.
- The Send button's `disabled={submitting}` guard is not modelled as a precondition.
  OnSubmit can be called in any state.
- ThemeContext.ThemeProvider.Mount: it models the settled state after mount. The persist
  effect's brief first write of "light" before the resolved value is left out.
- ProjectList.SortByDate: `localeCompare` is modelled as code-point order. The two agree on
  the ISO-8601 strings that `toISOString` produces, but not on arbitrary strings under a
  locale collation.
- ProjectList sample data is not modelled: the dates are computed from the clock at load
  time. The catalogue is a constructor parameter.
- The FilterBar `mounted` flag only switches entrance-animation classes. The date
  formatting of the modal (`toLocaleDateString`) is not modelled.
- Strings are sequences of Unicode scalar values, so lone UTF-16 surrogates cannot be
  expressed.
- NavBar.FocusTrapKey: the position of `document.activeElement` among the focusable
  elements is an input. The DOM query that builds the list is not modelled.
- Container: the `as` element, the rest props, the SectionContainer, ArticleContainer,
  HeroContainer, CardContainer and BleedContainer variants, and the `children` are not
  modelled.
- Container column counts are integers. NaN, fractional and non-number values are not
  modelled.
- Container.FlexWrapIff: it requires that the caller's className does not already
  contain `flex-wrap`, because one passed in would appear whatever `wrap` is.
- ContactSection and ThemeToggle are not part of this model.
