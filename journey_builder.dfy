/**
 * The journey builder dialog: toggling one check, "Select All" over a
 * category, the "already part of X" availability map, search and category
 * filtering of the catalog, the displayed price, the save rule and the
 * action a save dispatches.
 */
module JourneyBuilder {
  import opened Types
  import opened IdChecks
  import opened Text
  import opened AgreementContext

  /** Checks that ask for a multiplier when first selected. */
  const SpecialChecks: seq<string> := [
    "Highest Education*",
    "Employment & Conduct (Per check) - Last 7 years"
  ]

  datatype CheckChangeResult = CheckChangeResult(selected: Flags, promptsMultiplier: bool)

  /** `handleCheckChange`: store the flag, and ask for a multiplier when a
      special check goes from unselected to selected. */
  function CheckChange(selected: Flags, name: string, checked: bool): (r: CheckChangeResult)
    ensures forall k :: Get(r.selected, k) == if k == name then Some(checked) else Get(selected, k)
    ensures Keys(r.selected) == if name in Keys(selected) then Keys(selected) else Keys(selected) + [name]
    ensures r.promptsMultiplier <==> name in SpecialChecks && !IsOn(selected, name) && IsOn(r.selected, name)
  {
    PutGetAll(selected, name, checked);
    PutKeys(selected, name, checked);
    CheckChangeResult(Put(selected, name, checked), checked && name in SpecialChecks && !IsOn(selected, name))
  }

  /** Selecting a special check twice asks for its multiplier only once. */
  lemma PromptOnlyOnFirstSelection(selected: Flags, name: string)
    ensures !CheckChange(CheckChange(selected, name, true).selected, name, true).promptsMultiplier
  {
  }

  /** `categoryCheckNames.every(name => selectedChecks[name])`. */
  predicate AllOn(selected: Flags, names: seq<string>) {
    forall n :: n in names ==> IsOn(selected, n)
  }

  /** Storing one value under each of `names`, left to right. */
  function PutAll(selected: Flags, names: seq<string>, value: bool): Flags
  {
    if names == [] then selected
    else Put(PutAll(selected, names[..|names| - 1], value), names[|names| - 1], value)
  }

  /** `handleSelectAll`: copy the selection and set every check of the
      category to false when all were already selected, else to true. */
  method SelectAll(selected: Flags, checks: seq<Check>) returns (newSelected: Flags)
    ensures newSelected == PutAll(selected, Names(checks), !AllOn(selected, Names(checks)))
  {
    var names := Names(checks);
    var allSelected := AllOn(selected, names);
    newSelected := selected;
    var i := 0;
    while i < |names|
      invariant 0 <= i <= |names|
      invariant newSelected == PutAll(selected, names[..i], !allSelected)
    {
      PutAllStep(selected, names, i, !allSelected);
      newSelected := Put(newSelected, names[i], !allSelected);
      i := i + 1;
    }
    assert names[..|names|] == names;
  }

  lemma PutAllStep(selected: Flags, names: seq<string>, i: nat, value: bool)
    requires i < |names|
    ensures PutAll(selected, names[..i + 1], value) == Put(PutAll(selected, names[..i], value), names[i], value)
  {
    assert names[..i + 1][..i] == names[..i];
  }

  /** Storing under a list of names affects exactly those names. */
  lemma {:induction false} PutAllGet(selected: Flags, names: seq<string>, value: bool, k: string)
    ensures Get(PutAll(selected, names, value), k) == if k in names then Some(value) else Get(selected, k)
  {
    if names != [] {
      var init := names[..|names| - 1];
      PutAllGet(selected, init, value, k);
      PutGet(PutAll(selected, init, value), names[|names| - 1], value, k);
      assert names == init + [names[|names| - 1]];
    }
  }

  lemma {:induction false} PutAllDistinct(selected: Flags, names: seq<string>, value: bool)
    requires DistinctKeys(selected)
    ensures DistinctKeys(PutAll(selected, names, value))
  {
    if names != [] {
      PutAllDistinct(selected, names[..|names| - 1], value);
      PutDistinct(PutAll(selected, names[..|names| - 1], value), names[|names| - 1], value);
    }
  }

  /** "Select All" is a toggle over the category: it clears the whole
      category when every check in it was selected and selects the whole
      category otherwise; checks outside the category keep their flags. */
  lemma SelectAllToggles(selected: Flags, checks: seq<Check>, k: string)
    ensures var names := Names(checks);
      var r := PutAll(selected, names, !AllOn(selected, names));
      && (k !in names ==> Get(r, k) == Get(selected, k))
      && (k in names && AllOn(selected, names) ==> Get(r, k) == Some(false))
      && (k in names && !AllOn(selected, names) ==> Get(r, k) == Some(true))
  {
    var names := Names(checks);
    PutAllGet(selected, names, !AllOn(selected, names), k);
  }

  /** Pressing "Select All" twice on a partly selected category ends with
      the whole category cleared. */
  lemma SelectAllTwiceClears(selected: Flags, names: seq<string>)
    requires !AllOn(selected, names)
    ensures var once := PutAll(selected, names, true);
      && AllOn(once, names)
      && forall k :: k in names ==> Get(PutAll(once, names, false), k) == Some(false)
  {
    var once := PutAll(selected, names, true);
    forall k | k in names ensures IsOn(once, k) {
      PutAllGet(selected, names, true, k);
    }
    forall k | k in names ensures Get(PutAll(once, names, false), k) == Some(false) {
      PutAllGet(once, names, false, k);
    }
  }

  // ----- "Already part of X" -----

  /** Journey `j` holds `name` against the journey being edited: `j` is not
      that journey and flags `name` true. */
  predicate Blocks(j: Journey, journeyToEdit: Option<Journey>, name: string)
  {
    (journeyToEdit.None? || j.id != journeyToEdit.value.id) && (name, true) in j.selectedChecks
  }

  /** The name of the last journey, in list order, that blocks `name`. */
  function Owner(journeys: seq<Journey>, journeyToEdit: Option<Journey>, name: string): Option<string>
  {
    if journeys == [] then None
    else if Blocks(journeys[|journeys| - 1], journeyToEdit, name) then Some(journeys[|journeys| - 1].name)
    else Owner(journeys[..|journeys| - 1], journeyToEdit, name)
  }

  lemma OwnerStep(journeys: seq<Journey>, journeyToEdit: Option<Journey>, i: nat, name: string)
    requires i < |journeys|
    ensures Owner(journeys[..i + 1], journeyToEdit, name)
         == if Blocks(journeys[i], journeyToEdit, name) then Some(journeys[i].name) else Owner(journeys[..i], journeyToEdit, name)
  {
    assert journeys[..i + 1][..i] == journeys[..i];
  }

  /** There is an owner exactly when some journey blocks the name. */
  lemma {:induction false} OwnerIffBlocked(journeys: seq<Journey>, journeyToEdit: Option<Journey>, name: string)
    ensures Owner(journeys, journeyToEdit, name).Some? <==>
      exists i :: 0 <= i < |journeys| && Blocks(journeys[i], journeyToEdit, name)
  {
    if journeys != [] {
      var n := |journeys| - 1;
      var init := journeys[..n];
      OwnerIffBlocked(init, journeyToEdit, name);
      if !Blocks(journeys[n], journeyToEdit, name) {
        if exists i :: 0 <= i < |journeys| && Blocks(journeys[i], journeyToEdit, name) {
          var i :| 0 <= i < |journeys| && Blocks(journeys[i], journeyToEdit, name);
          assert init[i] == journeys[i];
        }
        if Owner(init, journeyToEdit, name).Some? {
          var i :| 0 <= i < |init| && Blocks(init[i], journeyToEdit, name);
          assert journeys[i] == init[i];
        }
      }
    }
  }

  /** `Owner` names the last blocking journey. */
  lemma {:induction false} OwnerIsLastBlocker(journeys: seq<Journey>, journeyToEdit: Option<Journey>, name: string)
    ensures Owner(journeys, journeyToEdit, name).Some? ==>
      exists i :: 0 <= i < |journeys| && Blocks(journeys[i], journeyToEdit, name)
        && Owner(journeys, journeyToEdit, name).value == journeys[i].name
        && forall k :: i < k < |journeys| ==> !Blocks(journeys[k], journeyToEdit, name)
  {
    if journeys != [] {
      var n := |journeys| - 1;
      var init := journeys[..n];
      OwnerIsLastBlocker(init, journeyToEdit, name);
      if !Blocks(journeys[n], journeyToEdit, name) && Owner(init, journeyToEdit, name).Some? {
        var i :| 0 <= i < |init| && Blocks(init[i], journeyToEdit, name)
          && Owner(init, journeyToEdit, name).value == init[i].name
          && forall k :: i < k < |init| ==> !Blocks(init[k], journeyToEdit, name);
        assert journeys[i] == init[i];
        assert forall k :: i < k < n ==> journeys[k] == init[k];
      }
    }
  }

  /** The inner loop of `unavailableChecks`: every name one journey flags
      true is recorded as taken by that journey. */
  method MarkTaken(m: map<string, string>, entries: Flags, owner: string) returns (r: map<string, string>)
    ensures forall name :: name in r <==> name in m || (name, true) in entries
    ensures forall name :: name in r ==> r[name] == if (name, true) in entries then owner else m[name]
  {
    r := m;
    var k := 0;
    while k < |entries|
      invariant 0 <= k <= |entries|
      invariant forall name :: name in r <==> name in m || (name, true) in entries[..k]
      invariant forall name :: name in r ==> r[name] == if (name, true) in entries[..k] then owner else m[name]
    {
      assert entries[..k + 1] == entries[..k] + [entries[k]];
      if entries[k].1 {
        r := r[entries[k].0 := owner];
      }
      k := k + 1;
    }
    assert entries[..k] == entries;
  }

  /** The `unavailableChecks` dictionary, filled journey by journey and
      entry by entry: a name is present exactly when some other journey
      flags it true, and maps to the last such journey's name. */
  method UnavailableChecks(journeys: seq<Journey>, journeyToEdit: Option<Journey>) returns (m: map<string, string>)
    ensures forall name :: name in m <==> Owner(journeys, journeyToEdit, name).Some?
    ensures forall name :: name in m ==> m[name] == Owner(journeys, journeyToEdit, name).value
  {
    m := map[];
    var i := 0;
    while i < |journeys|
      invariant 0 <= i <= |journeys|
      invariant forall name :: name in m <==> Owner(journeys[..i], journeyToEdit, name).Some?
      invariant forall name :: name in m ==> m[name] == Owner(journeys[..i], journeyToEdit, name).value
    {
      var j := journeys[i];
      forall name {
        OwnerStep(journeys, journeyToEdit, i, name);
      }
      if journeyToEdit.None? || j.id != journeyToEdit.value.id {
        m := MarkTaken(m, j.selectedChecks, j.name);
      }
      i := i + 1;
    }
    assert journeys[..i] == journeys;
  }

  // ----- Search and category filter -----

  /** The case-insensitive search: the lower-cased name contains the
      lower-cased term. */
  predicate MatchesSearch(c: Check, searchTerm: string) {
    Contains(Lower(c.name), Lower(searchTerm))
  }

  /** `checks.filter(...)` by the search term, keeping catalog order. */
  function MatchingChecks(checks: seq<Check>, searchTerm: string): (r: seq<Check>)
    ensures |r| <= |checks|
  {
    if checks == [] then []
    else if MatchesSearch(checks[0], searchTerm) then [checks[0]] + MatchingChecks(checks[1..], searchTerm)
    else MatchingChecks(checks[1..], searchTerm)
  }

  /** The search keeps exactly the matching checks. */
  lemma {:induction false} MatchingChecksMembers(checks: seq<Check>, searchTerm: string)
    ensures forall c :: c in MatchingChecks(checks, searchTerm) <==> c in checks && MatchesSearch(c, searchTerm)
  {
    if checks != [] {
      MatchingChecksMembers(checks[1..], searchTerm);
      assert checks == [checks[0]] + checks[1..];
    }
  }

  /** The search keeps the original order: it distributes over
      concatenation. */
  lemma {:induction false} MatchingChecksAppend(a: seq<Check>, b: seq<Check>, searchTerm: string)
    ensures MatchingChecks(a + b, searchTerm) == MatchingChecks(a, searchTerm) + MatchingChecks(b, searchTerm)
  {
    if a == [] {
      assert a + b == b;
    } else {
      assert (a + b)[0] == a[0] && (a + b)[1..] == a[1..] + b;
      MatchingChecksAppend(a[1..], b, searchTerm);
    }
  }

  /** An empty search term keeps every check. */
  lemma {:induction false} EmptySearchKeepsAll(checks: seq<Check>)
    ensures MatchingChecks(checks, "") == checks
  {
    if checks != [] {
      ContainsEmpty(Lower(checks[0].name));
      EmptySearchKeepsAll(checks[1..]);
    }
  }

  predicate CategoryKept(category: string, categoryFilter: string) {
    categoryFilter == "All" || category == categoryFilter
  }

  /** The entry one category contributes to the filtered catalog. */
  function FilteredEntry(entry: (string, seq<Check>), categoryFilter: string, searchTerm: string): Catalog
  {
    var matching := MatchingChecks(entry.1, searchTerm);
    if CategoryKept(entry.0, categoryFilter) && |matching| > 0 then [(entry.0, matching)] else []
  }

  /** The filtered catalog, category by category. */
  function FilteredCatalog(cat: Catalog, categoryFilter: string, searchTerm: string): Catalog
  {
    if cat == [] then []
    else FilteredCatalog(cat[..|cat| - 1], categoryFilter, searchTerm) + FilteredEntry(cat[|cat| - 1], categoryFilter, searchTerm)
  }

  /** `filteredChecks`: the category filter, then the `reduce` that writes
      each kept, non-empty category into the accumulator. */
  method FilteredChecks(cat: Catalog, categoryFilter: string, searchTerm: string) returns (acc: Catalog)
    ensures acc == FilteredCatalog(cat, categoryFilter, searchTerm)
  {
    acc := [];
    var i := 0;
    while i < |cat|
      invariant 0 <= i <= |cat|
      invariant acc == FilteredCatalog(cat[..i], categoryFilter, searchTerm)
    {
      assert cat[..i + 1][..i] == cat[..i];
      var (category, checks) := cat[i];
      if categoryFilter == "All" || category == categoryFilter {
        var filtered := MatchingChecks(checks, searchTerm);
        if |filtered| > 0 {
          acc := acc + [(category, filtered)];
        }
      }
      i := i + 1;
    }
    assert cat[..i] == cat;
  }

  /** A category is listed exactly when it passes the category filter and
      some check in it matches the search, and it lists exactly its
      matching checks in catalog order. */
  lemma {:induction false} FilteredCatalogEntries(cat: Catalog, categoryFilter: string, searchTerm: string)
    ensures forall e :: e in FilteredCatalog(cat, categoryFilter, searchTerm) <==>
      exists k :: 0 <= k < |cat| && CategoryKept(cat[k].0, categoryFilter)
        && MatchingChecks(cat[k].1, searchTerm) != []
        && e == (cat[k].0, MatchingChecks(cat[k].1, searchTerm))
  {
    if cat != [] {
      var n := |cat| - 1;
      FilteredCatalogEntries(cat[..n], categoryFilter, searchTerm);
      forall e | e in FilteredCatalog(cat, categoryFilter, searchTerm)
        ensures (exists k :: 0 <= k < |cat| && CategoryKept(cat[k].0, categoryFilter)
                   && MatchingChecks(cat[k].1, searchTerm) != []
                   && e == (cat[k].0, MatchingChecks(cat[k].1, searchTerm)))
      {
        if e in FilteredCatalog(cat[..n], categoryFilter, searchTerm) {
          var k :| 0 <= k < n && CategoryKept(cat[..n][k].0, categoryFilter)
            && MatchingChecks(cat[..n][k].1, searchTerm) != []
            && e == (cat[..n][k].0, MatchingChecks(cat[..n][k].1, searchTerm));
          assert cat[..n][k] == cat[k];
        }
      }
      forall k | 0 <= k < |cat| && CategoryKept(cat[k].0, categoryFilter) && MatchingChecks(cat[k].1, searchTerm) != []
        ensures (cat[k].0, MatchingChecks(cat[k].1, searchTerm)) in FilteredCatalog(cat, categoryFilter, searchTerm)
      {
        if k < n {
          assert cat[..n][k] == cat[k];
        }
      }
    }
  }

  /** With the filter on "All" and an empty search the whole catalog is
      listed as it is. */
  lemma {:induction false} UnfilteredCatalog(cat: Catalog)
    requires forall k :: 0 <= k < |cat| ==> cat[k].1 != []
    ensures FilteredCatalog(cat, "All", "") == cat
  {
    if cat != [] {
      var n := |cat| - 1;
      UnfilteredCatalog(cat[..n]);
      EmptySearchKeepsAll(cat[n].1);
      assert FilteredEntry(cat[n], "All", "") == [cat[n]];
      assert FilteredCatalog(cat, "All", "") == FilteredCatalog(cat[..n], "All", "") + [cat[n]];
      assert cat == cat[..n] + [cat[n]];
    }
  }

  // ----- Displayed price and saving -----

  /** The price shown on a check's card: `(override ?? catalog price) *
      (multiplier || 1)`. */
  function DisplayPrice(c: Check, overrides: map<string, int>, multipliers: map<string, int>): int
  {
    (if c.name in overrides then overrides[c.name] else c.price) * Factor(multipliers, c.name)
  }

  /** The card shows the same price the reducer charges for the check. */
  lemma DisplayPriceIsCheckPrice(cat: Catalog, c: Check, overrides: map<string, int>, multipliers: map<string, int>)
    requires UniqueNames(AllChecks(cat))
    requires c in AllChecks(cat)
    ensures DisplayPrice(c, overrides, multipliers) == CheckPrice(cat, c.name, overrides, multipliers)
  {
    LookupUnique(cat, c);
  }

  /** The save button is enabled only with a non-empty journey name and at
      least one check flagged true. */
  predicate SaveEnabled(journeyName: string, selected: Flags)
  {
    journeyName != "" && |TrueKeys(selected)| != 0
  }

  lemma SaveEnabledMeans(journeyName: string, selected: Flags)
    ensures SaveEnabled(journeyName, selected) <==> journeyName != "" && exists k :: (k, true) in selected
  {
    if exists k :: (k, true) in selected {
      var k :| (k, true) in selected;
      assert k in TrueKeys(selected);
    }
    if |TrueKeys(selected)| != 0 {
      assert TrueKeys(selected)[0] in TrueKeys(selected);
    }
  }

  /** `handleSave`: an update carrying the edited journey's id when editing,
      a new journey otherwise. */
  function SaveAction(journeyToEdit: Option<Journey>, journeyName: string, selected: Flags): (a: Action)
    ensures a.AddJourney? || a.UpdateJourney?
    ensures a.name == journeyName && a.checks == selected
    ensures a.UpdateJourney? <==> journeyToEdit.Some?
    ensures a.UpdateJourney? ==> a.id == journeyToEdit.value.id
  {
    match journeyToEdit
    case Some(j) => UpdateJourney(j.id, journeyName, selected)
    case None => AddJourney(journeyName, selected)
  }

  /** Saving an edit rewrites the edited journey in place: same position,
      same id, the new name and checks; other journeys stay as they were. */
  lemma SaveEditRewritesInPlace(cat: Catalog, s: State, i: nat, journeyName: string, selected: Flags, clock: string)
    requires i < |s.journeys| && DistinctIds(s.journeys)
    ensures var r := Reduce(cat, s, SaveAction(Some(s.journeys[i]), journeyName, selected), clock);
      && |r.journeys| == |s.journeys|
      && r.journeys[i].id == s.journeys[i].id
      && r.journeys[i].name == journeyName && r.journeys[i].selectedChecks == selected
      && forall k :: 0 <= k < |s.journeys| && k != i ==> r.journeys[k] == s.journeys[k]
  {
    var id := s.journeys[i].id;
    UpdateJourneyReplaces(cat, s, id, journeyName, selected, clock);
    assert forall k :: 0 <= k < |s.journeys| && k != i ==> s.journeys[k].id != id;
  }

  /** The dialog's own state: the name field, the working selection, the
      search box and the category filter. */
  class Dialog {
    var journeyName: string
    var selected: Flags
    var searchTerm: string
    var categoryFilter: string

    constructor ()
      ensures journeyName == "" && selected == [] && searchTerm == "" && categoryFilter == "All"
    {
      journeyName, selected, searchTerm, categoryFilter := "", [], "", "All";
    }

    /** The effect run on opening or on a new journey to edit: load that
        journey, or start empty. */
    method Reset(journeyToEdit: Option<Journey>)
      modifies this
      ensures journeyToEdit.Some? ==> journeyName == journeyToEdit.value.name && selected == journeyToEdit.value.selectedChecks
      ensures journeyToEdit.None? ==> journeyName == "" && selected == []
      ensures searchTerm == old(searchTerm) && categoryFilter == old(categoryFilter)
    {
      match journeyToEdit
      case Some(j) =>
        journeyName, selected := j.name, j.selectedChecks;
      case None =>
        journeyName, selected := "", [];
    }

    method ToggleCheck(name: string, checked: bool) returns (promptsMultiplier: bool)
      modifies this
      ensures var r := CheckChange(old(selected), name, checked);
        selected == r.selected && promptsMultiplier == r.promptsMultiplier
      ensures journeyName == old(journeyName) && searchTerm == old(searchTerm) && categoryFilter == old(categoryFilter)
    {
      var r := CheckChange(selected, name, checked);
      selected := r.selected;
      promptsMultiplier := r.promptsMultiplier;
    }

    method ToggleCategory(checks: seq<Check>)
      modifies this
      ensures selected == PutAll(old(selected), Names(checks), !AllOn(old(selected), Names(checks)))
      ensures journeyName == old(journeyName) && searchTerm == old(searchTerm) && categoryFilter == old(categoryFilter)
    {
      selected := SelectAll(selected, checks);
    }

    method Save(journeyToEdit: Option<Journey>) returns (a: Action)
      ensures a == SaveAction(journeyToEdit, journeyName, selected)
    {
      a := SaveAction(journeyToEdit, journeyName, selected);
    }
  }
}
