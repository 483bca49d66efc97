/**
 * The "Selected Verification Services" table of the agreement PDF: one row
 * per check flagged true, journey by journey, with the catalog's details
 * and the live price.
 */
module ServicesTable {
  import opened Types
  import opened IdChecks
  import opened AgreementContext

  datatype ServiceRow = ServiceRow(name: string, journeyName: string, tat: string, partnerNetwork: string, price: int)

  /** The names flagged true, journey by journey, duplicates kept. */
  function SelectedNames(js: seq<Journey>): (ns: seq<string>)
  {
    if js == [] then [] else TrueKeys(js[0].selectedChecks) + SelectedNames(js[1..])
  }

  /** A name is selected exactly when some journey flags it true. */
  lemma {:induction false} SelectedNamesMembers(js: seq<Journey>)
    ensures forall n :: n in SelectedNames(js) <==> exists j :: j in js && (n, true) in j.selectedChecks
  {
    if js != [] {
      SelectedNamesMembers(js[1..]);
      assert forall j :: j in js <==> j == js[0] || j in js[1..];
    }
  }

  lemma {:induction false} SelectedNamesAppend(a: seq<Journey>, b: seq<Journey>)
    ensures SelectedNames(a + b) == SelectedNames(a) + SelectedNames(b)
  {
    if a == [] {
      assert a + b == b;
    } else {
      var head := TrueKeys(a[0].selectedChecks);
      assert (a + b)[0] == a[0] && (a + b)[1..] == a[1..] + b;
      assert SelectedNames(a + b) == head + SelectedNames(a[1..] + b);
      SelectedNamesAppend(a[1..], b);
      assert head + (SelectedNames(a[1..]) + SelectedNames(b)) == (head + SelectedNames(a[1..])) + SelectedNames(b);
    }
  }

  /** One row: the details of the first check with the name in `cat`
      (found category by category), or empty text for a name `cat` does not
      list, and `(override ?? catalog price ?? 0) * (multiplier || 1)`.
      The PDF passes the reference catalog. */
  function Row(cat: Catalog, name: string, journeyName: string, overrides: map<string, int>, multipliers: map<string, int>): (r: ServiceRow)
    ensures r.name == name && r.journeyName == journeyName
  {
    var details := Lookup(cat, name);
    var basePrice := if name in overrides then overrides[name] else if details.Some? then details.value.price else 0;
    ServiceRow(name, journeyName,
      if details.Some? then details.value.tat else "",
      if details.Some? then details.value.partnerNetwork else "",
      basePrice * Factor(multipliers, name))
  }

  /** A row is priced exactly as the reducer prices the check. */
  lemma RowPrice(cat: Catalog, name: string, journeyName: string, overrides: map<string, int>, multipliers: map<string, int>)
    ensures Row(cat, name, journeyName, overrides, multipliers).price == CheckPrice(cat, name, overrides, multipliers)
  {
  }

  /** A catalog check's row carries that check's own TAT and partner network. */
  lemma CatalogRow(cat: Catalog, c: Check, journeyName: string, overrides: map<string, int>, multipliers: map<string, int>)
    requires UniqueNames(AllChecks(cat))
    requires c in AllChecks(cat)
    ensures Row(cat, c.name, journeyName, overrides, multipliers)
      == ServiceRow(c.name, journeyName, c.tat, c.partnerNetwork, CheckPrice(cat, c.name, overrides, multipliers))
  {
    LookupUnique(cat, c);
    RowPrice(cat, c.name, journeyName, overrides, multipliers);
  }

  /** A name the catalog does not list gets empty details and is priced by
      its override alone, 0 without one. */
  lemma UnknownRow(cat: Catalog, name: string, journeyName: string, overrides: map<string, int>, multipliers: map<string, int>)
    requires name !in Names(AllChecks(cat))
    ensures var r := Row(cat, name, journeyName, overrides, multipliers);
      r.tat == "" && r.partnerNetwork == ""
      && r.price == (if name in overrides then overrides[name] else 0) * Factor(multipliers, name)
  {
    LookupMissing(cat, name);
  }

  /** The rows of one journey, in the order of its flags. */
  function RowsFor(cat: Catalog, names: seq<string>, journeyName: string, overrides: map<string, int>, multipliers: map<string, int>): (r: seq<ServiceRow>)
    ensures |r| == |names|
    ensures forall i :: 0 <= i < |names| ==> r[i] == Row(cat, names[i], journeyName, overrides, multipliers)
  {
    if names == [] then []
    else RowsFor(cat, names[..|names| - 1], journeyName, overrides, multipliers) + [Row(cat, names[|names| - 1], journeyName, overrides, multipliers)]
  }

  /** `flattenedChecks`: the rows of every journey, journey after journey. */
  function ServiceRows(cat: Catalog, js: seq<Journey>, overrides: map<string, int>, multipliers: map<string, int>): (r: seq<ServiceRow>)
    ensures |r| == |SelectedNames(js)|
    ensures forall i :: 0 <= i < |r| ==> r[i].name == SelectedNames(js)[i]
    ensures forall i :: 0 <= i < |r| ==> r[i] == Row(cat, r[i].name, r[i].journeyName, overrides, multipliers)
  {
    if js == [] then []
    else
      var head := RowsFor(cat, TrueKeys(js[0].selectedChecks), js[0].name, overrides, multipliers);
      var tail := ServiceRows(cat, js[1..], overrides, multipliers);
      assert SelectedNames(js) == TrueKeys(js[0].selectedChecks) + SelectedNames(js[1..]);
      head + tail
  }

  /** A single journey's rows are its own: one per check it flags true, in
      key order, each under that journey's name. */
  lemma ServiceRowsSingle(cat: Catalog, j: Journey, overrides: map<string, int>, multipliers: map<string, int>)
    ensures ServiceRows(cat, [j], overrides, multipliers) == RowsFor(cat, TrueKeys(j.selectedChecks), j.name, overrides, multipliers)
  {
    assert [j][1..] == [];
  }

  /** The row names a journey of `js` that flags the row's check true. */
  ghost predicate UnderSomeJourney(row: ServiceRow, js: seq<Journey>) {
    exists j :: j in js && row.journeyName == j.name && (row.name, true) in j.selectedChecks
  }

  /** Each row sits under a journey that flags its check true. */
  lemma {:induction false} ServiceRowsJourney(cat: Catalog, js: seq<Journey>, overrides: map<string, int>, multipliers: map<string, int>)
    ensures forall row :: row in ServiceRows(cat, js, overrides, multipliers) ==> UnderSomeJourney(row, js)
  {
    if js != [] {
      var keys := TrueKeys(js[0].selectedChecks);
      var head := RowsFor(cat, keys, js[0].name, overrides, multipliers);
      var tail := ServiceRows(cat, js[1..], overrides, multipliers);
      ServiceRowsJourney(cat, js[1..], overrides, multipliers);
      forall row | row in head + tail ensures UnderSomeJourney(row, js) {
        if row in head {
          var i :| 0 <= i < |head| && head[i] == row;
          assert keys[i] in keys;
          assert js[0] in js;
        } else {
          var j :| j in js[1..] && row.journeyName == j.name && (row.name, true) in j.selectedChecks;
          assert j in js;
        }
      }
    }
  }

  lemma {:induction false} ServiceRowsAppend(cat: Catalog, a: seq<Journey>, b: seq<Journey>, overrides: map<string, int>, multipliers: map<string, int>)
    ensures ServiceRows(cat, a + b, overrides, multipliers) == ServiceRows(cat, a, overrides, multipliers) + ServiceRows(cat, b, overrides, multipliers)
  {
    if a == [] {
      assert a + b == b;
    } else {
      assert (a + b)[1..] == a[1..] + b;
      ServiceRowsAppend(cat, a[1..], b, overrides, multipliers);
    }
  }

  /** The table as rendered: nothing at all when there is no row. */
  function Table(s: State): Option<seq<ServiceRow>>
  {
    var rows := ServiceRows(IdCatalog, s.journeys, s.priceOverrides, s.multipliers);
    if |rows| == 0 then None else Some(rows)
  }

  /** The table is left out exactly when no journey flags any check true. */
  lemma TableHiddenIffNothingSelected(s: State)
    ensures Table(s).None? <==> forall j, n :: j in s.journeys ==> (n, true) !in j.selectedChecks
  {
    var ns := SelectedNames(s.journeys);
    SelectedNamesMembers(s.journeys);
    if ns != [] {
      assert ns[0] in ns;
    }
  }

  // ----- Sums -----

  function RowSum(rows: seq<ServiceRow>): int
  {
    if rows == [] then 0 else RowSum(rows[..|rows| - 1]) + rows[|rows| - 1].price
  }

  lemma {:induction false} RowSumAppend(a: seq<ServiceRow>, b: seq<ServiceRow>)
    ensures RowSum(a + b) == RowSum(a) + RowSum(b)
  {
    if b == [] {
      assert a + b == a;
    } else {
      assert (a + b)[..|a + b| - 1] == a + b[..|b| - 1];
      RowSumAppend(a, b[..|b| - 1]);
    }
  }

  /** The prices of one journey's rows add up to its live total. */
  lemma {:induction false} RowsForSum(cat: Catalog, names: seq<string>, journeyName: string, overrides: map<string, int>, multipliers: map<string, int>)
    ensures RowSum(RowsFor(cat, names, journeyName, overrides, multipliers)) == PriceSum(cat, names, overrides, multipliers)
  {
    if names != [] {
      var n := |names| - 1;
      var rows := RowsFor(cat, names, journeyName, overrides, multipliers);
      RowsForSum(cat, names[..n], journeyName, overrides, multipliers);
      assert rows[..n] == RowsFor(cat, names[..n], journeyName, overrides, multipliers);
      RowPrice(cat, names[n], journeyName, overrides, multipliers);
    }
  }

  /** The live total of every journey, at the current prices. */
  function LiveTotal(cat: Catalog, js: seq<Journey>, overrides: map<string, int>, multipliers: map<string, int>): int
  {
    if js == [] then 0 else JourneyTotal(cat, js[0].selectedChecks, overrides, multipliers) + LiveTotal(cat, js[1..], overrides, multipliers)
  }

  /** The table's prices add up to the live totals of all journeys. */
  lemma {:induction false} ServiceRowsSum(cat: Catalog, js: seq<Journey>, overrides: map<string, int>, multipliers: map<string, int>)
    ensures RowSum(ServiceRows(cat, js, overrides, multipliers)) == LiveTotal(cat, js, overrides, multipliers)
  {
    if js != [] {
      var head := RowsFor(cat, TrueKeys(js[0].selectedChecks), js[0].name, overrides, multipliers);
      RowsForSum(cat, TrueKeys(js[0].selectedChecks), js[0].name, overrides, multipliers);
      ServiceRowsSum(cat, js[1..], overrides, multipliers);
      RowSumAppend(head, ServiceRows(cat, js[1..], overrides, multipliers));
    }
  }

  /** No deduplication: a check chosen in two journeys is listed twice,
      once under each journey. */
  lemma SameCheckInTwoJourneys(cat: Catalog)
    ensures var j1 := Journey("1", "Onboarding", [("Aadhaar", true)], 30);
      var j2 := Journey("2", "Contractors", [("Aadhaar", true), ("Voter ID", false)], 30);
      var rows := ServiceRows(cat, [j1, j2], map[], map[]);
      |rows| == 2 && rows[0].name == "Aadhaar" && rows[1].name == "Aadhaar"
      && rows[0].journeyName == "Onboarding" && rows[1].journeyName == "Contractors"
  {
    var j1 := Journey("1", "Onboarding", [("Aadhaar", true)], 30);
    var j2 := Journey("2", "Contractors", [("Aadhaar", true), ("Voter ID", false)], 30);
    assert TrueKeys(j1.selectedChecks) == ["Aadhaar"];
    assert TrueKeys(j2.selectedChecks) == ["Aadhaar"];
    assert [j1, j2][1..] == [j2];
    assert [j2][1..] == [];
  }
}
