/**
 * The "Insights" table of the agreement PDF: for each check flagged true,
 * journey by journey, the first catalog check of that name that carries an
 * insight, if any.
 */
module InsightsTable {
  import opened Types
  import opened IdChecks
  import opened ServicesTable

  /** The `for (const category in idChecks)` scan: in each category the
      first check with the name; stop at the first one with an insight, and
      go on to the next category past one without. */
  function InsightLookup(cat: Catalog, name: string): (r: Option<Check>)
    ensures r.Some? ==> r.value.name == name && r.value.insights != "" && r.value in AllChecks(cat)
  {
    if cat == [] then None
    else
      var found := Find(cat[0].1, name);
      if found.Some? && found.value.insights != "" then
        assert found.value in cat[0].1;
        found
      else InsightLookup(cat[1..], name)
  }

  lemma UniqueSplit(a: seq<Check>, b: seq<Check>)
    requires UniqueNames(a + b)
    ensures UniqueNames(b)
    ensures forall c, d :: c in a && d in b ==> c.name != d.name
  {
    assert forall i :: 0 <= i < |b| ==> b[i] == (a + b)[|a| + i];
    forall c, d | c in a && d in b ensures c.name != d.name {
      var i :| 0 <= i < |a| && a[i] == c;
      var k :| 0 <= k < |b| && b[k] == d;
      assert (a + b)[i] == c && (a + b)[|a| + k] == d;
    }
  }

  /** With globally unique names the scan is the plain lookup restricted to
      checks that carry an insight. */
  lemma {:induction false} InsightLookupUnique(cat: Catalog, name: string)
    requires UniqueNames(AllChecks(cat))
    ensures InsightLookup(cat, name) ==
      if Lookup(cat, name).Some? && Lookup(cat, name).value.insights != "" then Lookup(cat, name) else None
  {
    if cat != [] {
      UniqueSplit(cat[0].1, AllChecks(cat[1..]));
      InsightLookupUnique(cat[1..], name);
      var found := Find(cat[0].1, name);
      if found.Some? {
        assert found.value in cat[0].1;
      }
    }
  }

  /** The names the reference catalog attaches an insight to, in order. */
  const InsightNames: seq<string> := Names(InsightChecks(AllChecks(IdCatalog)))

  lemma InsightNamesAre()
    ensures InsightNames == ["PAN Advanced (Aadhaar <> PAN Linkage)", "Bank Account Validation", "Criminal Court (CCRV)", "Payslip (Tampering + POO + MCA)", "Digital Address check", "Employment & Conduct (Per check) - Last 7 years", "PF UAN Advanced"]
  {
    IdCatalogInsights();
  }

  /** In a catalog without repeated names the scan finds an insight exactly
      for the names of the checks that carry one. */
  lemma InsightLookupIffListed(cat: Catalog, name: string)
    requires UniqueNames(AllChecks(cat))
    ensures InsightLookup(cat, name).Some? <==> name in Names(InsightChecks(AllChecks(cat)))
  {
    var cs := AllChecks(cat);
    InsightLookupUnique(cat, name);
    InsightChecksMembers(cs);
    var ins := InsightChecks(cs);
    if name in Names(ins) {
      var i :| 0 <= i < |ins| && Names(ins)[i] == name;
      assert ins[i] in ins;
      LookupUnique(cat, ins[i]);
    }
    if InsightLookup(cat, name).Some? {
      var c := InsightLookup(cat, name).value;
      assert c in ins;
      var i :| 0 <= i < |ins| && ins[i] == c;
      assert Names(ins)[i] == name;
    }
  }

  /** Against the reference catalog a name finds an insight exactly when it
      is one of the insight names. */
  lemma CatalogInsightLookup(name: string)
    ensures InsightLookup(IdCatalog, name).Some? <==> name in InsightNames
  {
    IdCatalogNamesUnique();
    InsightLookupIffListed(IdCatalog, name);
  }

  /** `checksWithInsights` for a list of names: the hits of the scan, in
      order, names without an insight dropped. The PDF passes the
      reference catalog. */
  function InsightsFor(cat: Catalog, names: seq<string>): (r: seq<Check>)
    ensures |r| <= |names|
    ensures forall c :: c in r ==> c.insights != "" && c in AllChecks(cat) && c.name in names
  {
    if names == [] then []
    else
      var rest := InsightsFor(cat, names[1..]);
      match InsightLookup(cat, names[0])
      case Some(c) => [c] + rest
      case None => rest
  }

  lemma {:induction false} InsightsForAppend(cat: Catalog, a: seq<string>, b: seq<string>)
    ensures InsightsFor(cat, a + b) == InsightsFor(cat, a) + InsightsFor(cat, b)
  {
    if a == [] {
      assert a + b == b;
    } else {
      assert (a + b)[1..] == a[1..] + b;
      InsightsForAppend(cat, a[1..], b);
    }
  }

  /** The names kept, in order. */
  function KeepInsightNames(names: seq<string>): (r: seq<string>)
  {
    if names == [] then []
    else if names[0] in InsightNames then [names[0]] + KeepInsightNames(names[1..])
    else KeepInsightNames(names[1..])
  }

  /** The table lists one row per selected name that has an insight, in
      selection order, repeats included, and no other row. */
  lemma {:induction false} InsightsForNames(names: seq<string>)
    ensures Names(InsightsFor(IdCatalog, names)) == KeepInsightNames(names)
  {
    if names != [] {
      CatalogInsightLookup(names[0]);
      InsightsForNames(names[1..]);
      var rest := InsightsFor(IdCatalog, names[1..]);
      match InsightLookup(IdCatalog, names[0])
      case Some(c) =>
        assert Names([c] + rest) == [c.name] + Names(rest);
      case None =>
    }
  }

  /** The table as rendered: nothing at all when no row has an insight. */
  function Table(js: seq<Journey>): (r: Option<seq<Check>>)
    ensures r.Some? ==> |r.value| > 0
  {
    var rows := InsightsFor(IdCatalog, SelectedNames(js));
    if |rows| == 0 then None else Some(rows)
  }

  /** The table is left out exactly when no selected check has an insight. */
  lemma TableHiddenIffNoInsight(js: seq<Journey>)
    ensures Table(js).None? <==> forall n :: n in SelectedNames(js) ==> n !in InsightNames
  {
    var ns := SelectedNames(js);
    InsightsForNames(ns);
    KeepInsightNamesEmpty(ns);
  }

  lemma {:induction false} KeepInsightNamesEmpty(names: seq<string>)
    ensures KeepInsightNames(names) == [] <==> forall n :: n in names ==> n !in InsightNames
  {
    if names != [] {
      KeepInsightNamesEmpty(names[1..]);
    }
  }
}
