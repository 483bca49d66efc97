/**
 * The main page's derived values: the grand total shown in the control
 * panel and the file name of the downloaded agreement.
 */
module Page {
  import opened Types
  import opened IdChecks
  import opened AgreementContext
  import opened ServicesTable

  /** `journeys.reduce((acc, j) => acc + j.totalPrice, 0)`: the cached
      totals added up, never recomputed. */
  function GrandTotal(js: seq<Journey>): int
  {
    if js == [] then 0 else GrandTotal(js[..|js| - 1]) + js[|js| - 1].totalPrice
  }

  lemma {:induction false} GrandTotalAppend(a: seq<Journey>, b: seq<Journey>)
    ensures GrandTotal(a + b) == GrandTotal(a) + GrandTotal(b)
  {
    if b != [] {
      var n := |b| - 1;
      GrandTotalAppend(a, b[..n]);
      assert (a + b)[..|a + b| - 1] == a + b[..n];
    } else {
      assert a + b == a;
    }
  }

  /** Adding a journey adds its freshly computed total. */
  lemma GrandTotalAfterAdd(cat: Catalog, s: State, name: string, checks: Flags, clock: string)
    ensures GrandTotal(Reduce(cat, s, AddJourney(name, checks), clock).journeys)
         == GrandTotal(s.journeys) + JourneyTotal(cat, checks, s.priceOverrides, s.multipliers)
  {
    AddJourneyAppends(cat, s, name, checks, clock);
    var r := Reduce(cat, s, AddJourney(name, checks), clock);
    assert r.journeys[..|r.journeys| - 1] == s.journeys;
  }

  /** Price edits leave the grand total as it was. */
  lemma GrandTotalIgnoresPriceEdits(cat: Catalog, s: State, a: Action, clock: string)
    requires a.SetPriceOverride? || a.SetMultiplier?
    ensures GrandTotal(Reduce(cat, s, a, clock).journeys) == GrandTotal(s.journeys)
  {
  }

  /** The sum of cached totals, from the front. */
  lemma {:induction false} GrandTotalFront(js: seq<Journey>)
    requires js != []
    ensures GrandTotal(js) == js[0].totalPrice + GrandTotal(js[1..])
  {
    if |js| > 1 {
      var n := |js| - 1;
      GrandTotalFront(js[..n]);
      assert js[..n][1..] == js[1..][..|js[1..]| - 1];
    } else {
      assert js[1..] == [];
    }
  }

  /** While every cached total is current the grand total is the sum of
      the services table's prices. */
  lemma {:induction false} GrandTotalMatchesTable(cat: Catalog, s: State)
    requires TotalsCurrent(cat, s)
    ensures GrandTotal(s.journeys) == RowSum(ServiceRows(cat, s.journeys, s.priceOverrides, s.multipliers))
  {
    ServiceRowsSum(cat, s.journeys, s.priceOverrides, s.multipliers);
    CachedIsLive(cat, s.journeys, s.priceOverrides, s.multipliers);
  }

  lemma {:induction false} CachedIsLive(cat: Catalog, js: seq<Journey>, overrides: map<string, int>, multipliers: map<string, int>)
    requires forall j :: j in js ==> j.totalPrice == JourneyTotal(cat, j.selectedChecks, overrides, multipliers)
    ensures GrandTotal(js) == LiveTotal(cat, js, overrides, multipliers)
  {
    if js != [] {
      GrandTotalFront(js);
      assert js[0] in js;
      CachedIsLive(cat, js[1..], overrides, multipliers);
    }
  }

  predicate IsAsciiAlphanumeric(c: char) {
    'a' <= c <= 'z' || 'A' <= c <= 'Z' || '0' <= c <= '9'
  }

  /** `brandName.replace(/[^a-zA-Z0-9]/g, '_')`. */
  function SafeBrandName(brandName: string): (r: string)
    ensures |r| == |brandName|
    ensures forall i :: 0 <= i < |r| ==> r[i] == if IsAsciiAlphanumeric(brandName[i]) then brandName[i] else '_'
  {
    if brandName == [] then []
    else [if IsAsciiAlphanumeric(brandName[0]) then brandName[0] else '_'] + SafeBrandName(brandName[1..])
  }

  /** Cleaning a name twice changes nothing more. */
  lemma SafeBrandNameIdempotent(brandName: string)
    ensures SafeBrandName(SafeBrandName(brandName)) == SafeBrandName(brandName)
  {
  }

  /** The download name: the cleaned brand name, or "Agreement" when that
      is empty, between the fixed prefix and ".pdf". */
  function DownloadName(brandName: string): (r: string)
    ensures var safe := SafeBrandName(brandName);
      r == "Equal_Digital_Agreement_" + (if brandName == [] then "Agreement" else safe) + ".pdf"
  {
    var safe := SafeBrandName(brandName);
    "Equal_Digital_Agreement_" + (if safe == [] then "Agreement" else safe) + ".pdf"
  }

  /** Every character of the name part is a letter, a digit or `_`. */
  lemma DownloadNameIsClean(brandName: string)
    ensures var r := DownloadName(brandName);
      forall i :: 24 <= i < |r| - 4 ==> IsAsciiAlphanumeric(r[i]) || r[i] == '_'
  {
    var r := DownloadName(brandName);
    var safe := SafeBrandName(brandName);
    var middle := if brandName == [] then "Agreement" else safe;
    assert r == "Equal_Digital_Agreement_" + middle + ".pdf";
    assert |"Equal_Digital_Agreement_"| == 24;
    forall i | 24 <= i < |r| - 4 ensures IsAsciiAlphanumeric(r[i]) || r[i] == '_' {
      assert r[i] == middle[i - 24];
    }
  }
}
