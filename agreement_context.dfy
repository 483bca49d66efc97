/**
 * The agreement configuration store: the state record, the fourteen actions
 * and the reducer that maps (state, action) to the next state, together with
 * the price rule that the reducer uses to cache each journey's total.
 *
 * The reducer is pure. The journey id, which the application reads from the
 * clock when a journey is added, is the parameter `clock`.
 */
module AgreementContext {
  import opened Types
  import opened IdChecks

  const DefaultSetupFee: int := 1000000
  const DefaultAnnualFee: int := 1200000

  const InitialValueAddedServices: seq<ValueAddedService> := [
    ValueAddedService("Equal Console", "Equal console access shall be provided for end-end visibility on candidate e-onboarding status"),
    ValueAddedService("Equal Gateway instances", "Equal will provide unique gateway instances configuring the BGV checks for each Keka's customer"),
    ValueAddedService("Equal Reporting", "Equal shall provide outreach logs for audit purpose"),
    ValueAddedService("Business Rule Engine", "Equal will provide insights on the BGV reports based on business logic provided by Merchant"),
    ValueAddedService("Routing Engine", "Equal will dynamically route request between partners for higher success rate")
  ]

  const InitialAggregatorServices: seq<ValueAddedService> := [
    ValueAddedService("Partner Network Optimisation", "Equal will constantly be optimising our partner network for higher success rate for every module opted"),
    ValueAddedService("Partner Additions", "Equal will add more reliable partners for every module who has best-in-class network uptime with higher throughput"),
    ValueAddedService("Cloud Optimisation", "Equal will leverage Amazon cloud infrastructure CDN services for higher network availability"),
    ValueAddedService("Cloud Security", "Equal will leverage highest level of cyber security mesures enabling zero trust security architecture")
  ]

  const InitialPricingNotes: seq<string> := [
    "A minor % of Education verification may incur an additional challan cost that's charged by the Universities at the time of verifications - this charge will be passed on at actuals",
    "AMC + Value-added Service paid yearly once (Prepay Annual) that includes Updates, Patches, Bug fixes & Customer Support",
    "All prices are exclusive of applicable taxes"
  ]

  const InitialTermsAndConditions: seq<string> := [
    "All verification services will be provided through our certified partner network",
    "Turnaround times are indicative and may vary based on data availability",
    "Pricing is per verification check and excludes applicable taxes",
    "This agreement is valid for 30 days from the date of issue",
    "All services are subject to Equal Digital's standard terms and conditions"
  ]

  const InitialAgreementIntro: string :=
    "This agreement is entered into between Equal Digital and {brandName} for the provision of identity verification services as detailed below. The services will be delivered according to the specified turnaround times and through our verified partner network."

  /** The check whose price is being edited. */
  datatype PriceTarget = PriceTarget(name: string, price: int)

  /** The check whose multiplier is being asked for. */
  datatype MultiplierTarget = MultiplierTarget(name: string, labelText: string, defaultValue: int)

  datatype State = State(
    brandName: string,
    logoUrl: Option<string>,
    journeys: seq<Journey>,
    priceOverrides: map<string, int>,
    multipliers: map<string, int>,
    setupFee: int,
    annualFee: int,
    isCostsModalOpen: bool,
    editingJourney: Option<Journey>,
    isJourneyModalOpen: bool,
    editingCheck: Option<PriceTarget>,
    editingMultiplier: Option<MultiplierTarget>,
    agreementTitle: string,
    agreementIntro: string,
    valueAddedServices: seq<ValueAddedService>,
    aggregatorServices: seq<ValueAddedService>,
    pricingNotes: seq<string>,
    termsAndConditions: seq<string>)

  const InitialState: State := State(
    brandName := "",
    logoUrl := None,
    journeys := [],
    priceOverrides := map[],
    multipliers := map[],
    setupFee := DefaultSetupFee,
    annualFee := DefaultAnnualFee,
    isCostsModalOpen := false,
    editingJourney := None,
    isJourneyModalOpen := false,
    editingCheck := None,
    editingMultiplier := None,
    agreementTitle := "ID Verification Agreement",
    agreementIntro := InitialAgreementIntro,
    valueAddedServices := InitialValueAddedServices,
    aggregatorServices := InitialAggregatorServices,
    pricingNotes := InitialPricingNotes,
    termsAndConditions := InitialTermsAndConditions)

  /** The payload of UPDATE_CONTENT: any subset of the editable fields.
      `logoUrl` may be set to null, hence the nested option. */
  datatype ContentPatch = ContentPatch(
    agreementTitle: Option<string>,
    agreementIntro: Option<string>,
    valueAddedServices: Option<seq<ValueAddedService>>,
    aggregatorServices: Option<seq<ValueAddedService>>,
    pricingNotes: Option<seq<string>>,
    termsAndConditions: Option<seq<string>>,
    setupFee: Option<int>,
    annualFee: Option<int>,
    brandName: Option<string>,
    logoUrl: Option<Option<string>>)

  datatype Action =
    | AddJourney(name: string, checks: Flags)
    | UpdateJourney(id: string, name: string, checks: Flags)
    | DeleteJourney(id: string)
    | OpenJourneyModal(journey: Option<Journey>)
    | CloseJourneyModal
    | SetPriceOverride(name: string, price: int)
    | OpenPriceModal(name: string, price: int)
    | ClosePriceModal
    | SetMultiplier(name: string, multiplier: int)
    | OpenMultiplierModal(name: string, labelText: string, defaultValue: int)
    | CloseMultiplierModal
    | OpenCostsModal
    | CloseCostsModal
    | UpdateContent(patch: ContentPatch)
  {
    /** The actions that only show, hide or retarget an editing surface. */
    predicate IsTransient() {
      OpenJourneyModal? || CloseJourneyModal? || OpenPriceModal? || ClosePriceModal?
      || OpenMultiplierModal? || CloseMultiplierModal? || OpenCostsModal? || CloseCostsModal?
    }
  }

  /** `multipliers[name] || 1`: a missing or zero multiplier counts as 1. */
  function Factor(multipliers: map<string, int>, name: string): (f: int)
    ensures f != 0
    ensures name !in multipliers ==> f == 1
    ensures name in multipliers && multipliers[name] != 0 ==> f == multipliers[name]
  {
    if name in multipliers && multipliers[name] != 0 then multipliers[name] else 1
  }

  /** The override if there is one, else the first catalog price, else 0. */
  function BasePrice(cat: Catalog, name: string, overrides: map<string, int>): int
  {
    if name in overrides then overrides[name]
    else match Lookup(cat, name)
      case Some(c) => c.price
      case None => 0
  }

  /** `getCheckPrice`. */
  function CheckPrice(cat: Catalog, name: string, overrides: map<string, int>, multipliers: map<string, int>): int
  {
    BasePrice(cat, name, overrides) * Factor(multipliers, name)
  }

  /** The `reduce` that adds up the prices of the given names. */
  function PriceSum(cat: Catalog, names: seq<string>, overrides: map<string, int>, multipliers: map<string, int>): int
  {
    if names == [] then 0
    else PriceSum(cat, names[..|names| - 1], overrides, multipliers) + CheckPrice(cat, names[|names| - 1], overrides, multipliers)
  }

  /** The price the reducer caches on a journey: the prices of its checks
      flagged true, at the overrides and multipliers of the moment. */
  function JourneyTotal(cat: Catalog, checks: Flags, overrides: map<string, int>, multipliers: map<string, int>): int
  {
    PriceSum(cat, TrueKeys(checks), overrides, multipliers)
  }

  /** The `map` of UPDATE_JOURNEY: journeys with the id get the new name,
      checks and total; every other journey, and every id, stays. */
  function ReplaceJourney(js: seq<Journey>, id: string, name: string, checks: Flags, total: int): (r: seq<Journey>)
    ensures |r| == |js|
    ensures forall i :: 0 <= i < |js| ==> r[i].id == js[i].id
    ensures forall i :: 0 <= i < |js| && js[i].id != id ==> r[i] == js[i]
    ensures forall i :: 0 <= i < |js| && js[i].id == id ==>
      r[i].name == name && r[i].selectedChecks == checks && r[i].totalPrice == total
  {
    if js == [] then []
    else
      var head := if js[0].id == id then js[0].(name := name, selectedChecks := checks, totalPrice := total) else js[0];
      [head] + ReplaceJourney(js[1..], id, name, checks, total)
  }

  /** The `filter` of DELETE_JOURNEY. */
  function WithoutId(js: seq<Journey>, id: string): (r: seq<Journey>)
    ensures forall j :: j in r <==> j in js && j.id != id
    ensures |r| <= |js|
  {
    if js == [] then []
    else if js[0].id == id then WithoutId(js[1..], id)
    else [js[0]] + WithoutId(js[1..], id)
  }

  /** UPDATE_CONTENT's shallow merge of the supplied fields. */
  function Merge(s: State, p: ContentPatch): State
  {
    s.(agreementTitle := if p.agreementTitle.Some? then p.agreementTitle.value else s.agreementTitle,
       agreementIntro := if p.agreementIntro.Some? then p.agreementIntro.value else s.agreementIntro,
       valueAddedServices := if p.valueAddedServices.Some? then p.valueAddedServices.value else s.valueAddedServices,
       aggregatorServices := if p.aggregatorServices.Some? then p.aggregatorServices.value else s.aggregatorServices,
       pricingNotes := if p.pricingNotes.Some? then p.pricingNotes.value else s.pricingNotes,
       termsAndConditions := if p.termsAndConditions.Some? then p.termsAndConditions.value else s.termsAndConditions,
       setupFee := if p.setupFee.Some? then p.setupFee.value else s.setupFee,
       annualFee := if p.annualFee.Some? then p.annualFee.value else s.annualFee,
       brandName := if p.brandName.Some? then p.brandName.value else s.brandName,
       logoUrl := if p.logoUrl.Some? then p.logoUrl.value else s.logoUrl)
  }

  /** `agreementReducer`. */
  function Reduce(cat: Catalog, s: State, a: Action, clock: string): State
  {
    match a
    case AddJourney(name, checks) =>
      var j := Journey(clock, name, checks, JourneyTotal(cat, checks, s.priceOverrides, s.multipliers));
      s.(journeys := s.journeys + [j], isJourneyModalOpen := false, editingJourney := None)
    case UpdateJourney(id, name, checks) =>
      var total := JourneyTotal(cat, checks, s.priceOverrides, s.multipliers);
      s.(journeys := ReplaceJourney(s.journeys, id, name, checks, total), isJourneyModalOpen := false, editingJourney := None)
    case DeleteJourney(id) =>
      s.(journeys := WithoutId(s.journeys, id))
    case OpenJourneyModal(j) =>
      s.(editingJourney := j, isJourneyModalOpen := true)
    case CloseJourneyModal =>
      s.(editingJourney := None, isJourneyModalOpen := false)
    case SetPriceOverride(name, price) =>
      s.(priceOverrides := s.priceOverrides[name := price], editingCheck := None)
    case OpenPriceModal(name, price) =>
      s.(editingCheck := Some(PriceTarget(name, price)))
    case ClosePriceModal =>
      s.(editingCheck := None)
    case SetMultiplier(name, multiplier) =>
      s.(multipliers := s.multipliers[name := multiplier], editingMultiplier := None)
    case OpenMultiplierModal(name, labelText, defaultValue) =>
      s.(editingMultiplier := Some(MultiplierTarget(name, labelText, defaultValue)))
    case CloseMultiplierModal =>
      s.(editingMultiplier := None)
    case OpenCostsModal =>
      s.(isCostsModalOpen := true)
    case CloseCostsModal =>
      s.(isCostsModalOpen := false)
    case UpdateContent(p) =>
      Merge(s, p).(isCostsModalOpen := false)
  }

  // ----- Frames: which fields an action may change -----

  /** `r` equals `s` except possibly in the five editing-surface fields. */
  ghost predicate SameDocument(r: State, s: State) {
    r.(isCostsModalOpen := s.isCostsModalOpen, editingJourney := s.editingJourney,
       isJourneyModalOpen := s.isJourneyModalOpen, editingCheck := s.editingCheck,
       editingMultiplier := s.editingMultiplier) == s
  }

  /** The price rule. An override wins and is multiplied; otherwise the
      first catalog entry's price is; an unknown name costs 0. */
  lemma CheckPriceCases(cat: Catalog, name: string, overrides: map<string, int>, multipliers: map<string, int>)
    ensures name in overrides ==>
      CheckPrice(cat, name, overrides, multipliers) == overrides[name] * Factor(multipliers, name)
    ensures name !in overrides && name in Names(AllChecks(cat)) ==>
      var c := Find(AllChecks(cat), name).value;
      c in AllChecks(cat) && c.name == name
        && CheckPrice(cat, name, overrides, multipliers) == c.price * Factor(multipliers, name)
    ensures name !in overrides && name !in Names(AllChecks(cat)) ==>
      CheckPrice(cat, name, overrides, multipliers) == 0
  {
    LookupMissing(cat, name);
    LookupIsFirstMatch(cat, name);
  }

  /** With no override and no multiplier, a check of a catalog without
      repeated names costs its catalog price. */
  lemma CheckPriceOfCatalogCheck(cat: Catalog, c: Check)
    requires UniqueNames(AllChecks(cat))
    requires c in AllChecks(cat)
    ensures CheckPrice(cat, c.name, map[], map[]) == c.price
  {
    LookupUnique(cat, c);
  }

  /** A multiplier of 0 prices like a missing one (`|| 1`). */
  lemma ZeroMultiplierIsOne(cat: Catalog, name: string, overrides: map<string, int>, multipliers: map<string, int>)
    ensures CheckPrice(cat, name, overrides, multipliers[name := 0]) == CheckPrice(cat, name, overrides, multipliers - {name})
    ensures CheckPrice(cat, name, overrides, multipliers - {name}) == BasePrice(cat, name, overrides)
  {
  }

  /** No catalog price is negative. */
  ghost predicate PricesNonNegative(cat: Catalog) {
    forall c :: c in AllChecks(cat) ==> c.price >= 0
  }

  /** The application's catalog has no negative price. */
  lemma IdCatalogPricesNonNegative()
    ensures PricesNonNegative(IdCatalog)
  {
    IdCatalogPricesPositive();
  }

  /** When catalog prices are not negative, a base price is negative only
      when an override makes it so. */
  lemma BasePriceNonNegative(cat: Catalog, name: string, overrides: map<string, int>)
    requires PricesNonNegative(cat)
    requires name in overrides ==> overrides[name] >= 0
    ensures BasePrice(cat, name, overrides) >= 0
  {
    if name !in overrides {
      var r := Lookup(cat, name);
      if r.Some? {
        LookupIsFirstMatch(cat, name);
        assert r.value in AllChecks(cat);
      }
    }
  }

  /** Prices cannot be negative while overrides are not negative and
      multipliers are not negative, as the editing dialogs ensure. */
  lemma {:induction false} PriceSumNonNegative(cat: Catalog, names: seq<string>, overrides: map<string, int>, multipliers: map<string, int>)
    requires PricesNonNegative(cat)
    requires forall n :: n in overrides ==> overrides[n] >= 0
    requires forall n :: n in multipliers ==> multipliers[n] >= 0
    ensures PriceSum(cat, names, overrides, multipliers) >= 0
  {
    if names != [] {
      var n := names[|names| - 1];
      PriceSumNonNegative(cat, names[..|names| - 1], overrides, multipliers);
      CheckPriceNonNegative(cat, n, overrides, multipliers);
    }
  }

  lemma CheckPriceNonNegative(cat: Catalog, name: string, overrides: map<string, int>, multipliers: map<string, int>)
    requires PricesNonNegative(cat)
    requires name in overrides ==> overrides[name] >= 0
    requires name in multipliers ==> multipliers[name] >= 0
    ensures CheckPrice(cat, name, overrides, multipliers) >= 0
  {
    BasePriceNonNegative(cat, name, overrides);
    var b, f := BasePrice(cat, name, overrides), Factor(multipliers, name);
    assert f > 0;
    assert b * f >= 0;
  }

  lemma {:induction false} PriceSumAppend(cat: Catalog, a: seq<string>, b: seq<string>, overrides: map<string, int>, multipliers: map<string, int>)
    ensures PriceSum(cat, a + b, overrides, multipliers) == PriceSum(cat, a, overrides, multipliers) + PriceSum(cat, b, overrides, multipliers)
  {
    if b == [] {
      assert a + b == a;
    } else {
      assert (a + b)[..|a + b| - 1] == a + b[..|b| - 1];
      PriceSumAppend(cat, a, b[..|b| - 1], overrides, multipliers);
    }
  }

  /** ADD_JOURNEY appends exactly one journey, priced at the moment of the
      action and carrying the clock reading as its id, and closes the
      journey editor; nothing else changes. */
  lemma AddJourneyAppends(cat: Catalog, s: State, name: string, checks: Flags, clock: string)
    ensures var r := Reduce(cat, s, AddJourney(name, checks), clock);
      && |r.journeys| == |s.journeys| + 1
      && r.journeys[..|s.journeys|] == s.journeys
      && r.journeys[|s.journeys|] == Journey(clock, name, checks, JourneyTotal(cat, checks, s.priceOverrides, s.multipliers))
      && !r.isJourneyModalOpen && r.editingJourney == None
      && r.(journeys := s.journeys, isJourneyModalOpen := s.isJourneyModalOpen, editingJourney := s.editingJourney) == s
  {
  }

  /** UPDATE_JOURNEY keeps the list's length, order and ids, rewrites only
      the journeys with the id, and closes the journey editor. */
  lemma UpdateJourneyReplaces(cat: Catalog, s: State, id: string, name: string, checks: Flags, clock: string)
    ensures var r := Reduce(cat, s, UpdateJourney(id, name, checks), clock);
      && |r.journeys| == |s.journeys|
      && (forall i :: 0 <= i < |s.journeys| ==> r.journeys[i].id == s.journeys[i].id)
      && (forall i :: 0 <= i < |s.journeys| && s.journeys[i].id != id ==> r.journeys[i] == s.journeys[i])
      && (forall i :: 0 <= i < |s.journeys| && s.journeys[i].id == id ==>
            r.journeys[i] == Journey(id, name, checks, JourneyTotal(cat, checks, s.priceOverrides, s.multipliers)))
      && !r.isJourneyModalOpen && r.editingJourney == None
      && r.(journeys := s.journeys, isJourneyModalOpen := s.isJourneyModalOpen, editingJourney := s.editingJourney) == s
  {
  }

  /** An UPDATE_JOURNEY for an id no journey has leaves the journeys as they
      are, but still closes the journey editor. */
  lemma {:induction false} UpdateUnknownJourney(cat: Catalog, s: State, id: string, name: string, checks: Flags, clock: string)
    requires forall j :: j in s.journeys ==> j.id != id
    ensures Reduce(cat, s, UpdateJourney(id, name, checks), clock)
         == s.(isJourneyModalOpen := false, editingJourney := None)
  {
    var r := Reduce(cat, s, UpdateJourney(id, name, checks), clock);
    assert forall i :: 0 <= i < |s.journeys| ==> s.journeys[i].id != id;
    assert r.journeys == s.journeys;
  }

  /** DELETE_JOURNEY keeps exactly the journeys whose id differs. */
  lemma DeleteJourneyFilters(cat: Catalog, s: State, id: string, clock: string)
    ensures var r := Reduce(cat, s, DeleteJourney(id), clock);
      && r.journeys == WithoutId(s.journeys, id)
      && (forall j :: j in r.journeys <==> j in s.journeys && j.id != id)
      && r.(journeys := s.journeys) == s
  {
  }

  /** The deletion filter keeps the original order: it distributes over
      concatenation. */
  lemma {:induction false} WithoutIdAppend(a: seq<Journey>, b: seq<Journey>, id: string)
    ensures WithoutId(a + b, id) == WithoutId(a, id) + WithoutId(b, id)
  {
    if a == [] {
      assert a + b == b;
    } else {
      assert (a + b)[0] == a[0] && (a + b)[1..] == a[1..] + b;
      WithoutIdAppend(a[1..], b, id);
    }
  }

  /** Deleting an id that no journey has returns the state unchanged. */
  lemma {:induction false} DeleteUnknownJourney(cat: Catalog, s: State, id: string, clock: string)
    requires forall j :: j in s.journeys ==> j.id != id
    ensures Reduce(cat, s, DeleteJourney(id), clock) == s
  {
    WithoutIdAbsent(s.journeys, id);
  }

  lemma {:induction false} WithoutIdAbsent(js: seq<Journey>, id: string)
    requires forall j :: j in js ==> j.id != id
    ensures WithoutId(js, id) == js
  {
    if js != [] {
      assert js[0] in js;
      assert forall j :: j in js[1..] ==> j in js;
      WithoutIdAbsent(js[1..], id);
    }
  }

  /** SET_PRICE_OVERRIDE stores the price as given, whatever its sign,
      clears the price editor, and leaves every journey (and so every
      cached total) untouched. */
  lemma SetPriceOverrideStores(cat: Catalog, s: State, name: string, price: int, clock: string)
    ensures var r := Reduce(cat, s, SetPriceOverride(name, price), clock);
      && r.priceOverrides == s.priceOverrides[name := price]
      && r.editingCheck == None
      && r.journeys == s.journeys
      && r.(priceOverrides := s.priceOverrides, editingCheck := s.editingCheck) == s
  {
  }

  /** SET_MULTIPLIER stores the multiplier as given, without clamping it to
      at least 1, and clears the multiplier editor. */
  lemma SetMultiplierStores(cat: Catalog, s: State, name: string, multiplier: int, clock: string)
    ensures var r := Reduce(cat, s, SetMultiplier(name, multiplier), clock);
      && r.multipliers == s.multipliers[name := multiplier]
      && r.editingMultiplier == None
      && r.journeys == s.journeys
      && r.(multipliers := s.multipliers, editingMultiplier := s.editingMultiplier) == s
  {
  }

  /** The open/close actions change only the editing surfaces: journeys,
      overrides, multipliers, fees and content are untouched. */
  /** A non-zero multiplier stored by SET_MULTIPLIER scales that check's
      base price by itself, and every other check keeps its price. */
  lemma MultiplierScalesPrice(cat: Catalog, s: State, name: string, m: int, other: string, clock: string)
    requires m != 0
    ensures var r := Reduce(cat, s, SetMultiplier(name, m), clock);
      && CheckPrice(cat, name, r.priceOverrides, r.multipliers) == BasePrice(cat, name, s.priceOverrides) * m
      && (other != name ==> CheckPrice(cat, other, r.priceOverrides, r.multipliers) == CheckPrice(cat, other, s.priceOverrides, s.multipliers))
  {
    SetMultiplierStores(cat, s, name, m, clock);
    var r := Reduce(cat, s, SetMultiplier(name, m), clock);
    assert r.priceOverrides == s.priceOverrides;
    MultiplierScalesCheck(cat, name, s.priceOverrides, s.multipliers, m, other);
  }

  /** Storing a non-zero multiplier for a name scales its base price and
      leaves every other name's price as it was. */
  lemma MultiplierScalesCheck(cat: Catalog, name: string, overrides: map<string, int>, multipliers: map<string, int>, m: int, other: string)
    requires m != 0
    ensures CheckPrice(cat, name, overrides, multipliers[name := m]) == BasePrice(cat, name, overrides) * m
    ensures other != name ==> CheckPrice(cat, other, overrides, multipliers[name := m]) == CheckPrice(cat, other, overrides, multipliers)
  {
  }

  lemma TransientActionsKeepDocument(cat: Catalog, s: State, a: Action, clock: string)
    requires a.IsTransient()
    ensures SameDocument(Reduce(cat, s, a, clock), s)
  {
  }

  /** Each open/close action sets exactly its own fields. */
  lemma TransientActionsOwnFields(cat: Catalog, s: State, a: Action, clock: string)
    requires a.IsTransient()
    ensures var r := Reduce(cat, s, a, clock);
      && (a.OpenJourneyModal? ==> r == s.(editingJourney := a.journey, isJourneyModalOpen := true))
      && (a.CloseJourneyModal? ==> r == s.(editingJourney := None, isJourneyModalOpen := false))
      && (a.OpenPriceModal? ==> r == s.(editingCheck := Some(PriceTarget(a.name, a.price))))
      && (a.ClosePriceModal? ==> r == s.(editingCheck := None))
      && (a.OpenMultiplierModal? ==> r == s.(editingMultiplier := Some(MultiplierTarget(a.name, a.labelText, a.defaultValue))))
      && (a.CloseMultiplierModal? ==> r == s.(editingMultiplier := None))
      && (a.OpenCostsModal? ==> r == s.(isCostsModalOpen := true))
      && (a.CloseCostsModal? ==> r == s.(isCostsModalOpen := false))
  {
  }

  /** UPDATE_CONTENT overwrites exactly the supplied fields, closes the costs
      dialog, and leaves journeys, prices and editors alone. */
  lemma UpdateContentMerges(cat: Catalog, s: State, p: ContentPatch, clock: string)
    ensures var r := Reduce(cat, s, UpdateContent(p), clock);
      && !r.isCostsModalOpen
      && r.journeys == s.journeys && r.priceOverrides == s.priceOverrides && r.multipliers == s.multipliers
      && r.editingJourney == s.editingJourney && r.isJourneyModalOpen == s.isJourneyModalOpen
      && r.editingCheck == s.editingCheck && r.editingMultiplier == s.editingMultiplier
      && r.setupFee == (if p.setupFee.Some? then p.setupFee.value else s.setupFee)
      && r.annualFee == (if p.annualFee.Some? then p.annualFee.value else s.annualFee)
      && r.brandName == (if p.brandName.Some? then p.brandName.value else s.brandName)
      && r.logoUrl == (if p.logoUrl.Some? then p.logoUrl.value else s.logoUrl)
      && r.agreementTitle == (if p.agreementTitle.Some? then p.agreementTitle.value else s.agreementTitle)
      && r.agreementIntro == (if p.agreementIntro.Some? then p.agreementIntro.value else s.agreementIntro)
      && r.pricingNotes == (if p.pricingNotes.Some? then p.pricingNotes.value else s.pricingNotes)
      && r.termsAndConditions == (if p.termsAndConditions.Some? then p.termsAndConditions.value else s.termsAndConditions)
      && r.valueAddedServices == (if p.valueAddedServices.Some? then p.valueAddedServices.value else s.valueAddedServices)
      && r.aggregatorServices == (if p.aggregatorServices.Some? then p.aggregatorServices.value else s.aggregatorServices)
  {
  }

  /** An empty patch only closes the costs dialog. */
  lemma EmptyPatchOnlyCloses(cat: Catalog, s: State, clock: string)
    ensures Reduce(cat, s, UpdateContent(ContentPatch(None, None, None, None, None, None, None, None, None, None)), clock)
         == s.(isCostsModalOpen := false)
  {
  }

  // ----- Invariants -----

  ghost predicate DistinctIds(js: seq<Journey>) {
    forall i, j :: 0 <= i < j < |js| ==> js[i].id != js[j].id
  }

  /** Journey ids stay unique as long as the clock never repeats a reading
      that is already an id. */
  lemma ReducePreservesDistinctIds(cat: Catalog, s: State, a: Action, clock: string)
    requires DistinctIds(s.journeys)
    requires a.AddJourney? ==> forall j :: j in s.journeys ==> j.id != clock
    ensures DistinctIds(Reduce(cat, s, a, clock).journeys)
  {
    var r := Reduce(cat, s, a, clock);
    match a
    case AddJourney(_, _) =>
      forall i, k | 0 <= i < k < |r.journeys| ensures r.journeys[i].id != r.journeys[k].id {
        if k == |s.journeys| {
          assert s.journeys[i] in s.journeys;
        }
      }
    case DeleteJourney(id) =>
      WithoutIdDistinct(s.journeys, id);
    case _ =>
  }

  lemma {:induction false} WithoutIdDistinct(js: seq<Journey>, id: string)
    requires DistinctIds(js)
    ensures DistinctIds(WithoutId(js, id))
  {
    if js != [] {
      assert DistinctIds(js[1..]) by {
        forall i, j | 0 <= i < j < |js[1..]| ensures js[1..][i].id != js[1..][j].id {
          assert js[1..][i] == js[i + 1] && js[1..][j] == js[j + 1];
        }
      }
      WithoutIdDistinct(js[1..], id);
      var rest := WithoutId(js[1..], id);
      forall j | j in rest ensures j.id != js[0].id {
        var k :| 0 <= k < |js[1..]| && js[1..][k] == j;
        assert js[k + 1] == j;
      }
    }
  }

  /** Every cached total agrees with the live price of its journey. */
  ghost predicate TotalsCurrent(cat: Catalog, s: State) {
    forall j :: j in s.journeys ==> j.totalPrice == JourneyTotal(cat, j.selectedChecks, s.priceOverrides, s.multipliers)
  }

  /** Every action except the two price edits keeps the cached totals
      current: adding or updating a journey prices it afresh. */
  lemma ReduceKeepsTotalsCurrent(cat: Catalog, s: State, a: Action, clock: string)
    requires TotalsCurrent(cat, s)
    requires !a.SetPriceOverride? && !a.SetMultiplier?
    ensures TotalsCurrent(cat, Reduce(cat, s, a, clock))
  {
    var r := Reduce(cat, s, a, clock);
    match a
    case UpdateJourney(id, name, checks) =>
      forall j | j in r.journeys
        ensures j.totalPrice == JourneyTotal(cat, j.selectedChecks, r.priceOverrides, r.multipliers)
      {
        var i :| 0 <= i < |r.journeys| && r.journeys[i] == j;
        assert s.journeys[i] in s.journeys;
      }
    case _ =>
  }

  /** The initial state has no journeys, no price overrides and no
      multipliers. */
  lemma InitialPricing()
    ensures InitialState.journeys == [] && InitialState.priceOverrides == map[] && InitialState.multipliers == map[]
  {
  }

  /** The staleness window: a price override does not reprice saved
      journeys, so their cached totals go out of date. A journey with
      Aadhaar saved at 30 keeps 30 after Aadhaar is overridden to 20. */
  lemma PriceOverrideLeavesTotalsStale(s: State)
    requires s.journeys == [Journey("j1", "J1", [("Aadhaar", true)], 30)]
    requires s.priceOverrides == map[] && s.multipliers == map[]
    ensures TotalsCurrent(IdCatalog, s)
    ensures var r := Reduce(IdCatalog, s, SetPriceOverride("Aadhaar", 20), "t");
      !TotalsCurrent(IdCatalog, r) && r.journeys[0].totalPrice == 30
  {
    AadhaarListPrice();
    StaleAfterOverride(IdCatalog, s);
  }

  /** Aadhaar is listed at 30. */
  lemma AadhaarListPrice()
    ensures Lookup(IdCatalog, "Aadhaar").Some? && Lookup(IdCatalog, "Aadhaar").value.price == 30
  {
    IdCatalogKnownPrices();
  }

  /** The staleness window, for any catalog that lists Aadhaar at 30. */
  lemma StaleAfterOverride(cat: Catalog, s: State)
    requires Lookup(cat, "Aadhaar").Some? && Lookup(cat, "Aadhaar").value.price == 30
    requires s.journeys == [Journey("j1", "J1", [("Aadhaar", true)], 30)]
    requires s.priceOverrides == map[] && s.multipliers == map[]
    ensures TotalsCurrent(cat, s)
    ensures var r := Reduce(cat, s, SetPriceOverride("Aadhaar", 20), "t");
      !TotalsCurrent(cat, r) && r.journeys[0].totalPrice == 30
  {
    AadhaarTotal(cat, map[], map[]);
    AadhaarTotal(cat, map["Aadhaar" := 20], map[]);
    var r := Reduce(cat, s, SetPriceOverride("Aadhaar", 20), "t");
    assert r.priceOverrides == map["Aadhaar" := 20];
    assert r.journeys[0] in r.journeys;
  }

  /** The total of a journey holding only Aadhaar is Aadhaar's price. */
  lemma AadhaarTotal(cat: Catalog, overrides: map<string, int>, multipliers: map<string, int>)
    requires Lookup(cat, "Aadhaar").Some? && Lookup(cat, "Aadhaar").value.price == 30
    ensures JourneyTotal(cat, [("Aadhaar", true)], overrides, multipliers) == CheckPrice(cat, "Aadhaar", overrides, multipliers)
    ensures CheckPrice(cat, "Aadhaar", overrides, multipliers)
         == (if "Aadhaar" in overrides then overrides["Aadhaar"] else 30) * Factor(multipliers, "Aadhaar")
  {
    assert TrueKeys([("Aadhaar", true)]) == ["Aadhaar"];
    assert PriceSum(cat, ["Aadhaar"], overrides, multipliers) == PriceSum(cat, [], overrides, multipliers) + CheckPrice(cat, "Aadhaar", overrides, multipliers);
  }

  // ----- Scenarios -----

  /** From a state without overrides or multipliers (the initial state is
      one), a journey with only Aadhaar is cached at 30; after an override
      to 20 and a multiplier of 3 the live price of Aadhaar is 60. */
  lemma AadhaarScenario(s: State)
    requires s.priceOverrides == map[] && s.multipliers == map[]
    ensures var r := Reduce(IdCatalog, s, AddJourney("J1", [("Aadhaar", true)]), "t0");
      |r.journeys| == |s.journeys| + 1 && r.journeys[|s.journeys|].totalPrice == 30
    ensures var s1 := Reduce(IdCatalog, s, SetPriceOverride("Aadhaar", 20), "t1");
            var s2 := Reduce(IdCatalog, s1, SetMultiplier("Aadhaar", 3), "t2");
            CheckPrice(IdCatalog, "Aadhaar", s2.priceOverrides, s2.multipliers) == 60
  {
    AadhaarListPrice();
    AadhaarPricedUp(IdCatalog, s);
  }

  /** The Aadhaar scenario, for any catalog that lists Aadhaar at 30. */
  lemma AadhaarPricedUp(cat: Catalog, s: State)
    requires Lookup(cat, "Aadhaar").Some? && Lookup(cat, "Aadhaar").value.price == 30
    requires s.priceOverrides == map[] && s.multipliers == map[]
    ensures var r := Reduce(cat, s, AddJourney("J1", [("Aadhaar", true)]), "t0");
      |r.journeys| == |s.journeys| + 1 && r.journeys[|s.journeys|].totalPrice == 30
    ensures var s1 := Reduce(cat, s, SetPriceOverride("Aadhaar", 20), "t1");
            var s2 := Reduce(cat, s1, SetMultiplier("Aadhaar", 3), "t2");
            CheckPrice(cat, "Aadhaar", s2.priceOverrides, s2.multipliers) == 60
  {
    AadhaarTotal(cat, map[], map[]);
    AadhaarTotal(cat, map["Aadhaar" := 20], map["Aadhaar" := 3]);
    var s1 := Reduce(cat, s, SetPriceOverride("Aadhaar", 20), "t1");
    var s2 := Reduce(cat, s1, SetMultiplier("Aadhaar", 3), "t2");
    assert s2.priceOverrides == map["Aadhaar" := 20] && s2.multipliers == map["Aadhaar" := 3];
  }

  /** Adding a journey and then updating it under its new id adds exactly
      one journey. */
  lemma AddThenUpdateAddsOne(cat: Catalog, s: State, name: string, checks: Flags, name2: string, checks2: Flags, clock: string, clock2: string)
    ensures |Reduce(cat, Reduce(cat, s, AddJourney(name, checks), clock), UpdateJourney(clock, name2, checks2), clock2).journeys|
         == |s.journeys| + 1
  {
  }

  /** After a journey is deleted, an update naming its old id changes no
      journey; it only closes the journey editor. */
  lemma DeleteThenUpdate(cat: Catalog, s: State, id: string, name: string, checks: Flags, clock: string)
    ensures var d := Reduce(cat, s, DeleteJourney(id), clock);
      Reduce(cat, d, UpdateJourney(id, name, checks), clock) == d.(isJourneyModalOpen := false, editingJourney := None)
  {
    var d := Reduce(cat, s, DeleteJourney(id), clock);
    UpdateUnknownJourney(cat, d, id, name, checks, clock);
  }
}
