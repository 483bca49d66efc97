# Equal agreement portal — a Dafny model of its pricing and journey core

The agreement portal is a single-page editor. A sales team uses it to put
together a digital agreement for a client. The client's verification needs
are grouped into *journeys*: a journey is a named bundle of identity,
criminal, address, education and employment checks drawn from a fixed
catalog. Every check has a list price. A price can be overridden, and a few
checks carry a per-unit multiplier. The agreement also carries a one-time
set-up fee, an annual fee, value-added services and pricing notes. Its PDF
rendering lists every selected check with its price, the checks that come
with extra insights, and the fee summary.

This project models the logic behind that editor:

- `Types` holds the shared records: a check, a journey, a value-added
  service. It also holds the insertion-ordered flag dictionary that a
  journey uses for its selected checks. `Put` replaces a key in place or
  appends it; `Get` reads a key; `TrueKeys` lists the keys flagged on.
- `IdChecks` holds the check catalog: nine categories and 27 checks, with
  their prices and insights. It also defines first-match lookup of a check
  by name, category by category.
- `AgreementContext` is the application reducer: the 18-field state, the
  14 actions, pricing of a check, and journey totals cached when a journey
  is saved.
- `JourneyBuilder` is the journey editor dialog:
  - check toggling, and the quantity prompt for the special checks;
  - "Select All" per category;
  - which checks other journeys already hold;
  - catalog filtering by category and search text;
  - the displayed price and the save action.

  The dialog's four pieces of local state form the class `Dialog`.
- `ServicesTable`, `InsightsTable` and `PricingSummary` compute the rows
  of the PDF's services table, insights table and notes list.
- `EditableServiceTable` covers editing, adding and removing value-added
  services.
- `Page` covers the grand total shown on the page and the download file
  name.
- `JsNumber` models JavaScript's `parseInt`: whitespace trimming, sign,
  radix and hex prefix, longest digit prefix, and NaN.
- `AdditionalCosts` covers the fee dialog: parsing with commas removed,
  Indian digit grouping, and the dialog state as the class `CostsDialog`.
- `MultiplierInput` covers the quantity dialog: clamping to at least 1,
  and the dialog state as the class `MultiplierDialog`.
- `JourneyCard` is the summary card of one journey.
- `Text` holds ASCII lower-casing and substring search.

The reducer and the derived views are pure functions of the state. Code
the source writes as a loop is modelled as a method with loop invariants,
proved against a specification function:

- `SelectAll`;
- `UnavailableChecks`;
- `FilteredChecks`;
- `ItemChange`, which copies into an array and updates one slot.

React component state that is updated in place is modelled as classes:

- `JourneyBuilder.Dialog`;
- `AdditionalCosts.CostsDialog`;
- `MultiplierInput.MultiplierDialog`.

The check catalog is a parameter of the reducer and the views. The
application always passes `IdChecks.IdCatalog`. The facts the general
lemmas need about it are proved once: `IdChecks.IdCatalogNamesUnique`
(no repeated names) and `AgreementContext.IdCatalogPricesNonNegative`.

The reducer's `ADD_JOURNEY` uses the wall clock for the new journey's id.
The model takes the clock reading as a parameter of `Reduce`.

## Behaviour as coded

Some behaviours of the code are easy to mistake for something else. The
model keeps them as they are and states them:

- `SET_MULTIPLIER` stores the quantity unclamped. Only the quantity dialog
  clamps to at least 1. See `AgreementContext.SetMultiplierStores`.
- An `UPDATE_JOURNEY` for an unknown id changes no journey but still
  closes the journey editor. See `AgreementContext.UpdateUnknownJourney`.
- The grand total on the page sums the cached journey totals. A later
  price override or multiplier does not move it until the journey is saved
  again. See `Page.GrandTotalIgnoresPriceEdits` and
  `Page.GrandTotalMatchesTable`.
- The services table lists a check once per journey that ticks it. See
  `ServicesTable.SameCheckInTwoJourneys`.
- The multiplier factor is `multiplier || 1`, so a stored 0 counts as 1.
  See `AgreementContext.ZeroMultiplierIsOne`.

## Model

| member | source | states |
|---|---|---|
| Types.Keys | src/components/JourneyCard.tsx:15 | the keys of a selected-checks dictionary, in order, one per entry |
| Types.Get | src/components/JourneyBuilderModal.tsx:181 | a name has a value iff it is a key, and the value read is the one stored with it |
| Types.TrueKeys | src/components/pdf/ServicesTable.tsx:54-55 | the names flagged true are exactly those with a (name, true) entry, never more than the entries |
| Types.TrueKeysAppend | src/lib/AgreementContext.tsx:112-113 | the keys flagged true of two dictionaries joined are those of the first, then those of the second, so key order is kept |
| Types.TrueKeysSingle | src/lib/AgreementContext.tsx:113 | one entry contributes its key iff it is flagged true |
| Types.PutKeys | src/components/JourneyBuilderModal.tsx:59 | spreading a new value over a dictionary keeps an existing key in its place and appends a new key at the end |
| Types.PutGet | src/components/JourneyBuilderModal.tsx:59 | after the spread, the written name reads the new value and every other name reads what it read before |
| Types.PutGetAll | src/components/JourneyBuilderModal.tsx:59 | the same read-back property, for all names at once |
| Types.PutDistinct | src/components/JourneyBuilderModal.tsx:59 | the spread never creates a repeated key |
| Types.IsOnIffEntry | src/components/pdf/ServicesTable.tsx:55 | without repeated keys, a truthy flag is the same as holding the entry (name, true) |
| IdChecks.AllChecksMembers | src/lib/id-checks.ts:11-56 | the flattened catalog holds every check of every category, and only those |
| IdChecks.Categories | src/lib/id-checks.ts:11-56 | the category names, in declaration order |
| IdChecks.Names | src/components/JourneyBuilderModal.tsx:63 | the name of each check, position by position |
| IdChecks.Find | src/components/pdf/ServicesTable.tsx:58 | `find` by name: none iff no check has the name, otherwise a check of the list with that name |
| IdChecks.FindFirst | src/components/pdf/ServicesTable.tsx:58 | `find` returns the first check with the name: the one at a position with no earlier match |
| IdChecks.FindAppend | src/components/pdf/ServicesTable.tsx:58 | `find` on a concatenation returns the first part's match if it has one |
| IdChecks.LookupIsFirstMatch | src/components/pdf/ServicesTable.tsx:57-58 | the category-then-check lookup finds the first check with the name in the flattened catalog |
| IdChecks.LookupUnique | src/components/pdf/ServicesTable.tsx:57-58 | with unique names, looking up a catalog check's name finds that check |
| IdChecks.LookupMissing | src/components/pdf/ServicesTable.tsx:57-59 | the lookup fails iff no catalog check has the name |
| IdChecks.NamesAppend | src/lib/id-checks.ts:11-56 | names distribute over concatenation |
| IdChecks.AllChecks9 | src/lib/id-checks.ts:11-56 | flattening a nine-category catalog concatenates the categories in order |
| IdChecks.IdCatalogFlat | src/lib/id-checks.ts:11-56 | the flattened catalog is the nine categories in declaration order |
| IdChecks.IdCatalogCategories | src/lib/id-checks.ts:12-54 | the nine category names, in order |
| IdChecks.IdCatalogNames | src/lib/id-checks.ts:13-55 | the 27 check names, in catalog order |
| IdChecks.IdCatalogNamesUnique | src/lib/id-checks.ts:13-55 | no two catalog checks share a name |
| IdChecks.IdCatalogPricesPositive | src/lib/id-checks.ts:13-55 | every catalog price is positive |
| IdChecks.InsightChecksMembers | src/lib/id-checks.ts:8 | the insight filter keeps the checks with a non-empty insights text, and only those |
| IdChecks.InsightChecksAppend | src/lib/id-checks.ts:8 | the insight filter distributes over concatenation, so it keeps catalog order |
| IdChecks.IdCatalogInsights | src/lib/id-checks.ts:15-49 | exactly seven checks carry insights, and the lemma names them in catalog order |
| IdChecks.IdCatalogKnownPrices | src/lib/id-checks.ts:13-55 | the list prices of the checks the other proofs use |
| Text.LowerChar | src/components/JourneyBuilderModal.tsx:95 | each upper-case ASCII letter maps to its own lower-case letter; other characters are unchanged |
| Text.Lower | src/components/JourneyBuilderModal.tsx:95 | lower-casing keeps the length and maps each character |
| Text.ContainsAt | src/components/JourneyBuilderModal.tsx:95 | `includes` holds iff the text occurs at some position |
| Text.ContainsEmpty | src/components/JourneyBuilderModal.tsx:95 | every string includes the empty string |
| Text.ContainsAppend | src/components/pdf/PricingSummary.tsx:116 | text found in a suffix is found in the whole |
| AgreementContext.Factor | src/lib/AgreementContext.tsx:105 | `multiplier \|\| 1` is never 0: it is the stored multiplier when that is non-zero, and 1 for a check without a multiplier |
| AgreementContext.ReplaceJourney | src/lib/AgreementContext.tsx:123-137 | same length and ids; journeys with the id take the new name, checks and total; all others are unchanged |
| AgreementContext.WithoutId | src/lib/AgreementContext.tsx:138-139 | keeps exactly the journeys whose id differs, never more |
| AgreementContext.CheckPriceCases | src/lib/AgreementContext.tsx:95-107 | the price is the override times the factor if there is one, otherwise the first catalog match's price times the factor, otherwise 0 |
| AgreementContext.CheckPriceOfCatalogCheck | src/lib/AgreementContext.tsx:95-107 | with no override or multiplier, a catalog check costs its list price |
| AgreementContext.ZeroMultiplierIsOne | src/lib/AgreementContext.tsx:105 | a stored multiplier of 0 prices like no multiplier: the base price |
| AgreementContext.IdCatalogPricesNonNegative | src/lib/id-checks.ts:13-55 | the application's catalog has no negative price |
| AgreementContext.BasePriceNonNegative | src/lib/AgreementContext.tsx:96-104 | a base price is non-negative when any override is |
| AgreementContext.CheckPriceNonNegative | src/lib/AgreementContext.tsx:95-107 | a price is non-negative when any override and multiplier are |
| AgreementContext.PriceSumNonNegative | src/lib/AgreementContext.tsx:114-116 | a journey total is non-negative under non-negative overrides and multipliers |
| AgreementContext.PriceSumAppend | src/lib/AgreementContext.tsx:114-116 | the sum of check prices distributes over concatenation |
| AgreementContext.AddJourneyAppends | src/lib/AgreementContext.tsx:111-122 | ADD_JOURNEY appends one journey with the clock as id, the given name and checks and the current total, closes the editor, and changes nothing else |
| AgreementContext.UpdateJourneyReplaces | src/lib/AgreementContext.tsx:123-137 | UPDATE_JOURNEY keeps length and ids, rewrites every journey with the id at the current prices, keeps the others, and closes the editor |
| AgreementContext.UpdateUnknownJourney | src/lib/AgreementContext.tsx:123-137 | an update for an absent id changes no journey but still closes the editor |
| AgreementContext.DeleteJourneyFilters | src/lib/AgreementContext.tsx:138-139 | DELETE_JOURNEY keeps exactly the journeys with other ids, in order, and touches no other field |
| AgreementContext.WithoutIdAppend | src/lib/AgreementContext.tsx:139 | the delete filter distributes over concatenation, so it keeps order |
| AgreementContext.DeleteUnknownJourney | src/lib/AgreementContext.tsx:138-139 | deleting an absent id returns the state unchanged |
| AgreementContext.SetPriceOverrideStores | src/lib/AgreementContext.tsx:144-145 | SET_PRICE_OVERRIDE stores the price as given, closes the price editor, and leaves the journeys and their totals alone |
| AgreementContext.SetMultiplierStores | src/lib/AgreementContext.tsx:150-151 | SET_MULTIPLIER stores the multiplier unclamped, clears the multiplier editor, and leaves the journeys alone |
| AgreementContext.MultiplierScalesCheck | src/lib/AgreementContext.tsx:95-107 | a non-zero multiplier for a name multiplies that name's base price by it and leaves every other name's price unchanged |
| AgreementContext.MultiplierScalesPrice | src/lib/AgreementContext.tsx:95-107 | after SET_MULTIPLIER with a non-zero value, the check is priced at its base price times that value, and every other check keeps its price |
| AgreementContext.TransientActionsKeepDocument | src/lib/AgreementContext.tsx:140-159 | the open/close actions leave journeys, prices, fees and content unchanged |
| AgreementContext.TransientActionsOwnFields | src/lib/AgreementContext.tsx:140-159 | each open/close action sets exactly its own flag and editing target |
| AgreementContext.UpdateContentMerges | src/lib/AgreementContext.tsx:160-161 | UPDATE_CONTENT overwrites exactly the supplied fields, closes the costs dialog, and keeps everything else |
| AgreementContext.EmptyPatchOnlyCloses | src/lib/AgreementContext.tsx:160-161 | an empty patch only closes the costs dialog |
| AgreementContext.ReducePreservesDistinctIds | src/lib/AgreementContext.tsx:109-165 | journey ids stay distinct through every action, provided the clock does not repeat an existing id |
| AgreementContext.ReduceKeepsTotalsCurrent | src/lib/AgreementContext.tsx:109-165 | every action except the two price edits keeps each cached total equal to the live price of its checks |
| AgreementContext.InitialPricing | src/lib/AgreementContext.tsx:52-57 | the initial state has no journeys, overrides or multipliers |
| AgreementContext.PriceOverrideLeavesTotalsStale | src/lib/AgreementContext.tsx:144-145 | a saved total is not repriced by a later override: from a state without overrides or multipliers, a journey holding Aadhaar and cached at 30 is current, and after Aadhaar is overridden to 20 it is stale and still shows 30 |
| AgreementContext.StaleAfterOverride | src/lib/AgreementContext.tsx:144-145 | the same staleness, for any catalog that lists Aadhaar at 30 |
| AgreementContext.AadhaarListPrice | src/lib/id-checks.ts:13 | the catalog scan finds Aadhaar at 30 |
| AgreementContext.AadhaarTotal | src/lib/AgreementContext.tsx:95-116 | a journey holding only Aadhaar totals Aadhaar's price |
| AgreementContext.AadhaarScenario | src/lib/AgreementContext.tsx:95-151 | from any state without overrides or multipliers (the initial state is one), a new Aadhaar-only journey is appended and caches 30; after overriding Aadhaar to 20 and setting its multiplier to 3, Aadhaar is priced at 60 |
| AgreementContext.AadhaarPricedUp | src/lib/AgreementContext.tsx:95-151 | the same scenario, for any catalog that lists Aadhaar at 30 |
| AgreementContext.AddThenUpdateAddsOne | src/lib/AgreementContext.tsx:111-137 | adding a journey and then updating it under its new id leaves exactly one more journey |
| AgreementContext.DeleteThenUpdate | src/lib/AgreementContext.tsx:123-139 | after a delete, an update for the deleted id changes no journey |
| JourneyBuilder.CheckChange | src/components/JourneyBuilderModal.tsx:55-60 | the toggled check reads the new value, the others are unchanged, key order is kept, and the quantity prompt fires iff a special check goes from off to on |
| JourneyBuilder.PromptOnlyOnFirstSelection | src/components/JourneyBuilderModal.tsx:56 | ticking a special check that is already ticked does not prompt again |
| JourneyBuilder.SelectAll | src/components/JourneyBuilderModal.tsx:62-71 | the loop sets each listed check to "not all were on" |
| JourneyBuilder.PutAllGet | src/components/JourneyBuilderModal.tsx:66-69 | after the loop, listed names read the new value and other names are unchanged |
| JourneyBuilder.PutAllDistinct | src/components/JourneyBuilderModal.tsx:66-69 | the loop never repeats a key |
| JourneyBuilder.SelectAllToggles | src/components/JourneyBuilderModal.tsx:62-71 | Select All turns every listed check off if all were on and on otherwise, and leaves unlisted checks alone |
| JourneyBuilder.SelectAllTwiceClears | src/components/JourneyBuilderModal.tsx:62-71 | pressing twice first turns all on, then turns all off |
| JourneyBuilder.OwnerIffBlocked | src/components/JourneyBuilderModal.tsx:82-90 | a check is taken iff some journey other than the edited one has it ticked |
| JourneyBuilder.OwnerIsLastBlocker | src/components/JourneyBuilderModal.tsx:82-90 | the owner named is the last such journey |
| JourneyBuilder.MarkTaken | src/components/JourneyBuilderModal.tsx:86-88 | the inner loop adds exactly the journey's ticked checks, each mapped to that journey, and keeps every other entry |
| JourneyBuilder.UnavailableChecks | src/components/JourneyBuilderModal.tsx:82-90 | the nested loops map exactly the taken checks, each to its last owner |
| JourneyBuilder.MatchingChecksMembers | src/components/JourneyBuilderModal.tsx:95 | the search keeps exactly the checks whose lower-cased name includes the lower-cased search text |
| JourneyBuilder.MatchingChecksAppend | src/components/JourneyBuilderModal.tsx:95 | the search distributes over concatenation, so matches keep their original order and repeats |
| JourneyBuilder.EmptySearchKeepsAll | src/components/JourneyBuilderModal.tsx:95 | an empty search keeps every check |
| JourneyBuilder.FilteredChecks | src/components/JourneyBuilderModal.tsx:92-100 | the filter-and-reduce computes the filtered catalog |
| JourneyBuilder.FilteredCatalogEntries | src/components/JourneyBuilderModal.tsx:92-100 | an entry is in the filtered catalog iff its category passes the filter and it has matching checks; its checks are those matches |
| JourneyBuilder.UnfilteredCatalog | src/components/JourneyBuilderModal.tsx:92-100 | with "All" and no search, a catalog without empty categories comes back unchanged |
| JourneyBuilder.DisplayPriceIsCheckPrice | src/components/JourneyBuilderModal.tsx:168-171 | in a catalog without repeated names, the price shown on a card equals the price the reducer charges |
| JourneyBuilder.SaveEnabledMeans | src/components/JourneyBuilderModal.tsx:199 | save is enabled iff there is a name and some check is ticked |
| JourneyBuilder.SaveAction | src/components/JourneyBuilderModal.tsx:73-80 | save updates the edited journey by its id, or adds a new one, with the dialog's name and checks |
| JourneyBuilder.SaveEditRewritesInPlace | src/components/JourneyBuilderModal.tsx:73-80 | saving an edit rewrites that journey in place and leaves every other journey as it was |
| JourneyBuilder.Dialog.constructor | src/components/JourneyBuilderModal.tsx:40-43 | the dialog starts with no name, no checks, no search and the "All" filter |
| JourneyBuilder.Dialog.Reset | src/components/JourneyBuilderModal.tsx:45-53 | opening loads the edited journey's name and checks, or clears them, and keeps search and filter |
| JourneyBuilder.Dialog.ToggleCheck | src/components/JourneyBuilderModal.tsx:55-60 | the selection becomes the toggled dictionary; the prompt is reported; other fields are kept |
| JourneyBuilder.Dialog.ToggleCategory | src/components/JourneyBuilderModal.tsx:62-71 | the selection becomes the Select All result; other fields are kept |
| JourneyBuilder.Dialog.Save | src/components/JourneyBuilderModal.tsx:73-80 | returns the save action for the current name and checks |
| ServicesTable.SelectedNamesMembers | src/components/pdf/ServicesTable.tsx:53-55 | a name is listed iff some journey has it ticked |
| ServicesTable.SelectedNamesAppend | src/components/pdf/ServicesTable.tsx:53 | the flat map distributes over journeys |
| ServicesTable.Row | src/components/pdf/ServicesTable.tsx:62-68 | a row carries the check's name and its journey's name |
| ServicesTable.RowPrice | src/components/pdf/ServicesTable.tsx:59-67 | a row's price is the reducer's price for the check |
| ServicesTable.CatalogRow | src/components/pdf/ServicesTable.tsx:56-68 | in a catalog without repeated names, a catalog check's row shows its turnaround, its partners and the reducer's price |
| ServicesTable.UnknownRow | src/components/pdf/ServicesTable.tsx:59-67 | a name outside the catalog shows blank details, and is priced at its override, or 0, times the factor |
| ServicesTable.RowsFor | src/components/pdf/ServicesTable.tsx:56-69 | one row per name, in order |
| ServicesTable.ServiceRows | src/components/pdf/ServicesTable.tsx:53-70 | one row per ticked check of each journey, in order and without merging duplicates |
| ServicesTable.ServiceRowsSingle | src/components/pdf/ServicesTable.tsx:53-70 | a single journey's rows are one per check it flags true, in key order, each under that journey's name |
| ServicesTable.ServiceRowsJourney | src/components/pdf/ServicesTable.tsx:53-64 | every row's check is ticked in a journey with the row's journey name |
| ServicesTable.ServiceRowsAppend | src/components/pdf/ServicesTable.tsx:53 | the rows distribute over journeys |
| ServicesTable.TableHiddenIffNothingSelected | src/components/pdf/ServicesTable.tsx:72 | the table is hidden iff no journey ticks any check |
| ServicesTable.RowSumAppend | src/components/pdf/ServicesTable.tsx:67 | row sums distribute over concatenation |
| ServicesTable.RowsForSum | src/components/pdf/ServicesTable.tsx:56-69 | a journey's rows add up to the reducer's total for it |
| ServicesTable.ServiceRowsSum | src/components/pdf/ServicesTable.tsx:53-70 | all rows add up to the live total of all journeys |
| ServicesTable.SameCheckInTwoJourneys | src/components/pdf/ServicesTable.tsx:53-70 | a check ticked in two journeys is listed twice, once under each |
| InsightsTable.InsightLookup | src/components/pdf/InsightsTable.tsx:63-69 | a found check has the name, non-empty insights and belongs to the catalog |
| InsightsTable.InsightLookupUnique | src/components/pdf/InsightsTable.tsx:64-67 | with unique names, the scan returns the named check iff it has insights |
| InsightsTable.InsightNamesAre | src/lib/id-checks.ts:15-49 | the seven names that carry insights |
| InsightsTable.InsightLookupIffListed | src/components/pdf/InsightsTable.tsx:63-69 | in a catalog without repeated names, a name yields an insight row iff a check carrying insights has that name |
| InsightsTable.CatalogInsightLookup | src/components/pdf/InsightsTable.tsx:63-69 | a name yields an insight row iff it is one of those seven |
| InsightsTable.InsightsFor | src/components/pdf/InsightsTable.tsx:61-70 | at most one entry per name; each is a catalog check with insights, named among the inputs |
| InsightsTable.InsightsForAppend | src/components/pdf/InsightsTable.tsx:61-70 | the map-and-filter distributes over concatenation |
| InsightsTable.InsightsForNames | src/components/pdf/InsightsTable.tsx:61-70 | the insight rows are the selected names that carry insights, in order, with repeats kept |
| InsightsTable.Table | src/components/pdf/InsightsTable.tsx:72 | a table that is shown is not empty |
| InsightsTable.TableHiddenIffNoInsight | src/components/pdf/InsightsTable.tsx:72 | the table is hidden iff no ticked check carries insights |
| InsightsTable.KeepInsightNamesEmpty | src/components/pdf/InsightsTable.tsx:70-72 | no names are kept iff none carries insights |
| PricingSummary.NotesShown | src/components/pdf/PricingSummary.tsx:115-120 | never more notes than given |
| PricingSummary.KeptNotes | src/components/pdf/PricingSummary.tsx:116-118 | a note is kept iff it is given and either the education check is selected or it does not mention education verification |
| PricingSummary.KeptNotesAppend | src/components/pdf/PricingSummary.tsx:115-120 | the notes filter distributes over concatenation, so kept notes stay in their original order |
| PricingSummary.NotesShownAreKept | src/components/pdf/PricingSummary.tsx:115-120 | the shown lines are the kept notes, in order, each prefixed with "* " |
| PricingSummary.PlainNotesAlwaysKept | src/components/pdf/PricingSummary.tsx:116-118 | notes that do not mention education verification are all shown |
| PricingSummary.AllKeptWhenEducationSelected | src/components/pdf/PricingSummary.tsx:116 | with the education check selected, every note is shown |
| PricingSummary.EducationNoteDroppedIff | src/components/pdf/PricingSummary.tsx:116-118 | without the education check, a note is dropped iff it mentions education verification |
| PricingSummary.FeeDisplay | src/components/pdf/PricingSummary.tsx:87-109 | a fee is always shown struck out, whether or not it equals its default |
| PricingSummary.FeeDisplayIgnoresDefault | src/components/pdf/PricingSummary.tsx:87-109 | the rendering does not depend on the default fee |
| EditableServiceTable.WithField | src/components/EditableServiceTable.tsx:18 | setting a field changes that field and keeps the other |
| EditableServiceTable.ItemChange | src/components/EditableServiceTable.tsx:16-20 | same length; the slot at the index gets the field; all other slots are unchanged |
| EditableServiceTable.AddItem | src/components/EditableServiceTable.tsx:22-24 | appends one "New Service" entry and keeps the rest |
| EditableServiceTable.RemoveValidIndex | src/components/EditableServiceTable.tsx:26-29 | removing a valid index drops exactly that entry |
| EditableServiceTable.RemoveOutOfRange | src/components/EditableServiceTable.tsx:26-29 | removing an out-of-range index changes nothing |
| EditableServiceTable.AddThenRemove | src/components/EditableServiceTable.tsx:22-29 | adding and then removing the new last entry gives back the list |
| Page.GrandTotalAppend | src/app/page.tsx:51-53 | the grand total distributes over journeys |
| Page.GrandTotalAfterAdd | src/app/page.tsx:51-53 | adding a journey raises the grand total by that journey's current total |
| Page.GrandTotalIgnoresPriceEdits | src/app/page.tsx:51-53 | price overrides and multipliers do not move the grand total |
| Page.GrandTotalFront | src/app/page.tsx:52 | the reduce adds the first journey's total to the rest |
| Page.GrandTotalMatchesTable | src/app/page.tsx:51-53 | while the cached totals are current, the grand total equals the sum of the services table's prices |
| Page.CachedIsLive | src/app/page.tsx:51-53 | when each cached total equals its live price, the cached sum equals the live sum |
| Page.SafeBrandName | src/app/page.tsx:73 | same length; ASCII letters and digits are kept, and every other character becomes '_' |
| Page.SafeBrandNameIdempotent | src/app/page.tsx:73 | sanitising twice is sanitising once |
| Page.DownloadName | src/app/page.tsx:73-74 | the prefix, then the sanitised name or "Agreement" iff the brand name is empty, then ".pdf" |
| Page.DownloadNameIsClean | src/app/page.tsx:73-74 | between the prefix and the extension only letters, digits and '_' occur |
| JsNumber.TrimStart | src/components/AdditionalCostsModal.tsx:51 | drops exactly the leading white space: what remains is a suffix that does not start with white space |
| JsNumber.DigitValue | src/components/AdditionalCostsModal.tsx:51 | a character is a decimal digit iff its value is below 10 |
| JsNumber.DigitPrefix | src/components/AdditionalCostsModal.tsx:51 | the longest prefix of digits valid in the radix |
| JsNumber.Decimal | src/components/JourneyCard.tsx:23 | the decimal text of a number is non-empty, all digits, and without a leading zero |
| JsNumber.DecimalValue | src/components/AdditionalCostsModal.tsx:51 | the digits of the decimal text evaluate back to the number |
| JsNumber.DigitPrefixAppend | src/components/AdditionalCostsModal.tsx:51 | digits followed by a non-digit read as exactly those digits |
| JsNumber.MagnitudeOfDecimal | src/components/AdditionalCostsModal.tsx:51 | unsigned decimal text with any non-digit tail reads back as its number |
| JsNumber.ParseIntText | src/components/AdditionalCostsModal.tsx:51 | `parseInt` in radix 10 reads back any integer's text, whatever non-digit text follows |
| JsNumber.ParseNonNegativeText | src/components/AdditionalCostsModal.tsx:51 | the same for a number without a sign |
| JsNumber.ParseNegativeText | src/components/AdditionalCostsModal.tsx:51 | the same for a minus sign |
| JsNumber.ParseIntTextNoRadix | src/components/MultiplierInputModal.tsx:53 | without a radix, a positive decimal reads back as itself |
| JsNumber.NoDigitsIsNaN | src/components/AdditionalCostsModal.tsx:51 | text that does not start with a sign or digit after white space is NaN |
| AdditionalCosts.RemoveCommas | src/components/AdditionalCostsModal.tsx:51 | the result has no comma and is no longer than the input |
| AdditionalCosts.RemoveCommasAppend | src/components/AdditionalCostsModal.tsx:51 | comma removal distributes over concatenation |
| AdditionalCosts.RemoveCommasNoComma | src/components/AdditionalCostsModal.tsx:51 | text without commas is unchanged |
| AdditionalCosts.ParseNumber | src/components/AdditionalCostsModal.tsx:50-52 | NaN reads as 0 |
| AdditionalCosts.GroupPairsUngroups | src/components/AdditionalCostsModal.tsx:46-48 | removing commas undoes the two-digit grouping |
| AdditionalCosts.GroupIndianUngroups | src/components/AdditionalCostsModal.tsx:46-48 | removing commas undoes Indian digit grouping |
| AdditionalCosts.ParseFeeText | src/components/AdditionalCostsModal.tsx:46-52 | parsing a fee's formatted text gives back the fee |
| AdditionalCosts.DecimalExample | src/components/AdditionalCostsModal.tsx:47 | the digits of one lakh |
| AdditionalCosts.GroupedInput | src/components/AdditionalCostsModal.tsx:50-52 | "1,00,000" reads as 100000 |
| AdditionalCosts.TrailingTextIgnored | src/components/AdditionalCostsModal.tsx:50-52 | an integer followed by non-digit text without commas reads as the integer |
| AdditionalCosts.NoDigitsReadsZero | src/components/AdditionalCostsModal.tsx:50-52 | text with no leading number reads as 0 |
| AdditionalCosts.CostsDialog.constructor | src/components/AdditionalCostsModal.tsx:31-32 | the fields start at the defaults |
| AdditionalCosts.CostsDialog.Sync | src/components/AdditionalCostsModal.tsx:34-39 | opening resets both fees to the defaults; otherwise they are kept |
| AdditionalCosts.CostsDialog.EditSetupFee | src/components/AdditionalCostsModal.tsx:72 | the set-up fee becomes the parsed text; the annual fee is kept |
| AdditionalCosts.CostsDialog.EditAnnualFee | src/components/AdditionalCostsModal.tsx:85 | the annual fee becomes the parsed text; the set-up fee is kept |
| AdditionalCosts.CostsDialog.Save | src/components/AdditionalCostsModal.tsx:41-44 | returns the two current fees |
| AdditionalCosts.RetypeShownSetupFee | src/components/AdditionalCostsModal.tsx:71-72 | feeding the shown set-up fee back to its own change handler leaves both fees unchanged |
| MultiplierInput.ClampInput | src/components/MultiplierInputModal.tsx:53 | at least 1; NaN gives 1; a number of 1 or more is kept; anything below 1 gives 1 |
| MultiplierInput.PositiveInputKept | src/components/MultiplierInputModal.tsx:53 | a positive decimal entry is taken as typed |
| MultiplierInput.ZeroInputIsOne | src/components/MultiplierInputModal.tsx:53 | "0" becomes 1 |
| MultiplierInput.NegativeInputIsOne | src/components/MultiplierInputModal.tsx:53 | a negative entry becomes 1 |
| MultiplierInput.ParseNegativeTextNoRadix | src/components/MultiplierInputModal.tsx:53 | without a radix, a negative decimal reads back as itself |
| MultiplierInput.NonNumericInputIsOne | src/components/MultiplierInputModal.tsx:53 | an entry with no leading number becomes 1 |
| MultiplierInput.SaveValue | src/components/MultiplierInputModal.tsx:33 | `Math.max(1, value)`: a value of 1 or more is saved unchanged, and anything below 1 is saved as 1 |
| MultiplierInput.MultiplierDialog.constructor | src/components/MultiplierInputModal.tsx:25-26 | the value starts at the default, or 1 without one |
| MultiplierInput.MultiplierDialog.Sync | src/components/MultiplierInputModal.tsx:28-30 | opening resets the value to the default, or to 1; otherwise it is kept |
| MultiplierInput.MultiplierDialog.Edit | src/components/MultiplierInputModal.tsx:53 | the value becomes the clamped entry, so it is at least 1 |
| MultiplierInput.MultiplierDialog.Save | src/components/MultiplierInputModal.tsx:32-35 | the saved quantity is the clamped value, at least 1 |
| JourneyCard.CheckCount | src/components/JourneyCard.tsx:15 | counts every key of the selection, ticked or not |
| JourneyCard.Plural | src/components/JourneyCard.tsx:23 | no suffix iff the count is exactly 1 |
| JourneyCard.RenderCard | src/components/JourneyCard.tsx:14-46 | the count label, the badges of the ticked checks in order, the title, the cached total, and the edit and delete targets are the journey's id |
| JourneyCard.BadgesAgainstCount | src/components/JourneyCard.tsx:15-30 | there are never more badges than counted checks, and as many iff every check is ticked |
| JourneyCard.DeleteButtonRemovesJourney | src/components/JourneyCard.tsx:37 | the delete button's action removes the card's journey |

## Left out

- The PDF layout, the page layout, styling, the logo upload and the React
  wiring are not modelled. This covers contexts, effects' scheduling,
  callbacks such as `onClose`, and which modal is rendered with which props.
  The dialogs' event handlers are modelled as methods, and their callbacks
  as returned values.
- `ADD_JOURNEY` takes its id from `new Date().toISOString()`, a timestamp
  with millisecond resolution. The model receives that text as a
  parameter. Two adds within the same millisecond would get equal ids, so
  the precondition of `ReducePreservesDistinctIds` that the new id differs
  from every existing one is a real assumption, not a fact about clocks.
- Whether an education check is selected is a parameter of the notes
  filter. The component that computes it is not part of this model.
- Lower-casing covers ASCII letters only. JavaScript's `toLowerCase` also
  folds other scripts.
- Strings are sequences of Unicode scalar values. JavaScript strings are
  UTF-16 code units. This differs only for characters outside the Basic
  Multilingual Plane, e.g. in `SafeBrandName`, which replaces one such
  character by one '_' where the browser writes two.
- Numbers are unbounded integers. The source's IEEE doubles are not
  modelled: fractional prices entered in the price editor, rounding in
  products, and the loss of precision of `parseInt` beyond 2^53.
- `Intl.NumberFormat('en-IN')` is modelled only for integers. That covers
  Indian grouping of the last three digits, then pairs, and a leading
  minus. Fractions and other locales are not modelled.
- The price editing dialog and the value-added-service editing dialog pass
  their values to the reducer unchanged. Only the reducer side is modelled.
- A check's optional `description` field is never read by the core and is
  not modelled. An absent `insights` field is the empty string.
- Object key order is insertion order. This assumes no check name looks
  like an array index, which holds for every catalog name.
- EditableServiceTable.ItemChange: requires a valid index. Writing past
  the end of a JavaScript array would grow it with holes, and the table
  only calls the handler for rows it shows.
- PricingSummary.FeeDisplay: both branches of the fee display render the
  same struck-out amount. The model states that, not a display that
  depends on the default.
- `SET_MULTIPLIER` stores the value as given. Only the quantity dialog
  clamps to at least 1, so the reducer accepts 0 or negatives. A stored 0
  prices like 1 through `|| 1`.
- The grand total on the page sums the journeys' cached totals. A later
  price override or multiplier leaves it unchanged until the journey is
  saved again.
