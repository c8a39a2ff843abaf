# Landscaping estimate engine, modelled in Dafny

The application prices landscaping work for a project. It keeps one or more
tables per service (mowing, mulching, pruning, spring clean-up, edging and
bed maintenance), and every table turns quantities into hours and dollars:

- A **mowing** table holds acreage per mower deck (72", 60" and 48" decks in
  two areas), a production tier per deck, manual hour overrides, typed hours
  for the misc, trimmer, blower, rotary and 5111 rows, and an adjustment and
  occurrence count. Hours come from acres over acres-an-hour at the deck's
  tier, snapped to the nearest quarter hour. Dollars are hours times the
  row's price, adjusted by a percentage and multiplied by the occurrences.
  An earlier revision of the screen (`__MowingTable.jsx`) is modelled beside
  the current one, and lemmas say where the two agree and where they part.
- A **mulching** table holds three common areas, three rows of identical
  homes, and small-power and loader blocks for each side. Yardage is the
  area at the chosen depth, rounded up. Hand hours spread that yardage at
  the row's efficiency and proximity. Block hours move the total yardage at
  the block's production tier. Every computed value can be overridden. The
  shared calculation file rounds up to whole yards; the page rounds up to
  half yards. A rates editor sets a value at any key path of the rate
  catalog.
- **Pruning** and **spring** tables sum hours and hours-times-price over a
  fixed list of columns. Pruning treats a missing value as 0. Spring lets it
  turn every total into NaN.
- **Edging** and **bed maintenance** tables are flat-rate tables: a subtotal
  per priced column, their sum, and that sum billed per occurrence.

Each screen reads its table from a per-service list in the shared store. It
merges the table over its defaults, applies an input event and writes the
list back. The model follows that: `ServiceStore` holds the list operations,
and every table module has a `Loaded` function, the input handlers and the
write an event makes.

Conventions used throughout:

- A JavaScript object is a `map<string, V>`.
- A number that may be undefined, null or NaN is a `Num = Option<real>`, and
  `x || d` is `Or(x, d)`.
- A text input is an `Input`: either `Blank`, or `Typed(parsed)` carrying
  what `parseFloat` or `Number` made of it.
- Arithmetic is on exact reals.
- Where the screen computes in a loop, the model has a method with loop
  invariants, proved against a specification function. The lemmas are
  stated about that function.

## Model

| member | source | states |
|---|---|---|
| ServiceStore.Find | myapp/client/src/components/Mowing/MowingTable.jsx:31-32 | finds an entry exactly when the list has one with that id; what it finds carries the id and belongs to the list; an entry with the id at the head is the one found, and otherwise the search goes on in the rest |
| ServiceStore.FindFirst | myapp/client/src/components/Mowing/MowingTable.jsx:31-32 | what the search finds is the first entry with that id: no earlier entry carries it |
| ServiceStore.Upsert | myapp/client/src/components/Mowing/mowingSave.js:17-21 | an existing id is replaced in place, so the length is kept; a new id is appended at the end |
| ServiceStore.UpsertThenFind | myapp/client/src/components/Mowing/mowingSave.js:17-21 | after writing a table, finding its id gives exactly the written entry |
| ServiceStore.UpsertOtherFind | myapp/client/src/components/Mowing/mowingSave.js:17-21 | writing a table leaves what every other id finds unchanged |
| Js.NumberOrZero | myapp/client/src/components/Mowing/MowingTable.jsx:92 | `parseFloat(v) \|\| 0` gives the parsed number, or 0 for a blank field or NaN |
| Js.Overlay | myapp/client/src/components/Mowing/MowingTable.jsx:47-50 | `{ ...base, ...top }` holds the keys of both; a key of `top` reads from `top`, any other key from `base` |
| Js.OverlayNothing | myapp/client/src/components/Mowing/MowingTable.jsx:47-50 | spreading `{}` over an object gives that object back |
| JsonValue.Spread | myapp/client/src/components/Mowing/mowingRatesUtils.js:14 | `...(x \|\| {})` copies the fields of an object, one entry per character of a string (named "0", "1", … and holding that character), and nothing for a missing value, null or a number |
| JsonValue.Field | myapp/client/src/components/Mowing/mowingRatesUtils.js:27-29 | `x[key]` reads an object's field, a string's character at an index name or its length, and undefined on anything else |
| JsonValue.IndexKeyInjective | myapp/client/src/components/Mowing/mowingRatesUtils.js:14 | two different indices never share a property name |
| Rounding.SnapQuarter | myapp/client/src/components/Mowing/MowingTable.jsx:131-132 | `Math.round(x * 4) / 4` is a whole number of quarters within an eighth of x, with ties going up |
| Rounding.SnapQuarterIdempotent | myapp/client/src/components/Mowing/MowingTable.jsx:131-132 | snapping an already snapped value changes nothing |
| Rounding.Ceil | myapp/client/src/components/Mulching/mulchingCalculations.js:110 | `Math.ceil` gives the integer in [x, x+1) |
| Rounding.CeilHalf | myapp/client/src/components/Mulching/MulchingPage.jsx:119 | `Math.ceil(x / 0.5) * 0.5` gives the multiple of a half in [x, x+0.5) |
| MowingDefaults.DeckKeys | myapp/client/src/components/Mowing/mowingDefaults.js:26-33 | six keys, "size-area", with the three widths widest first and two areas each |
| MowingDefaults.DisplayKeys | myapp/client/src/components/Mowing/mowingDefaults.js:40-46 | eleven rows in order: MISC_HRS, the six decks, TRIMMER, BLOWER, ROTARY, 5111 |
| MowingDefaults.InitialEfficiency | myapp/client/src/components/Mowing/mowingDefaults.js:52-61 | every deck, the trimmer and the blower start at AVERAGE, and no other key has a tier |
| MowingDefaults.InitialAcres | myapp/client/src/components/Mowing/mowingDefaults.js:63-73 | the decks, TRIMMER, BLOWER and ROTARY carry acreage, all 0 |
| MowingDefaults.InitialQtyUnit | myapp/client/src/components/Mowing/mowingDefaults.js:75-87 | the hours rows are the decks plus MISC_HRS, TRIMMER, BLOWER, ROTARY and 5111, all 0 |
| MowingDefaults.DisplayKeysHaveQty | myapp/client/src/components/Mowing/mowingDefaults.js:75-87 | every displayed row has an hours entry in the default record |
| MowingDefaults.InitialRow5111 | myapp/client/src/components/Mowing/mowingDefaults.js:63-87 | the 5111 row has hours 0 and no acreage, so its hours are typed |
| MowingDefaults.InitialOverrides | myapp/client/src/components/Mowing/mowingDefaults.js:89-96 | only the six decks have an override entry, and each is null |
| MowingDefaults.InitialSummary | myapp/client/src/components/Mowing/mowingDefaults.js:98-101 | adjustment 0%, one occurrence |
| MowingDefaults.InitialMowingData | myapp/client/src/components/Mowing/mowingDefaults.js:49-104 | the record a new table starts with: named "Mowing Area"; each deck has acreage, a null override and a listed tier; the small-power rows have a listed tier; the other acreage rows have no override entry; every acreage row has hours; the totals are `{}` |
| MowingCalculations.SizePrefix | myapp/client/src/components/Mowing/mowingCalculations.js:11 | `key.split("-")[0]` is a prefix of the key without a dash, and the key goes on with a dash when the prefix is shorter |
| MowingCalculations.NoDashKeyIsOwnSize | myapp/client/src/components/Mowing/mowingCalculations.js:11 | a key without a dash is its own size |
| MowingCalculations.DeckKeySize | myapp/client/src/components/Mowing/mowingCalculations.js:11 | every deck key's size is its deck width |
| MowingCalculations.UnlistedKeyHasNoRate | myapp/client/src/components/Mowing/mowingCalculations.js:14-17 | a key without a dash that the catalog does not list gets rate 0 at every tier |
| MowingCalculations.DeckRate | myapp/client/src/components/Mowing/mowingCalculations.js:14-17 | `acresPerHour?.[size]?.[eff]` is the catalog entry when the width lists that tier (an unset tier reads "undefined"), and 0 otherwise |
| MowingCalculations.DefaultCatalogWidths | myapp/client/src/context/ServiceContext.jsx:14-43 | the default catalog lists the widths 72, 60 and 48 only, so TRIMMER, BLOWER and ROTARY have no rate |
| MowingCalculations.DefaultAcresPerHour | myapp/client/src/context/ServiceContext.jsx:14-43 | the default catalog has a positive acres-an-hour rate for every deck width at every tier offered |
| MowingCalculations.AutoHours | myapp/client/src/components/Mowing/mowingCalculations.js:19-20 | without a positive rate the hours are 0; otherwise they are the quarter hour nearest to acres over rate |
| MowingCalculations.DefaultDeckScenario | myapp/client/src/components/Mowing/mowingCalculations.js:14-20 | 1.9 acres on a 72" deck at AVERAGE (0.95 acres an hour) is 2 hours |
| MowingCalculations.ComputeHours | myapp/client/src/components/Mowing/mowingCalculations.js:6-30 | the loop returns the typed hours with each acreage key replaced by its override, or by its computed hours when the override is null |
| MowingCalculations.KeyHours | myapp/client/src/components/Mowing/mowingCalculations.js:9-27 | an acreage key without an override entry reads undefined; a non-null override is used as is; a null one gives computed hours on the quarter-hour grid |
| MowingCalculations.HoursKeepOtherRows | myapp/client/src/components/Mowing/mowingCalculations.js:7 | a row without acreage keeps its typed hours |
| MowingCalculations.HoursOverridePrecedence | myapp/client/src/components/Mowing/mowingCalculations.js:14-26 | a non-null override wins; a null one gives the snapped acres over rate, or 0 without a positive rate |
| MowingCalculations.HoursDropQtyOfUnoverriddenKey | myapp/client/src/components/Mowing/mowingCalculations.js:23-26 | an acreage key with no override entry gets undefined hours (`undefined !== null`), whatever hours were typed for it |
| MowingCalculations.NoAcresNoHours | myapp/client/src/components/Mowing/mowingCalculations.js:6-30 | zero acreage, zero typed hours and no override give every row zero hours |
| MowingCalculations.SumRows | myapp/client/src/components/Mowing/mowingCalculations.js:37-44 | the loop builds one subtotal per hours row, hours times price with missing values as 0, and their sum |
| MowingCalculations.RowTotal | myapp/client/src/components/Mowing/mowingCalculations.js:38-40 | a row is worth its hours times its price, and 0 when either is missing |
| MowingCalculations.ComputeTotals | myapp/client/src/components/Mowing/mowingCalculations.js:33-70 | the totals are the sums of hours, acreage and subtotals, the adjusted amount, and that amount billed per occurrence |
| MowingCalculations.RowsOfEdit | myapp/client/src/components/Mowing/mowingCalculations.js:37-44 | changing one row's hours changes that row's subtotal and no other |
| MowingCalculations.RowTotalDelta | myapp/client/src/components/Mowing/mowingCalculations.js:38-40 | a row's subtotal moves by the change in its hours times its price |
| MowingCalculations.OccRowEdit | myapp/client/src/components/Mowing/mowingCalculations.js:37-44 | the dollars per occurrence move by exactly the change in the edited row's subtotal |
| MowingCalculations.HoursRowEdit | myapp/client/src/components/Mowing/mowingCalculations.js:46-49 | the hours total moves by the change in the edited row's hours |
| MowingCalculations.TotalsRowEdit | myapp/client/src/components/Mowing/mowingCalculations.js:33-70 | one row's new hours shift the hours total and the dollars by that row's change, and leave the acreage total alone |
| MowingCalculations.Billed | myapp/client/src/components/Mowing/mowingCalculations.js:59-60 | no or zero occurrences bill the adjusted amount once; otherwise it is multiplied by the count |
| MowingCalculations.TotalsNonnegative | myapp/client/src/components/Mowing/mowingCalculations.js:33-70 | non-negative hours, prices and acreage, an adjustment of at least -100% and a non-negative count give no negative total |
| MowingCalculations.FreshTableTotals | myapp/client/src/components/Mowing/mowingDefaults.js:49-104 | the default record totals zero hours, acreage and dollars at any rates and prices |
| MowingSave.SaveMowing | myapp/client/src/components/Mowing/mowingSave.js:5-24 | writes the "mowing" list; the table reads back as the given record with the given totals; other tables are untouched; the list grows only for a new id |
| MowingRatesUtils.MergedRates | myapp/client/src/components/Mowing/mowingRatesUtils.js:7-20 | the merged catalog has the default keys; non-object defaults are kept; each object default is overlaid with what spreading the current category copies, a string's characters included |
| MowingRatesUtils.MergeRates | myapp/client/src/components/Mowing/mowingRatesUtils.js:7-20 | the loop over the default keys computes exactly that merge |
| MowingRatesUtils.MergeWithoutCurrent | myapp/client/src/components/Mowing/mowingRatesUtils.js:14 | with no current rates the merge gives back the defaults |
| MowingRatesUtils.MergeIdempotent | myapp/client/src/components/Mowing/mowingRatesUtils.js:7-20 | merging the same current rates twice is merging once |
| MowingRatesUtils.UpdateNestedRate | myapp/client/src/components/Mowing/mowingRatesUtils.js:23-34 | fails exactly when the category is missing or null; otherwise sets `[category][key1][key2]`, keeps every other category, and the two copied levels hold exactly what spreading the old values copies (a string's characters included) plus the new key |
| MowingRatesUtils.UpdateNestedRateReadBack | myapp/client/src/components/Mowing/mowingRatesUtils.js:23-34 | when the category exists, reading the path back gives the new value |
| MowingTable.Merge | myapp/client/src/components/Mowing/MowingTable.jsx:37-69 | no saved table gives the default record; a saved one overlays each section on its default, keeps its totals or `{}`, and keeps its name or else takes "Mowing Area"; every deck row ends up with acreage and an override entry, and every default row with hours |
| MowingTable.NameChanged | myapp/client/src/components/Mowing/MowingTable.jsx:87-89 | sets the name and nothing else |
| MowingTable.AcresChanged | myapp/client/src/components/Mowing/MowingTable.jsx:91-99 | sets the key's acreage to the parsed number or 0, clears its override, and changes nothing else |
| MowingTable.EfficiencyChanged | myapp/client/src/components/Mowing/MowingTable.jsx:101-110 | sets the key's tier, clears its override, and changes nothing else |
| MowingTable.SummaryChanged | myapp/client/src/components/Mowing/MowingTable.jsx:112-115 | sets one summary field to the parsed number or 0, and nothing else |
| MowingTable.OverrideChanged | myapp/client/src/components/Mowing/MowingTable.jsx:117-138 | an empty field sets the override to null; a typed one stores the parsed number or 0, snapped to a quarter hour; nothing else changes |
| MowingTable.QtyChanged | myapp/client/src/components/Mowing/MowingTable.jsx:140-154 | stores the parsed number or 0, snapped to a quarter hour, under the key, and nothing else changes |
| MowingTable.Apply | myapp/client/src/components/Mowing/MowingTable.jsx:87-154 | no input event touches the totals stored with the record |
| MowingTable.ApplyIsHandler | myapp/client/src/components/Mowing/MowingTable.jsx:140-154 | a quantity event is handled by `handleQtyChange` |
| MowingTable.HoursOtherRows | myapp/client/src/components/Mowing/mowingCalculations.js:9-27 | records that agree on a row's tier, acreage and override give that row the same hours |
| MowingTable.AcresEditHours | myapp/client/src/components/Mowing/MowingTable.jsx:91-99 | after an acreage edit the row shows the hours computed from the new acreage at its tier |
| MowingTable.AcresEditKeepsOtherRows | myapp/client/src/components/Mowing/MowingTable.jsx:91-99 | an acreage edit leaves every other row's hours as they were |
| MowingTable.EfficiencyEditHours | myapp/client/src/components/Mowing/MowingTable.jsx:101-110 | a new tier shows the row's hours at that tier and leaves other rows alone |
| MowingTable.OverrideEditHours | myapp/client/src/components/Mowing/MowingTable.jsx:117-138 | a typed override becomes the row's hours, snapped; an empty field brings the computed hours back; other rows stay as they were |
| MowingTable.NameAndSummaryEditsKeepHours | myapp/client/src/components/Mowing/MowingTable.jsx:87-115 | name and summary edits change no row's hours |
| MowingTable.QtyEditHours | myapp/client/src/components/Mowing/MowingTable.jsx:140-154 | typed hours on a row without acreage become that row's snapped hours, and no other row changes |
| MowingTable.QtyEditIgnoredOnAcreageRow | myapp/client/src/components/Mowing/MowingTable.jsx:140-154 | typed hours on a row with acreage change no hours shown |
| MowingTable.MiscInputMissesMiscRow | myapp/client/src/components/Mowing/MowingTable.jsx:302-305 | the MISC input writes MISC_H_HRS, so the MISC_HRS row it displays keeps its hours |
| MowingTable.MiscInputOnMiscRow | myapp/client/src/components/Mowing/MowingTable.jsx:302-305 | written to MISC_HRS, the typed hours become that row's snapped hours |
| MowingTable.HandleEdit | myapp/client/src/components/Mowing/MowingTable.jsx:74-82 | an input event stores the edited record with the totals computed from the record before the edit |
| MowingTable.EditWrite | myapp/client/src/components/Mowing/MowingTable.jsx:74-82 | the write stores, under the table's id, the edited record with the totals computed from the record before the edit |
| MowingTable.HandleEditFresh | myapp/client/src/components/Mowing/mowingSave.js:12-15 | an input event stores the edited record with the totals of the edited record |
| MowingTable.FreshEditStoresCurrentTotals | myapp/client/src/components/Mowing/mowingSave.js:12-15 | after that write the stored totals match the stored record, and other tables are untouched |
| MowingTable.HoursIgnoreTotals | myapp/client/src/components/Mowing/mowingCalculations.js:6-30 | `computeHours` reads tiers, acreage, hours and overrides, never the totals stored with the record |
| MowingTable.StaleTotalsAfterQtyEdit | myapp/client/src/components/Mowing/MowingTable.jsx:74-82 | typing 1 hour into an empty priced row and storing the old totals leaves totals that disagree with the record |
| MowingTable.Loaded | myapp/client/src/components/Mowing/MowingTable.jsx:31-41 | the first table with the id, merged over the defaults; a table not in the list loads as the default record |
| MowingTable.NewTableCostsNothing | myapp/client/src/components/Mowing/MowingTable.jsx:31-75 | a table not in the list shows zero dollars |
| MowingTable.MergeEmptyData | myapp/client/src/components/Mowing/MowingTable.jsx:37-69 | the `{}` data of a table the form creates merges to the default record |
| MowingTable.EmptyEntryLoadsDefaults | myapp/client/src/components/MowingForm.jsx:33-47 | a table created as `{ id, data: {} }` loads as the default record, named "Mowing Area" |
| MowingTable.NewTableQtyRow | myapp/client/src/components/Mowing/MowingTable.jsx:31-69 | on a new table a row without acreage (such as 5111) has hours 0 and no acreage |
| MowingTable.StaleTotalsWitness | myapp/client/src/components/Mowing/MowingTable.jsx:74-82 | on a new table, 1 hour typed into a priced row without acreage stores dollars 0, while the stored record is worth that row's price |
| MowingLegacyTable.OverwriteDeckHours | myapp/client/src/components/__MowingTable.jsx:169-183 | the loop replaces each deck's hours by its override or computed hours and keeps every other row |
| MowingLegacyTable.LegacyComputeHours | myapp/client/src/components/__MowingTable.jsx:166-192 | the earlier screen recomputes the six decks only |
| MowingLegacyTable.SumShownRows | myapp/client/src/components/__MowingTable.jsx:202-213 | the loop over the displayed rows builds their subtotals, the dollar sum and the hours sum |
| MowingLegacyTable.SumKeys | myapp/client/src/components/__MowingTable.jsx:197-234 | the totals over a list of rows, adjusted and billed like the current screen's |
| MowingLegacyTable.LegacyComputeTotals | myapp/client/src/components/__MowingTable.jsx:197-234 | the earlier totals count the displayed rows only |
| MowingLegacyTable.LegacyHandleEdit | myapp/client/src/components/__MowingTable.jsx:236-252 | an input event stores the edited record; its acreage and adjustments are current, its hours are those shown before the edit |
| MowingLegacyTable.RowsSumIgnores | myapp/client/src/components/__MowingTable.jsx:202-213 | a row outside the list changes neither sum |
| MowingLegacyTable.TotalsOverIgnores | myapp/client/src/components/__MowingTable.jsx:197-234 | a row outside the list changes no total |
| MowingLegacyTable.LegacyTotalsIgnoreUndisplayed | myapp/client/src/components/__MowingTable.jsx:197-234 | hours under a key that is not displayed change no total |
| MowingLegacyTable.HoursSumNonnegative | myapp/client/src/components/__MowingTable.jsx:210-213 | non-negative hours sum to a non-negative total |
| MowingLegacyTable.RevisionsAgreeOnDecks | myapp/client/src/components/__MowingTable.jsx:166-192 | both revisions give a deck the same hours |
| MowingLegacyTable.RevisionsAgreeOnTypedRows | myapp/client/src/components/__MowingTable.jsx:166-192 | both revisions keep the typed hours of a row that is not a deck and has no acreage |
| MowingLegacyTable.RevisionsDifferOnSmallPower | myapp/client/src/components/__MowingTable.jsx:166-192 | on a non-deck row with acreage and no override entry, the earlier screen keeps the typed hours and the current one reads undefined |
| MowingLegacyTable.MergedTrimmerRow | myapp/client/src/components/__MowingTable.jsx:125-161 | a merged TRIMMER row is such a row unless the saved table gave it an override entry |
| MowingLegacyTable.DeckHoursQtyEdit | myapp/client/src/components/__MowingTable.jsx:166-192 | typed hours on a non-deck row set that row and leave the rest alone |
| MowingLegacyTable.LegacyMiscInputSetsMiscRow | myapp/client/src/components/__MowingTable.jsx:499-503 | on the earlier screen the MISC input sets the MISC_HRS row's hours and no other row |
| MowingLegacyTable.LegacySavedDollarsIgnoreEdit | myapp/client/src/components/__MowingTable.jsx:197-252 | every event on a table stores the same dollars and hours, while the stored acreage total is current |
| MulchingDefaults.InitialComplete | myapp/client/src/components/Mulching/mulchingDefaults.js:6-85 | the default record has every shown row with every field, and a tier for every block |
| MulchingDefaults.InitialArea | myapp/client/src/components/Mulching/mulchingDefaults.js:10-17 | a default common area is complete, with a blank size, no overrides and a tier that the default efficiency, depth and proximity tables list |
| MulchingDefaults.InitialHome | myapp/client/src/components/Mulching/mulchingDefaults.js:37-45 | the same for a default home row |
| MulchingDefaults.InitialBlock | myapp/client/src/components/Mulching/mulchingDefaults.js:66-84 | a default block has a tier, listed in both the small-power and the loader tables, and no override |
| MulchingDefaults.DefaultMulchingRates | myapp/client/src/components/Mulching/mulchingDefaults.js:90-133 | every rate of every tier table in the default catalog is positive |
| MulchingCalculations.GetRateKeepsZero | myapp/client/src/components/Mulching/mulchingCalculations.js:100-104 | a stored zero rate is returned, not the fallback |
| MulchingCalculations.GetRate | myapp/client/src/components/Mulching/mulchingCalculations.js:100-104 | the table's entry whenever it is defined; the fallback when the table or the entry is missing |
| MulchingCalculations.GetRateUnsetTier | myapp/client/src/components/Mulching/mulchingCalculations.js:100-104 | a tier never chosen reads "undefined", which no default table lists, so it gets the fallback |
| MulchingCalculations.MulchYards | myapp/client/src/components/Mulching/mulchingCalculations.js:107-111 | 0 when area or depth is 0; otherwise a whole number of yards, at least the loose yardage and less than a yard over it |
| MulchingCalculations.MulchYardsLeast | myapp/client/src/components/Mulching/mulchingCalculations.js:107-111 | it is the least whole number of yards that covers the loose yardage |
| MulchingCalculations.MulchYardsMonotone | myapp/client/src/components/Mulching/mulchingCalculations.js:107-111 | a larger area never needs less mulch |
| MulchingCalculations.HandHours | myapp/client/src/components/Mulching/mulchingCalculations.js:132-133 | with a positive efficiency, hours times efficiency is yards times proximity; otherwise the hours are 0 |
| MulchingCalculations.CommonAreaValues | myapp/client/src/components/Mulching/mulchingCalculations.js:117-136 | no catalog or no positive area gives nothing; otherwise the yards cover the area at its depth and the hours spread them at the row's tier and proximity |
| MulchingCalculations.HomeIsCombinedArea | myapp/client/src/components/Mulching/mulchingCalculations.js:142-166 | a home row is priced like one common area of size times count |
| MulchingCalculations.HomeRowValues | myapp/client/src/components/Mulching/mulchingCalculations.js:142-166 | without a positive size and a positive count a home row costs nothing; otherwise its total area is size times count, and positive |
| MulchingCalculations.MergeArea | myapp/client/src/components/Mulching/mulchingCalculations.js:64-66 | no saved area gives the default; a saved one keeps each field it has and takes each missing one from the default; completeness is kept, and a complete saved area over a default without overrides comes back unchanged |
| MulchingCalculations.MergeHome | myapp/client/src/components/Mulching/mulchingCalculations.js:72-74 | the same, field by field, for a home row |
| MulchingCalculations.MergeBlock | myapp/client/src/components/Mulching/mulchingCalculations.js:77-92 | a saved tier wins, a missing one falls back to the default; a saved override survives a default without one |
| MulchingCalculations.MergeAreas | myapp/client/src/components/Mulching/mulchingCalculations.js:61-67 | the three shown areas are merged over their defaults and complete; other saved areas are kept as saved |
| MulchingCalculations.MergeHomes | myapp/client/src/components/Mulching/mulchingCalculations.js:69-75 | the same for the three home rows |
| MulchingCalculations.MergeMulchingData | myapp/client/src/components/Mulching/mulchingCalculations.js:21-94 | a merged table has every shown row with every field and a tier for every block; the summary is the saved one; each shown area and home row is merged over its default, other saved rows are kept; each block is merged over the default block |
| MulchingCalculations.MergeFillsPartialArea | myapp/client/src/components/Mulching/mulchingCalculations.js:61-67 | in a merged table each field a saved shown area has is kept, and each missing one is the default area's |
| MulchingCalculations.MergeFillsPartialHome | myapp/client/src/components/Mulching/mulchingCalculations.js:69-75 | the same for a saved shown home row |
| MulchingCalculations.MergeAreasKeeps | myapp/client/src/components/Mulching/mulchingCalculations.js:61-67 | saved areas whose shown rows are complete merge to themselves |
| MulchingCalculations.MergeHomesKeeps | myapp/client/src/components/Mulching/mulchingCalculations.js:69-75 | saved home rows whose shown rows are complete merge to themselves |
| MulchingCalculations.MergeComplete | myapp/client/src/components/Mulching/mulchingCalculations.js:21-94 | a complete table merges to itself, so what a save stores loads back unchanged |
| MulchingCalculations.MergeIdempotent | myapp/client/src/components/Mulching/mulchingCalculations.js:21-94 | merging twice is merging once |
| MulchingCalculations.MergeAreasEmpty | myapp/client/src/components/Mulching/mulchingCalculations.js:61-67 | no saved areas merge to the default areas |
| MulchingCalculations.MergeHomesEmpty | myapp/client/src/components/Mulching/mulchingCalculations.js:69-75 | no saved home rows merge to the default home rows |
| MulchingCalculations.MergeEmpty | myapp/client/src/components/Mulching/mulchingCalculations.js:21-94 | a table with no data merges to the default record |
| MulchingPage.PageYards | myapp/client/src/components/Mulching/MulchingPage.jsx:115-119 | with a positive depth and yardage, a multiple of half a yard in [raw, raw+0.5); otherwise 0 |
| MulchingPage.PageCommonAreaValues | myapp/client/src/components/Mulching/MulchingPage.jsx:101-125 | no catalog or no positive area gives nothing; the yards are a non-negative multiple of a half; hours times efficiency is yards times proximity, and 0 without a positive efficiency |
| MulchingPage.PageHomeValues | myapp/client/src/components/Mulching/MulchingPage.jsx:128-152 | no catalog or no positive combined size gives nothing; otherwise the total area is size times count; the yards are a non-negative multiple of a half |
| MulchingPage.HalfYardAtMostWholeYard | myapp/client/src/components/Mulching/MulchingPage.jsx:115-119 | the page never orders more mulch than the whole-yard rule of the calculation file |
| MulchingPage.PageEfficiencyDefaultPositive | myapp/client/src/components/Mulching/MulchingPage.jsx:111 | with the default catalog, every tier, named or not, has a positive efficiency |
| MulchingPage.UnlistedTierRevisionsDiffer | myapp/client/src/components/Mulching/MulchingPage.jsx:111 | an unlisted tier gets 0 hours in the calculation file and the Average efficiency (1.4) on the page |
| MulchingPage.NegativeHomeRevisionsDiffer | myapp/client/src/components/Mulching/MulchingPage.jsx:128-134 | negative size and count cost nothing in the calculation file, but multiply to a positive area on the page |
| MulchingPage.SumCommonAreas | myapp/client/src/components/Mulching/MulchingPage.jsx:319-332 | the loop adds the displayed hours and yards of each area, override first |
| MulchingPage.SumHomeRows | myapp/client/src/components/Mulching/MulchingPage.jsx:334-347 | the loop adds the displayed hours and yards of each home row, override first |
| MulchingPage.BlockHours | myapp/client/src/components/Mulching/MulchingPage.jsx:354-378 | an override wins; otherwise hours times the tier's rate (Average when unset) is the yardage, and 0 without a positive rate and yardage |
| MulchingPage.TotalsOf | myapp/client/src/components/Mulching/MulchingPage.jsx:316-512 | each block shows its block hours on its side's yardage; the hours total adds the areas, the homes and the four blocks; the yardage total adds both sides |
| MulchingPage.ComputeTotals | myapp/client/src/components/Mulching/MulchingPage.jsx:316-512 | the page totals: area sums, block hours from total yardage at each block's tier unless overridden, and the grand totals |
| MulchingPage.CommonFieldChanged | myapp/client/src/components/Mulching/MulchingPage.jsx:187-210 | sets the field, clears the area's two overrides and both common block overrides, and touches nothing else |
| MulchingPage.CommonHoursOverrideChanged | myapp/client/src/components/Mulching/MulchingPage.jsx:212-226 | sets the area's hours override to the parsed number; blank or NaN clears it |
| MulchingPage.CommonMulchOverrideChanged | myapp/client/src/components/Mulching/MulchingPage.jsx:227-248 | sets the area's mulch override and clears both common block overrides |
| MulchingPage.HomeFieldChanged | myapp/client/src/components/Mulching/MulchingPage.jsx:252-275 | sets the field, clears the row's two overrides and both homes block overrides, and touches nothing else |
| MulchingPage.HomeHoursOverrideChanged | myapp/client/src/components/Mulching/MulchingPage.jsx:276-290 | sets the row's hours override; blank or NaN clears it |
| MulchingPage.HomeMulchOverrideChanged | myapp/client/src/components/Mulching/MulchingPage.jsx:291-312 | sets the row's mulch override and clears both homes block overrides |
| MulchingPage.SelectionChanged | myapp/client/src/components/Mulching/MulchingPage.jsx:380-390 | sets the block's tier, clears its override, and leaves the other blocks and rows alone |
| MulchingPage.BlockOverrideChanged | myapp/client/src/components/Mulching/MulchingPage.jsx:392-402 | sets the block's override to the parsed number (null for blank or NaN) and nothing else |
| MulchingPage.UpdateMulchingData | myapp/client/src/components/Mulching/MulchingPage.jsx:170-183 | writes the "mulching" list; the table reads back as the new record; other tables are untouched; a new id is appended |
| MulchingPage.Apply | myapp/client/src/components/Mulching/MulchingPage.jsx:187-502 | no input event touches the summary |
| MulchingPage.Loaded | myapp/client/src/components/Mulching/MulchingPage.jsx:162-168 | the table shown is complete: the first table with the id put through the mulching merge, or the default record when the list has none |
| MulchingPage.HandleEdit | myapp/client/src/components/Mulching/MulchingPage.jsx:168-185 | an event writes the "mulching" list with the edited merged record under the id, and other tables read as before |
| MulchingPage.ApplyKeepsComplete | myapp/client/src/components/Mulching/MulchingPage.jsx:187-502 | no input event loses a shown row, a field or a tier |
| MulchingPage.EditReadsBack | myapp/client/src/components/Mulching/MulchingPage.jsx:168-183 | after an event the table loads as the edited merged record |
| MulchingPage.HoursOverrideKeepsMulch | myapp/client/src/components/Mulching/MulchingPage.jsx:212-226 | an hours override moves no yardage and no block hours |
| MulchingPage.CommonFieldEditTotals | myapp/client/src/components/Mulching/MulchingPage.jsx:187-210 | a common-area edit leaves the homes side alone, and the common small-power hours follow the new yardage at its tier |
| MulchingPage.SelectionTakesEffect | myapp/client/src/components/Mulching/MulchingPage.jsx:354-390 | a new small-power tier gives the block yards over that tier's rate, or 0 |
| MulchingPage.NewTableShowsNothing | myapp/client/src/components/Mulching/MulchingPage.jsx:316-512 | the default record shows no hours and no yardage at any rates |
| MulchingPage.TotalsNonnegative | myapp/client/src/components/Mulching/MulchingPage.jsx:316-512 | with no negative rate and no negative override, no total is negative |
| MulchingRatesPage.EditedPath | myapp/client/src/components/Mulching/MulchingRatesPage.jsx:109 | the final assignment goes to the path's last key, or to "undefined" for an empty path |
| MulchingRatesPage.RootOf | myapp/client/src/components/Mulching/MulchingRatesPage.jsx:102 | the walk starts from a copy of the rates; nothing is `{}`; a truthy non-object cannot be walked |
| MulchingRatesPage.HandleNestedChange | myapp/client/src/components/Mulching/MulchingRatesPage.jsx:100-112 | the loop down the path, creating `{}` for falsy steps, yields the nested set of the value |
| MulchingRatesPage.HandleNumberChange | myapp/client/src/components/Mulching/MulchingRatesPage.jsx:114-117 | sets the parsed number, and 0 for NaN |
| MulchingRatesPage.SetInReadBack | myapp/client/src/components/Mulching/MulchingRatesPage.jsx:103-109 | after a set the path reads back the value |
| MulchingRatesPage.NestedChangeReadBack | myapp/client/src/components/Mulching/MulchingRatesPage.jsx:100-112 | after the handler the edited path reads back the value |
| MulchingRatesPage.SetInKeepsOthers | myapp/client/src/components/Mulching/MulchingRatesPage.jsx:103-109 | a path that neither leads to nor runs through the edited one reads as before |
| MulchingRatesPage.NestedChangeKeepsOthers | myapp/client/src/components/Mulching/MulchingRatesPage.jsx:100-112 | the same for the handler on the whole rates object |
| MulchingRatesPage.SetInFailsIff | myapp/client/src/components/Mulching/MulchingRatesPage.jsx:104-108 | the set fails exactly when some proper prefix of the path reaches a truthy non-object |
| MulchingRatesPage.NestedChangeFailsIff | myapp/client/src/components/Mulching/MulchingRatesPage.jsx:100-112 | the handler fails exactly then |
| PruningDefaults.InitialPruningTable | myapp/client/src/components/Pruning/pruningDefaults.js:3-29 | a new table has a zero quantity for exactly the five columns, prices equal to the default rates, no occurrences and a zero summary |
| PruningDefaults.DefaultPruningRates | myapp/client/src/components/Pruning/pruningDefaults.js:31-37 | a positive rate for exactly the five columns |
| PruningCalculations.EffectiveRates | myapp/client/src/components/Pruning/pruningCalculations.js:20-25 | each rate comes from the override rates, else the table's prices, else the defaults |
| PruningCalculations.ComputePruningTotals | myapp/client/src/components/Pruning/pruningCalculations.js:16-49 | the hours and dollars per occurrence are the sums over the five columns at the merged rates, and the final total is the dollars times the occurrences |
| PruningCalculations.TotalsWith | myapp/client/src/components/Pruning/pruningCalculations.js:27-48 | the final total is the dollars per occurrence times the occurrences, and 0 without occurrences |
| PruningCalculations.SumsAgree | myapp/client/src/components/Pruning/pruningCalculations.js:30-40 | quantities and rates that agree on the listed columns give the same sums |
| PruningCalculations.OnlyPruningKeysCount | myapp/client/src/components/Pruning/pruningCalculations.js:27-42 | values outside the five columns never change the totals |
| PruningCalculations.SumsZero | myapp/client/src/components/Pruning/pruningCalculations.js:30-40 | zero or missing quantities give zero hours and dollars |
| PruningCalculations.HoursEdit | myapp/client/src/components/Pruning/pruningCalculations.js:30-33 | one column's new quantity moves the hours by that change alone |
| PruningCalculations.SumsNonnegative | myapp/client/src/components/Pruning/pruningCalculations.js:30-40 | non-negative quantities and rates give non-negative hours and dollars |
| PruningCalculations.NoDataNoTotals | myapp/client/src/components/Pruning/pruningCalculations.js:16-49 | a call without data totals zero at any override rates |
| PruningCalculations.InitialTableNoTotals | myapp/client/src/components/Pruning/pruningCalculations.js:16-49 | a new table totals zero |
| SpringDefaults.InitialSpringTable | myapp/client/src/components/SpringServices/springDefaults.js:16-37 | a new table has a zero quantity and a price for exactly the six columns, no occurrences and a zero summary |
| SpringDefaults.SpringDefaultRates | myapp/client/src/components/SpringServices/springDefaults.js:6-13 | a positive rate for exactly the six columns |
| SpringCalculations.ComputeSpringTotals | myapp/client/src/components/SpringServices/springCalculations.js:6-30 | the total is the dollars per occurrence times the occurrences, NaN propagating; zero occurrences give 0 |
| SpringCalculations.HoursDefinedIff | myapp/client/src/components/SpringServices/springCalculations.js:7-13 | the hours are a number exactly when every column's quantity is one |
| SpringCalculations.DollarsDefinedIff | myapp/client/src/components/SpringServices/springCalculations.js:15-21 | the dollars are a number exactly when every column's quantity and price are |
| SpringCalculations.MissingColumnGivesNaN | myapp/client/src/components/SpringServices/springCalculations.js:6-30 | one missing quantity makes every total NaN |
| SpringCalculations.SumsAgree | myapp/client/src/components/SpringServices/springCalculations.js:7-21 | records that agree on the listed columns give the same sums |
| SpringCalculations.OnlySpringKeysCount | myapp/client/src/components/SpringServices/springCalculations.js:6-30 | values outside the six columns never change the totals |
| SpringCalculations.SumsZero | myapp/client/src/components/SpringServices/springCalculations.js:7-21 | zero quantities with numeric prices give zero hours and dollars |
| SpringCalculations.InitialTableTotalsZero | myapp/client/src/components/SpringServices/springCalculations.js:6-30 | a new table totals zero throughout |
| FlatRate.FlatRows | myapp/client/src/components/EdgingTable.jsx:94-100 | one subtotal for exactly the priced columns |
| FlatRate.Occurrences | myapp/client/src/components/EdgingTable.jsx:107 | `numOccurrences \|\| 1`: never 0; no or zero occurrences count as one; a non-zero stored count is used as is |
| FlatRate.SumPricedRows | myapp/client/src/components/EdgingTable.jsx:94-100 | the loop over the priced columns builds their subtotals and their sum |
| FlatRate.ComputeFlatTotals | myapp/client/src/components/BedMaintenanceTable.jsx:58-85 | the hours, subtotals, dollars per occurrence and billed total of a table |
| FlatRate.QtyEditRows | myapp/client/src/components/EdgingTable.jsx:94-100 | a priced column's new quantity changes its own subtotal only |
| FlatRate.QtyEditDollars | myapp/client/src/components/EdgingTable.jsx:94-100 | and moves the dollar total by that subtotal's change |
| FlatRate.UnpricedQtyOnlyHours | myapp/client/src/components/EdgingTable.jsx:94-105 | a quantity for an unpriced column counts in the hours but in no subtotal |
| FlatRate.FlatTotalsNonnegative | myapp/client/src/components/BedMaintenanceTable.jsx:58-85 | no negative quantity or price and a positive count give no negative total |
| EdgingTable.MergeEdging | myapp/client/src/components/EdgingTable.jsx:36-54 | each section overlays the saved values on the defaults; saved totals win over the default totals |
| EdgingTable.InitialEdgingData | myapp/client/src/components/EdgingTable.jsx:9-21 | every quantity column has a price; quantities start at 0, prices are positive, one occurrence |
| EdgingTable.Loaded | myapp/client/src/components/EdgingTable.jsx:32-54 | the first table with the id put through the edging merge; a table not in the list shows the default record |
| FlatRate.SetCell | myapp/client/src/components/EdgingTable.jsx:76-79 | sets one cell of one section (the edging and bed-maintenance row inputs alike) and nothing else, keeping the saved totals |
| EdgingTable.Save | myapp/client/src/components/EdgingTable.jsx:57-68 | writes the "edging" list; the table reads back as the record; other tables are untouched; a new id is appended |
| EdgingTable.HandleRowChange | myapp/client/src/components/EdgingTable.jsx:71-87 | an input stores the edited record with its own totals |
| EdgingTable.MergeKeepsMerged | myapp/client/src/components/EdgingTable.jsx:36-54 | a record with every default key and with totals merges to itself |
| EdgingTable.RowChangeReadsBack | myapp/client/src/components/EdgingTable.jsx:71-87 | after an input the table loads as the edited record with that record's totals |
| EdgingTable.QtyInputShiftsTotals | myapp/client/src/components/EdgingTable.jsx:76-82 | a quantity input moves the dollars by that column's subtotal change and the hours by the quantity change |
| EdgingTable.InitialTotalsAgree | myapp/client/src/components/EdgingTable.jsx:9-21 | the default totals agree with what the default record computes to |
| BedMaintenanceTable.Collection | myapp/client/src/components/BedMaintenanceTable.jsx:23-26 | never empty; an empty store shows a single table with this id and no data |
| BedMaintenanceTable.InitialBedData | myapp/client/src/components/BedMaintenanceTable.jsx:9-17 | every quantity column has a price; quantities start at 0, prices are positive, one occurrence |
| BedMaintenanceTable.MergeBed | myapp/client/src/components/BedMaintenanceTable.jsx:32-53 | each section overlays the saved values on the defaults; the totals are the saved ones |
| BedMaintenanceTable.Save | myapp/client/src/components/BedMaintenanceTable.jsx:92-100 | writes a "bedMaintenance" list holding this one table with its own totals |
| BedMaintenanceTable.HandleRowChange | myapp/client/src/components/BedMaintenanceTable.jsx:105-118 | an input saves the edited record, the value being the parsed number or 0 |
| BedMaintenanceTable.Loaded | myapp/client/src/components/BedMaintenanceTable.jsx:23-53 | the first stored table with the id put through the bed-maintenance merge; with no table of this id stored the screen shows the default record |
| BedMaintenanceTable.SaveKeepsOneTable | myapp/client/src/components/BedMaintenanceTable.jsx:92-100 | a save leaves exactly one table, so every other table is dropped |
| BedMaintenanceTable.MergeKeepsMerged | myapp/client/src/components/BedMaintenanceTable.jsx:32-53 | a record with every default key merges to itself |
| BedMaintenanceTable.RowChangeReadsBack | myapp/client/src/components/BedMaintenanceTable.jsx:105-118 | after an input the table loads as the edited record with that record's totals |

## Left out

- Rendering, React state and memoisation, navigation, and the forms and lists
  around the tables are not modelled. The store's `updateService` and
  `updateRates` become the `StoreWrite` value an event returns.
- Floating point is not modelled: arithmetic is on exact reals. `toFixed(2)`
  after a quarter-hour snap is taken as exact. `formatCurrency` and every
  display-only `toFixed` are left out.
- `parseFloat` and `Number` are not modelled character by character. An
  input is `Blank` or `Typed` with the number the parse yields, or NaN.
  Stored acreage, hours and summary values are taken to be numbers, not
  numeric strings.
- In mulching, a null field and a missing field are both `None`. The merge
  therefore fills an explicitly null saved tier from the defaults, where the
  code would keep the null. Overrides, compared with `!= null`, are
  unaffected.
- Pruning and spring are modelled through their calculation and default
  files only; their table screens and rate pages are not part of this model.
  The rate editors of the mowing screens are modelled through
  `mowingRatesUtils.js` only.
- The small-power efficiency and allocation tables of the mowing catalog
  feed no computation of the core and are not modelled. The mulching
  catalog's prices (mulch per yard, labour rates) are kept as constants that
  nothing reads.
- The mulching rate editor's render, its save button and its own default
  catalog literal are not modelled. Its deep copy through JSON is modelled
  as working on a value, so what JSON drops (undefined fields, NaN turned
  into null) is not captured.
- SpringCalculations.ComputeSpringTotals: a table whose whole `qty` or
  `unitPrice` object is missing makes the code throw. The model takes both
  objects as given and covers only missing or NaN values inside them.
- JsonValue.Field: a property a value inherits rather than owns (a string's
  or number's methods, an object's `toString`) reads as undefined. Spreading
  such a value copies nothing, so the merges are unaffected. But
  `updateNestedRate` on a category named like an inherited property reads a
  function and does not throw, where the model reports the category missing.
- The default edging totals have no `totalRow` field; the model gives them
  an empty row map.
- The bed-maintenance handler's branch for inputs that are not of type
  "number" keeps the raw text. The table's inputs are all numeric, so only
  the numeric branch is modelled.
- The mulching merge appears twice, in `mulchingCalculations.js:21-94` and
  in `MulchingPage.jsx:11-98`. It is modelled once, by
  `MulchingCalculations.MergeMulchingData`.
- PruningCalculations.TotalsWith: the hours and dollars per occurrence are
  related to the inputs through `SumsAgree`, `SumsZero`, `HoursEdit`,
  `SumsNonnegative` and `OnlyPruningKeysCount`, not through its own ensures.
- EdgingTable.MergeEdging: saved totals that are an empty object `{}` read
  as missing totals, so the default totals are shown where the code keeps the
  empty object. No displayed number depends on it, because the screen
  recomputes the totals.

## Findings

| source | as written | input that shows it | evidently intended | confidence | as-written member | corrected member |
|---|---|---|---|---|---|---|
| myapp/client/src/components/Mowing/MowingTable.jsx:74-82 | `save` stores the totals computed from the record before the edit, though `mowingSave.js:14` says it always saves corrected totals | a table not yet in the list; type 1 into the 5111 hours at a positive price: the stored dollars per occurrence are 0, while the stored record is worth that price | store the totals of the edited record | high, not executed | MowingTable.HandleEdit, MowingTable.StaleTotalsWitness | MowingTable.HandleEditFresh, MowingTable.FreshEditStoresCurrentTotals |
| myapp/client/src/components/Mowing/MowingTable.jsx:302-305 | the MISC hours input shows `qtyUnit.MISC_HRS` but writes `MISC_H_HRS`, a key no row displays or prices | any number typed into the MISC input: the MISC_HRS row keeps its hours | write MISC_HRS, as the earlier screen does (`__MowingTable.jsx:503`) | high, not executed | MowingTable.MiscInputMissesMiscRow | MowingTable.MiscInputOnMiscRow |
