# Controller documentation tool — a Dafny model

This project models the core of a small browser application for lighting
controller documentation. The user records controllers: the campus,
building, floor and zone they sit in, their channels, and each channel's
fixture type, voltage and current. The modelled parts are:

- the browser-storage layer holding controllers, templates and fixture presets;
- the channel editor (the controller sheet);
- the dashboard: search, stats, near-limit warnings, and the campus/building/floor grouping with its counts and batch lists;
- the spreadsheet export (worksheet rows and file name);
- the fixture preset manager;
- the page that switches between the three screens.

The modules follow the source files:

| module | file | contents |
|---|---|---|
| `Seqs` | seqs.dfy | `findIndex`, `filter` and `reduce` as the application uses them; upsert and delete by id |
| `Numbers` | numbers.dfy | `parseFloat(x) \|\| 0` over exact reals, `toFixed(2)`, integer `toString`, ASCII `toLowerCase`, `includes` |
| `Storage` | storage.dfy | the records, the three storage keys, the store as a class over a key/value map |
| `Sheet` | sheet.dfy | the channel editor's state and handlers, channel and total power |
| `Dash` | dashboard.dfy | dashboard power (with the parallel factor), warning, search, stats, grouping, delete |
| `Export` | export.dfy | `exportToExcel`'s worksheet rows and file name |
| `Fixtures` | fixtures.dfy | the fixture preset form and list |
| `Pages` | pages.dfy | the view switch of the index page |

A loop or in-place mutation in the source is a method with a loop invariant, proved against a function that states the result. Examples: the grouping `reduce`, which mutates its accumulator, and the `forEach` that pushes worksheet rows. The component state updated by handlers is a class whose methods state the new state. The properties are lemmas about those functions.

Behaviour worth knowing:

- There is one warning level, from 80% of a non-zero power limit.
- Only the dashboard multiplies a channel's power by its parallel count. The channel editor and the spreadsheet export use voltage times current. `Export.ParallelChannelTotalsDiffer` shows a channel on which the two totals differ.
- Deleting a campus, building or floor as a group does not exist in the code. Deletes are by id only.
- The index page passes `initialData` and `onBack` to the controller sheet, but ControllerSheet.tsx declares no props. The sheet model therefore always starts empty. The page model still follows the page's own wiring, in which the sheet is offered "back".

## Model

| member | source | states |
|---|---|---|
| Seqs.Upsert | src/lib/controllerStorage.ts:51-57 | findIndex, then assign at the match or push; its meaning is stated by `UpsertAbsent`, `UpsertPresent`, `UpsertThenFind` and `UpsertIdempotent` |
| Seqs.FindIndex | src/lib/controllerStorage.ts:51 | the first index whose id matches, or -1 exactly when no element has that id |
| Seqs.UpsertAbsent | src/lib/controllerStorage.ts:95-103 | saving under an id not yet stored appends the record and leaves every earlier record in place |
| Seqs.UpsertPresent | src/lib/controllerStorage.ts:97-100 | saving under a stored id keeps the length, overwrites the first match and no other index |
| Seqs.UpsertThenFind | src/lib/controllerStorage.ts:95-105 | after a save, looking the id up finds the saved record (or its replacement) |
| Seqs.UpsertIdempotent | src/lib/controllerStorage.ts:95-105 | saving the same record twice equals saving it once |
| Seqs.Filter | src/lib/controllerStorage.ts:114 | `filter` never lengthens, and an element of the input is kept exactly when it satisfies the predicate |
| Seqs.FilterIsSubsequence | src/components/Dashboard.tsx:73-82 | the filtered list keeps the survivors in their input order |
| Seqs.FilterCount | src/lib/controllerStorage.ts:114 | each value keeps its multiplicity when it passes the filter and has none otherwise |
| Seqs.FilterAll | src/components/Dashboard.tsx:73-82 | a filter that every element passes returns the list unchanged |
| Seqs.FilterConcat | src/lib/controllerStorage.ts:114 | filtering distributes over concatenation |
| Seqs.FilterOfFilterShorter | src/components/Dashboard.tsx:181 | filtering a filtered list yields no more than filtering the whole list |
| Seqs.RemoveId | src/lib/controllerStorage.ts:68 | `filter(x => x.id !== id)`; `RemoveIdSpec` states what survives |
| Seqs.RemoveIdSpec | src/lib/controllerStorage.ts:67-70 | a delete by id removes every record with that id and only those, keeps the order and the multiplicities of the rest, and does nothing when the id is absent |
| Seqs.UpsertAbsentThenRemove | src/lib/controllerStorage.ts:95-116 | saving under a new id and then deleting that id restores the list |
| Seqs.Sum | src/lib/exportUtils.ts:30-32 | the `reduce` sum from 0; `SumConcat`, `SumPointwise`, `SumRemoveAt` and `SumPermutation` state its laws |
| Seqs.SumConcat | src/lib/exportUtils.ts:30-32 | the `reduce` sum of a concatenation is the sum of the parts |
| Seqs.SumPointwise | src/lib/exportUtils.ts:30-32 | two lists whose elements have equal summands have equal sums |
| Seqs.SumRemoveAt | src/components/ControllerSheet.tsx:60-64 | removing one element subtracts its summand from the sum |
| Seqs.MultisetRemoveAt | src/components/ControllerSheet.tsx:60-64 | removing index i removes one occurrence of that element from the multiset |
| Seqs.SumPermutation | src/components/ControllerSheet.tsx:60-64 | the sum does not depend on the order of the elements |
| Seqs.SizeSumIsLength | src/components/Dashboard.tsx:272 | summing the lengths of the lists under a key order equals the length of their concatenation |
| Seqs.ConcatCount | src/components/Dashboard.tsx:281 | in the concatenation under a key order, a value occurs as often as in the single list its key selects |
| Numbers.DigitChar | src/lib/exportUtils.ts:22 | the character of a decimal digit is a digit with that value |
| Numbers.DigitRun | src/components/ControllerSheet.tsx:55-56 | the leading digit run is all digits and is followed by a non-digit or the end |
| Numbers.SkipSpaces | src/components/ControllerSheet.tsx:55 | the skipped prefix is white space and what remains does not start with white space |
| Numbers.Unsigned | src/components/ControllerSheet.tsx:55 | the declarative reading of an unsigned number collects digits only and keeps the sign given |
| Numbers.Scan | src/components/ControllerSheet.tsx:55 | the scanner collects digits only, so the value of what it collects is defined |
| Numbers.ValueSign | src/components/ControllerSheet.tsx:55 | a minus sign negates the value read |
| Numbers.ScanFraction | src/components/ControllerSheet.tsx:55 | the scanner, in the fraction digits, takes the whole digit run and leaves the rest for the exponent |
| Numbers.ScanWhole | src/components/ControllerSheet.tsx:55 | the scanner, in the integer digits, takes the whole digit run and then either a point and the fraction or nothing more |
| Numbers.ScanPointFraction | src/components/ControllerSheet.tsx:55 | after the point the scanner collects the fraction's digit run |
| Numbers.ScanUnsigned | src/components/ControllerSheet.tsx:55 | after the sign, the scanner collects exactly the declarative reading |
| Numbers.ScanLead | src/components/ControllerSheet.tsx:55 | the scanner skips leading white space and one sign as the reference reading does |
| Numbers.ReadNumber | src/components/ControllerSheet.tsx:55 | the declarative reading of `parseFloat(x) \|\| 0`; `ParseNumIsReadNumber` ties the scanner to it |
| Numbers.ParseNum | src/components/ControllerSheet.tsx:55 | the one-pass scanner; it equals `ReadNumber` (`ParseNumIsReadNumber`), reads 0 without a mantissa (`NoMantissaParsesToZero`) and reads back printed numbers (`ParseIntToString`, `ParseFmt2`) |
| Numbers.ParseNumIsReadNumber | src/components/ControllerSheet.tsx:55-56 | `parseFloat(x) \|\| 0`, scanned one character at a time, equals the declarative reading: white space, sign, digits, fraction, exponent, and 0 when nothing numeric is found |
| Numbers.ScanNoDigits | src/components/ControllerSheet.tsx:55 | input with no digit leaves the scanner with no digit collected, in every phase |
| Numbers.NoDigitsParsesToZero | src/components/ControllerSheet.tsx:55-56 | a string with no digit reads as 0 (the `\|\| 0` fallback for NaN) |
| Numbers.NoMantissaParsesToZero | src/components/ControllerSheet.tsx:55-56 | every string in which `parseFloat` finds no mantissa digit after the white space and sign reads as 0, digits later in the string or not |
| Numbers.LetterFirstUnreadable | src/components/ControllerSheet.tsx:55-56 | "x5" holds a digit yet reads as 0 |
| Numbers.SpaceAfterSignUnreadable | src/components/ControllerSheet.tsx:55-56 | "- 5" holds a digit yet reads as 0 |
| Numbers.DigitRunPrefix | src/components/ControllerSheet.tsx:55 | a digit string followed by a non-digit is read to its end |
| Numbers.IntToString | src/lib/exportUtils.ts:22 | `toString` of an integer; `ParseIntToString` reads it back to the number |
| Numbers.NatToString | src/lib/exportUtils.ts:22 | the decimal form consists of digits, denotes the number, and has no leading zero |
| Numbers.ParseUnsignedDigits | src/components/ControllerSheet.tsx:55 | an unsigned digit string reads as its value |
| Numbers.ParseNumSigned | src/components/ControllerSheet.tsx:55 | a number starting with a digit reads unsigned, and with a leading minus reads negated |
| Numbers.ParseIntToString | src/lib/exportUtils.ts:22 | reading back `channelNumber.toString()` gives the channel number |
| Numbers.Fmt2 | src/lib/exportUtils.ts:26 | `toFixed(2)`; `ParseFmt2` and `ParseFmt2Then` read it back as the value rounded to hundredths, within 0.005 by `Round2Close` |
| Numbers.Cents | src/lib/exportUtils.ts:26 | `toFixed(2)`'s hundredths are within half a hundredth of the value |
| Numbers.Round2Close | src/lib/exportUtils.ts:26 | rounding to hundredths moves a value by at most 0.005 |
| Numbers.DecimalLayout | src/lib/exportUtils.ts:26 | where the integer digits, the point and the decimals lie in `q.f` |
| Numbers.ParseUnsignedDecimal | src/lib/exportUtils.ts:26 | `q.f` reads as q plus the fraction f |
| Numbers.FixedCentsValue | src/lib/exportUtils.ts:26 | the digits printed for a count of hundredths denote that count divided by 100 |
| Numbers.ParseFixedCents | src/lib/exportUtils.ts:26 | the printed hundredths read back as the count divided by 100 |
| Numbers.ParseCentsThen | src/lib/exportUtils.ts:26 | the printed hundredths, with or without a leading minus, read back as the signed count divided by 100 |
| Numbers.ParseFmt2Negative | src/lib/exportUtils.ts:26 | a negative value's `toFixed(2)` reads back as the value rounded to hundredths |
| Numbers.ParseFmt2Then | src/lib/exportUtils.ts:35 | `toFixed(2)` followed by a unit such as " W" reads back as the value rounded to hundredths |
| Numbers.ParseFmt2 | src/lib/exportUtils.ts:26 | `toFixed(2)` reads back as the value rounded to hundredths |
| Numbers.Lower | src/components/Dashboard.tsx:74 | `toLowerCase` keeps the length and maps each character |
| Numbers.Contains | src/components/Dashboard.tsx:76-80 | `includes`; `ContainsAt` states it holds exactly when the term occurs at a position |
| Numbers.ContainsAt | src/components/Dashboard.tsx:76-80 | `includes` holds exactly when the term occurs at some position |
| Storage.ReadControllers | src/lib/controllerStorage.ts:62-65 | the stored list, `[]` for a missing key (`EmptyStoreReadsEmpty`) |
| Storage.UpsertController | src/lib/controllerStorage.ts:51-57 | the save upsert with the `updatedAt` stamp; `SaveNewController`, `SaveExistingController` and `SaveThenLoadController` state it |
| Storage.SaveControllerIn | src/lib/controllerStorage.ts:49-60 | saving a controller rewrites only the controllers key as the upsert stamped with `now`; templates and fixtures read unchanged; well-formedness is kept |
| Storage.DeleteControllerIn | src/lib/controllerStorage.ts:67-70 | deleting rewrites only the controllers key as the list without that id |
| Storage.SaveTemplateIn | src/lib/controllerStorage.ts:72-83 | saving a template upserts it verbatim under its key only |
| Storage.DeleteTemplateIn | src/lib/controllerStorage.ts:90-93 | deleting a template filters its key only |
| Storage.SaveFixtureIn | src/lib/controllerStorage.ts:95-106 | saving a fixture upserts it verbatim under its key only |
| Storage.DeleteFixtureIn | src/lib/controllerStorage.ts:113-116 | deleting a fixture filters its key only |
| Storage.EmptyStoreReadsEmpty | src/lib/controllerStorage.ts:62-65 | keys never written read as empty lists |
| Storage.SaveNewController | src/lib/controllerStorage.ts:55-57 | a controller with a new id is appended unchanged, without a new timestamp |
| Storage.SaveExistingController | src/lib/controllerStorage.ts:53-54 | a stored id is overwritten in place by the input with `updatedAt := now`; the length and the other records are kept |
| Storage.SaveThenLoadController | src/lib/controllerStorage.ts:49-65 | after a save the id is found, holding the input in every field but `updatedAt`, which is `now` on an update |
| Storage.SaveThenLoadVerbatim | src/lib/controllerStorage.ts:72-111 | templates and fixtures are found verbatim after a save, and saving twice equals saving once |
| Storage.DeleteControllerSpec | src/lib/controllerStorage.ts:67-70 | after a delete no record has the id, every other record survives in order, and an absent id changes nothing |
| Storage.LocalStore.constructor | src/lib/controllerStorage.ts:45-47 | a fresh store is empty and well formed |
| Storage.LocalStore.GetControllers | src/lib/controllerStorage.ts:62-65 | reads the controllers key, `[]` when absent |
| Storage.LocalStore.GetTemplates | src/lib/controllerStorage.ts:85-88 | reads the templates key, `[]` when absent |
| Storage.LocalStore.GetFixtureConfigs | src/lib/controllerStorage.ts:108-111 | reads the fixtures key, `[]` when absent |
| Storage.LocalStore.SaveController | src/lib/controllerStorage.ts:49-60 | the read–findIndex–assign-or-push–write sequence leaves the store as `SaveControllerIn` |
| Storage.LocalStore.DeleteController | src/lib/controllerStorage.ts:67-70 | leaves the store as `DeleteControllerIn` |
| Storage.LocalStore.SaveTemplate | src/lib/controllerStorage.ts:72-83 | leaves the store as `SaveTemplateIn` |
| Storage.LocalStore.DeleteTemplate | src/lib/controllerStorage.ts:90-93 | leaves the store as `DeleteTemplateIn` |
| Storage.LocalStore.SaveFixtureConfig | src/lib/controllerStorage.ts:95-106 | leaves the store as `SaveFixtureIn` |
| Storage.LocalStore.DeleteFixtureConfig | src/lib/controllerStorage.ts:113-116 | leaves the store as `DeleteFixtureIn` |
| Sheet.SetField | src/components/ControllerSheet.tsx:49 | `{...channel, [field]: value}` sets that field and keeps the id, the number and the other fields |
| Sheet.MaxNumber | src/components/ControllerSheet.tsx:28 | `Math.max` over the channel numbers is one of them and bounds them all |
| Sheet.NextChannelNumber | src/components/ControllerSheet.tsx:27-29 | the new number; `NextChannelNumberSpec` states it exceeds every number in use |
| Sheet.NextChannelNumberSpec | src/components/ControllerSheet.tsx:27-29 | a new channel's number is 1 on an empty list and otherwise one more than the largest, so larger than every number in use |
| Sheet.AddKeepsDistinct | src/components/ControllerSheet.tsx:26-40 | adding a channel never duplicates a channel number |
| Sheet.AddKeepsIncreasing | src/components/ControllerSheet.tsx:26-40 | adding a channel keeps the numbers rising along the list |
| Sheet.RemoveKeepsIncreasing | src/components/ControllerSheet.tsx:42-44 | removing channels keeps the numbers rising |
| Sheet.UpdateChannels | src/components/ControllerSheet.tsx:46-52 | the `map` keeps the length, every id and every number |
| Sheet.UpdateChannelsAt | src/components/ControllerSheet.tsx:46-52 | exactly the channels with the id get the new field value; all other channels and fields stay |
| Sheet.UpdateKeepsIncreasing | src/components/ControllerSheet.tsx:46-52 | editing a field keeps the numbers rising |
| Sheet.ControllerSheet.RemoveDisabled | src/components/ControllerSheet.tsx:259 | the button guard; `GuardedRemoveKeepsAChannel` states it keeps a channel when ids are distinct |
| Sheet.GuardedRemoveKeepsAChannel | src/components/ControllerSheet.tsx:255-259 | with distinct ids, the remove button (disabled at one channel) never empties the list |
| Sheet.SharedIdEmptiesList | src/components/ControllerSheet.tsx:33-43 | two channels sharing a clock-made id are removed together, so the button guard alone does not keep a channel |
| Sheet.CalculatePower | src/components/ControllerSheet.tsx:54-58 | the parsed product; `UnparsableGivesZero` states an unreadable input gives 0 |
| Sheet.TotalPower | src/components/ControllerSheet.tsx:60-64 | the `reduce` total; `TotalPowerOrderIndependent`, `AddKeepsTotalPower` and `FixtureTypeEditKeepsTotalPower` state its laws |
| Sheet.UnparsableGivesZero | src/components/ControllerSheet.tsx:54-58 | a voltage or current in which `parseFloat` finds no number (NaN, so `\|\| 0`) makes the channel's power 0 |
| Sheet.TotalPowerOrderIndependent | src/components/ControllerSheet.tsx:60-64 | the total power does not depend on the channel order |
| Sheet.AddKeepsTotalPower | src/components/ControllerSheet.tsx:26-40 | a new blank channel adds no power |
| Sheet.FixtureTypeEditKeepsTotalPower | src/components/ControllerSheet.tsx:46-64 | editing a fixture type leaves the total unchanged |
| Sheet.PowerCell | src/components/ControllerSheet.tsx:251 | the power cell; `PowerCellReadsBack` states what it reads back as |
| Sheet.PowerCellReadsBack | src/components/ControllerSheet.tsx:251 | a positive power's cell reads back as the power rounded to hundredths; otherwise the cell is the file's three-character placeholder (U+00E2 U+20AC U+201D), which reads as 0 |
| Sheet.TotalCell | src/components/ControllerSheet.tsx:274 | the total line; `TotalCellReadsBack` states it reads back within 0.005 of the total |
| Sheet.TotalCellReadsBack | src/components/ControllerSheet.tsx:274 | the total line reads back within 0.005 of the total |
| Sheet.ControllerSheet.constructor | src/components/ControllerSheet.tsx:17-24 | empty location fields and one blank channel with id "1" and number 1 |
| Sheet.ControllerSheet.AddChannel | src/components/ControllerSheet.tsx:26-40 | appends a blank channel numbered one past the largest, keeps the numbers rising, and leaves the location fields alone |
| Sheet.ControllerSheet.RemoveChannel | src/components/ControllerSheet.tsx:42-44 | the channels become the list without that id, still rising |
| Sheet.ControllerSheet.UpdateChannel | src/components/ControllerSheet.tsx:46-52 | the channels become the mapped list, still rising |
| Dash.TotalPowerOrderIndependent | src/components/Dashboard.tsx:65-71 | the dashboard total, with parallel factors, does not depend on channel order |
| Dash.Load | src/components/Dashboard.tsx:67-68 | one channel's power with its parallel factor; `LoadWithoutParallel` and `ParallelChannelTotalsDiffer` relate it to the export |
| Dash.HasWarning | src/components/Dashboard.tsx:84-88 | the warning test; `HasWarningIff`, `WarningMonotone` and `WarningLimitAntitone` state it |
| Dash.HasWarningIff | src/components/Dashboard.tsx:84-88 | a missing or zero limit never warns; otherwise the warning holds exactly when the total reaches 80% of the limit |
| Dash.WarningMonotone | src/components/Dashboard.tsx:87 | more power never clears a warning |
| Dash.WarningLimitAntitone | src/components/Dashboard.tsx:87 | a smaller positive limit never clears a warning |
| Dash.HasWarningOrderIndependent | src/components/Dashboard.tsx:84-88 | reordering channels does not change the warning |
| Dash.Matches | src/components/Dashboard.tsx:74-81 | the search test; `FilteredSpec` states which controllers it keeps |
| Dash.FilteredControllers | src/components/Dashboard.tsx:73-82 | the search result; `FilteredSpec` and `EmptySearchKeepsAll` state it |
| Dash.FilteredSpec | src/components/Dashboard.tsx:73-82 | the search keeps exactly the controllers whose campus, building, floor, zone or number contains the lower-cased term, in order |
| Dash.EmptySearchKeepsAll | src/components/Dashboard.tsx:73-82 | an empty search term shows every controller |
| Dash.TotalChannels | src/components/Dashboard.tsx:196-199 | the channel count; `TotalChannelsConcat`, `TotalChannelsAtLeastControllers` and `TotalChannelsOfFilter` state its laws |
| Dash.TotalChannelsConcat | src/components/Dashboard.tsx:196-197 | the channel-count stat is additive over concatenation |
| Dash.TotalChannelsAtLeastControllers | src/components/Dashboard.tsx:168-197 | when every controller has a channel, the channel total is at least the controller count |
| Dash.TotalChannelsOfFilter | src/components/Dashboard.tsx:196-199 | the channels over a filtered list never exceed those over the whole list |
| Dash.WarningCount | src/components/Dashboard.tsx:181 | the warning count; `WarningCountBounds` states its bounds |
| Dash.WarningCountBounds | src/components/Dashboard.tsx:181 | the warning stat counts over all controllers: at least the warnings among the matches and at most the controller count |
| Dash.FilterSnoc | src/components/Dashboard.tsx:91-102 | filtering a list with one element appended |
| Dash.FilterEmptyNarrow | src/components/Dashboard.tsx:96-98 | a narrower predicate keeps an empty filter empty |
| Dash.AddCampusKeys | src/components/Dashboard.tsx:96 | one `reduce` step keeps "a campus key exists exactly when a controller is on that campus" |
| Dash.AddBuildingKeys | src/components/Dashboard.tsx:97 | one step keeps the same property for building keys |
| Dash.AddFloorKey | src/components/Dashboard.tsx:98 | at one location, a step keeps "a floor key exists exactly when a controller is on that floor" |
| Dash.AddFloorKeys | src/components/Dashboard.tsx:98 | one step keeps the same property for floor keys |
| Dash.AddToGroupsOtherLeaf | src/components/Dashboard.tsx:96-100 | a step leaves the leaves of other locations untouched |
| Dash.AddToGroupsOwnLeaf | src/components/Dashboard.tsx:100 | a step appends the controller to the leaf of its own location |
| Dash.AddLeaves | src/components/Dashboard.tsx:96-100 | a step keeps "each leaf is the controllers at its location, in order" |
| Dash.AddToGroups | src/components/Dashboard.tsx:92-101 | one `reduce` step; `AddToGroupsStep` states it preserves the grouping invariant |
| Dash.AddToGroupsStep | src/components/Dashboard.tsx:91-102 | one step preserves the whole grouping invariant |
| Dash.Grouped | src/components/Dashboard.tsx:91-102 | the grouping; `GroupedSpec`, `GroupedLeaf`, `GroupedKeys` and `ExactlyOneLeaf` state it |
| Dash.GroupedSpec | src/components/Dashboard.tsx:91-102 | the grouping of a list satisfies the grouping invariant |
| Dash.AddController | src/components/Dashboard.tsx:92-100 | the body of the `reduce`, which creates missing levels and pushes, performs one grouping step |
| Dash.GroupControllers | src/components/Dashboard.tsx:91-102 | the accumulator loop, which creates missing levels and pushes, yields the grouping: keys exactly for occupied locations (missing names become "Unknown …"), leaves listing the controllers at each location in order |
| Dash.GroupedLeaf | src/components/Dashboard.tsx:91-102 | a leaf is the filter of the list by its location |
| Dash.GroupedKeys | src/components/Dashboard.tsx:92-98 | every controller's campus, building and floor keys are present |
| Dash.ExactlyOneLeaf | src/components/Dashboard.tsx:91-102 | every controller is in the leaf of its own location and in no other |
| Dash.BuildingBatch | src/components/Dashboard.tsx:281-282 | the building's export list holds exactly the building's controllers, each as often as in the list |
| Dash.BuildingCount | src/components/Dashboard.tsx:272 | the building header's count is the number of controllers in the building |
| Dash.FlatBuildings | src/components/Dashboard.tsx:252-254 | flattening each building's floors keeps the building keys |
| Dash.CampusCount | src/components/Dashboard.tsx:240-241 | the campus count; `CampusCountSpec` states it is the number of controllers on the campus |
| Dash.CampusCountIsLength | src/components/Dashboard.tsx:240-241 | the campus count equals the length of the campus's flattened list |
| Dash.CampusBatch | src/components/Dashboard.tsx:252-255 | the campus "Export All" list holds exactly the campus's controllers |
| Dash.CampusCountSpec | src/components/Dashboard.tsx:240-241 | the campus header's count is the number of controllers on the campus |
| Dash.CampusTotalsAsConcat | src/components/Dashboard.tsx:227-241 | the campus counts summed equal the length of the concatenated campus lists |
| Dash.CampusListsCount | src/components/Dashboard.tsx:227-241 | with each campus list the filter of the controllers by campus, a controller occurs in the concatenated campus lists as often as in the list |
| Dash.CampusTotalsSpec | src/components/Dashboard.tsx:227-241 | over all campuses the counts add up to the number of controllers shown |
| Dash.Dashboard.constructor | src/components/Dashboard.tsx:47-53 | mounting loads the saved controllers, with an empty search and no pending delete |
| Dash.Dashboard.LoadControllers | src/components/Dashboard.tsx:55-57 | the list becomes the store's controllers; the search and the dialog are kept |
| Dash.Dashboard.HandleDelete | src/components/Dashboard.tsx:59-63 | the store loses that id, the list is reloaded, the dialog closes |
| Dash.Dashboard.RequestDelete | src/components/Dashboard.tsx:382 | opens the dialog for that id and changes nothing else |
| Dash.Dashboard.DismissDelete | src/components/Dashboard.tsx:412 | closes the dialog and changes nothing else |
| Dash.Dashboard.ConfirmDelete | src/components/Dashboard.tsx:424 | deletes the pending id when it is set and non-empty, otherwise changes nothing |
| Dash.Dashboard.SetSearchTerm | src/components/Dashboard.tsx:150 | sets the term and changes nothing else |
| Dash.Dashboard.GroupedControllers | src/components/Dashboard.tsx:91-102 | the grouping is built from the search result, not from all controllers |
| Dash.Dashboard.DialogOpen | src/components/Dashboard.tsx:412 | `!!deleteId`; `ConfirmDelete` deletes exactly when it holds |
| Dash.Dashboard.TotalControllersStat | src/components/Dashboard.tsx:168 | the "Total Controllers" stat counts all controllers, so never fewer than the matches |
| Dash.Dashboard.WithWarningsStat | src/components/Dashboard.tsx:181 | the "With Warnings" stat counts over all controllers: at least the warnings among the matches, at most the controller total |
| Dash.Dashboard.TotalChannelsStat | src/components/Dashboard.tsx:196-199 | the "Total Channels" stat counts over all controllers: at least the channels of the matches |
| Export.ExcelTotal | src/lib/exportUtils.ts:30-32 | the export total; `ExcelTotalStep` and `TotalPower` tie it to the sum of voltage times current |
| Export.ExcelTotalStep | src/lib/exportUtils.ts:30-32 | one more channel adds its voltage-times-current to the running total |
| Seqs.Map | src/components/ControllerSheet.tsx:47-51 | `map` gives one image per element, in order |
| Export.RowsOf | src/lib/exportUtils.ts:19-28 | one row per channel, and row i is the row of channel i |
| Export.ChannelRows | src/lib/exportUtils.ts:19-28 | the `forEach` push loop yields the channel rows in channel order |
| Export.TotalPower | src/lib/exportUtils.ts:30-32 | the `reduce` yields the sum of voltage times current, ignoring parallel count |
| Export.HeaderRows | src/lib/exportUtils.ts:7-17 | the nine header rows; `WorksheetData` and `Layout` place them first |
| Export.ChannelRow | src/lib/exportUtils.ts:20-27 | one channel row; `ChannelRowReadsBack` states what its cells read back as |
| Export.TotalRow | src/lib/exportUtils.ts:35 | the footer row; `TotalRowReadsBack` states its cell reads back as the rounded total |
| Export.WorksheetData | src/lib/exportUtils.ts:6-35 | `9 + channels + 2` rows: the nine header rows, the channel rows in order, a blank row, and the "Total Power:" row with the total to two decimals and " W" |
| Export.Layout | src/lib/exportUtils.ts:34-35 | where the header, the body and the two footer rows lie in the sheet |
| Export.ChannelRowReadsBack | src/lib/exportUtils.ts:21-27 | a channel row holds the number (reading back exactly), the three text cells verbatim, and the power within 0.005 |
| Export.TotalRowReadsBack | src/lib/exportUtils.ts:35 | the total cell reads back as the rounded total, despite the " W" |
| Export.ExcelTotalIgnoresParallelCount | src/lib/exportUtils.ts:30-32 | channels that differ only in parallel count give the same export total |
| Export.LoadWithoutParallel | src/components/Dashboard.tsx:68 | with a parallel count of 0 (unset) or 1 the dashboard's channel power is the export's |
| Export.TotalsAgreeWithoutParallel | src/lib/exportUtils.ts:30-32 | the dashboard and export totals agree when no channel has another parallel count |
| Export.SumPointwiseFns | src/lib/exportUtils.ts:30-32 | sums with summand functions that agree on the list are equal |
| Export.ParseSmallNumbers | src/lib/exportUtils.ts:20 | "24" and "2" parse to 24 and 2 |
| Export.ParallelChannelTotalsDiffer | src/components/Dashboard.tsx:68 | a 24 V, 2 A channel with parallel count 4: 192 W on the dashboard, 48 W in the export |
| Export.DatePart | src/lib/exportUtils.ts:41 | `split('T')[0]` is a prefix without 'T', ending at the first 'T' |
| Export.PrefixOfConcat | src/lib/exportUtils.ts:41 | a string is a prefix of itself followed by more, and the rest is what follows |
| Export.FileName | src/lib/exportUtils.ts:41 | the download name; `FileNameShape` and `DatePartOfTimestamp` state its shape |
| Export.FileNameShape | src/lib/exportUtils.ts:41 | the name starts with "Controller_", then the number or "Doc" when it is empty, and ends with ".xlsx" |
| Export.DatePartOfTimestamp | src/lib/exportUtils.ts:41 | for an ISO time stamp the date part is its calendar date |
| Fixtures.Complete | src/components/FixtureConfigManager.tsx:54-57 | the validation; `AddLeavesOtherCollections` states an incomplete form changes nothing |
| Fixtures.FixtureFromForm | src/components/FixtureConfigManager.tsx:59-65 | the saved record; `SaveThenFind` states the saved id holds the form's values |
| Fixtures.AddFixtureIn | src/components/FixtureConfigManager.tsx:53-72 | the store after Add / Update; `AddAppends`, `UpdateReplacesInPlace` and `AddThenDeleteRestores` state it |
| Fixtures.WithField | src/components/FixtureConfigManager.tsx:140-172 | an input's `onChange` sets its field and keeps the other two |
| Fixtures.AddLeavesOtherCollections | src/components/FixtureConfigManager.tsx:54-67 | an incomplete form leaves the store unchanged; controllers and templates are never touched |
| Fixtures.AddAppends | src/components/FixtureConfigManager.tsx:54-67 | adding (not editing) under a new id appends exactly the form's record, stamped with `now` |
| Fixtures.UpdateReplacesInPlace | src/components/FixtureConfigManager.tsx:59-67 | saving while editing a stored fixture overwrites it where it stands: same length, no duplicate, the other records untouched |
| Fixtures.SaveThenFind | src/components/FixtureConfigManager.tsx:59-67 | after a save, the saved id is found holding the form's values |
| Fixtures.EditThenSaveTouchesOnlyTimestamp | src/components/FixtureConfigManager.tsx:54-86 | edit then Update, without changes, alters only the record's `createdAt` |
| Fixtures.AddThenDeleteRestores | src/components/FixtureConfigManager.tsx:54-93 | adding a new fixture and deleting it gives back the list as it was |
| Fixtures.FixtureConfigManager.constructor | src/components/FixtureConfigManager.tsx:36-48 | mount: the saved fixtures, an empty form, no edit, no pending delete |
| Fixtures.FixtureConfigManager.LoadFixtures | src/components/FixtureConfigManager.tsx:49-51 | the list becomes the store's fixtures; the form is kept |
| Fixtures.FixtureConfigManager.SetField | src/components/FixtureConfigManager.tsx:140-172 | the form changes in one field only |
| Fixtures.FixtureConfigManager.HandleAddFixture | src/components/FixtureConfigManager.tsx:53-72 | with an empty field: "fill in all fields", and nothing changes. Otherwise the record is saved under `editingId \|\| freshId`, the list reloads, the form clears, editing ends, and the notice is "updated" exactly when an edit was under way |
| Fixtures.FixtureConfigManager.HandleEdit | src/components/FixtureConfigManager.tsx:74-80 | loads the fixture's name, voltage and current into the form and sets `editingId` to its id |
| Fixtures.FixtureConfigManager.HandleCancel | src/components/FixtureConfigManager.tsx:95-98 | clears the form and the edit without touching the list |
| Fixtures.FixtureConfigManager.HandleDelete | src/components/FixtureConfigManager.tsx:88-92 | the store loses the id, the list reloads, the dialog closes |
| Fixtures.FixtureConfigManager.RequestDelete | src/components/FixtureConfigManager.tsx:269 | opens the dialog for that id |
| Fixtures.FixtureConfigManager.DismissDelete | src/components/FixtureConfigManager.tsx:292 | closes the dialog |
| Fixtures.FixtureConfigManager.ConfirmDelete | src/components/FixtureConfigManager.tsx:304 | deletes only when the pending id is set and non-empty |
| Fixtures.FixtureConfigManager.DialogOpen | src/components/FixtureConfigManager.tsx:292 | `!!deleteId`; `ConfirmDelete` deletes exactly when it holds |
| Pages.Step | src/pages/Index.tsx:13-30 | the four handlers; `NavigationTargets` and `StepConsistent` state them |
| Pages.Offered | src/pages/Index.tsx:34-47 | the callbacks each screen receives; `StepConsistent` is stated over them |
| Pages.Run | src/pages/Index.tsx:13-30 | a sequence of callbacks; `RunConsistent` and `RunThenBack` state it |
| Pages.Rendered | src/pages/Index.tsx:34-47 | exactly one screen is rendered, chosen by `view`; the sheet gets the controller being edited |
| Pages.NavigationTargets | src/pages/Index.tsx:13-30 | create opens an empty sheet, edit opens it on the controller, back returns to the initial state, fixtures opens the fixture screen |
| Pages.OpenFixturesKeepsController | src/pages/Index.tsx:28-30 | opening the fixtures does not clear `editingController` |
| Pages.StepConsistent | src/pages/Index.tsx:13-30 | a callback the rendered screen offers keeps "a controller is held only in the editor" |
| Pages.RunConsistent | src/pages/Index.tsx:8-47 | every sequence of offered callbacks from a consistent state, the initial one included, keeps that invariant |
| Pages.RunThenBack | src/pages/Index.tsx:23-26 | whatever happened before, back lands on the dashboard with nothing held |
| Pages.Index.constructor | src/pages/Index.tsx:8-11 | starts on the dashboard with nothing held |
| Pages.Index.HandleCreateNew | src/pages/Index.tsx:13-16 | the state after `handleCreateNew` |
| Pages.Index.HandleEditController | src/pages/Index.tsx:18-21 | the state after `handleEditController` |
| Pages.Index.HandleBackToDashboard | src/pages/Index.tsx:23-26 | the state after `handleBackToDashboard` |
| Pages.Index.HandleOpenFixtures | src/pages/Index.tsx:28-30 | the state after `handleOpenFixtures` |

## Left out

- PDF export (`exportToPDF`, the imported `exportBatchToPDF`): DOM rasterisation and an async library, with no logic of the application's own. The dashboard's batch lists are modelled up to the call.
- Spreadsheet writing (`aoa_to_sheet`, `book_new`, `writeFile`): a foreign library. The rows and the file name are modelled.
- Browser storage and JSON: the store is a map from key to decoded list, and a JSON round trip is taken to be the identity.
- The clock: `Date.now()` ids and `toISOString()` stamps are parameters (`freshId`, `newId`, `now`, `iso`). Id uniqueness is not assumed; `Sheet.SharedIdEmptiesList` shows one consequence.
- Toasts, `setTimeout` scroll-into-view, `window.print` and JSX rendering: user-interface effects. Toasts of the fixture form are the returned `Notice`.
- Numbers.ParseNum: reads over exact reals. It does not model IEEE rounding or the `Infinity` literal. Leading white space covers the ASCII spaces, no-break space, byte-order mark and the line and paragraph separators, but not the other Unicode space separators.
- Numbers.Fmt2: rounds the exact real half-up, so rounding differences of binary doubles (1.005 printed as "1.00") and the exponent form of values of 1e21 and above are not modelled.
- Numbers.Lower: maps the ASCII letters only. Unicode case mapping is not modelled.
- The fixture list's `toFixed(3)` power display (FixtureConfigManager.tsx:241): display only, and its `parseFloat` product has no `|| 0`, so it can show NaN. Not modelled.
- The order of keys in `Object.entries` / `Object.values` on the grouping: the counts and batch lemmas take the key order as a parameter listing each key once. No particular order is promised.
- The location inputs of the controller sheet (`setCampus` …): plain assignments with nothing to state.
- The sheet's `initialData` and `onBack` props and the editor's way back: the page passes them but ControllerSheet.tsx does not declare them. `Pages.Offered` follows the page's wiring.
- The "Edit Fixture" heading, the Update/Add labels and the Cancel button's visibility: rendering choices that follow `editingId` and are not modelled.
- Dash.AddController: location names that are members of `Object.prototype` ("constructor", "toString", "valueOf", "__proto__", …) are not modelled. In the source the accumulator is a plain `{}`, so the `!acc[…]` tests see the inherited value: `push` then throws, or the controller is stored under an inherited key. The model's step is a map update that has neither effect.
- Dash.GroupControllers: the same. For such names the source's `reduce` crashes the render or drops the controller from `Object.entries(groupedControllers)`; the model groups it like any other name.
- Dash.ExactlyOneLeaf: holds of the map model only. With a floor named "constructor" or a campus named "toString" the source shows the controller in no leaf, or throws.
- Sheet.Field: `updateChannel` accepts any key of a channel, but the editor calls it only for the fixture type, voltage and current (ControllerSheet.tsx:220, 231, 243). The model's field type has those three.
- The channel's parallel count is a `real` in which 0 stands for unset. Stored JSON that lacks the field or holds NaN is not represented; the dashboard's `|| 1` reads both as 1, and the model's 0 gives the same factor.
