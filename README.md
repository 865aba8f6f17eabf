# Gift entry and donation history: client-side data shaping

A Dafny model of three small pieces of client-side logic in the gift-entry and
donation-history Lightning Web Components of a fundraising CRM:

- **Donation history table** (`DonationHistory`). The component keeps the whole
  donation-history result set in `allData` and shows a growing prefix `data` of it,
  50 records per page. When the fetch resolves, the first page is shown. Each
  infinite-scroll "load more" event appends the next slice of 50. Once every row is
  shown, the next event switches infinite loading off on the datatable. The state is
  the value `TableState`. `ValidState` is its invariant: `data` is an in-order prefix
  of `allData`, and a known row count equals `|allData|`. `Resolve` and `LoadMore`
  give the state after the fetch callback and after one load. The class
  `DonationHistoryTable` holds the component's fields. Its two handlers are proved to
  produce exactly those states and to keep the datatable's `isLoading` and
  `enableInfiniteLoading` flags right.
- **Gift batch view** (`GeGiftBatch`). The class `GiftBatch` holds a batch's id, name,
  donation amount, gifts and its totals map from counter name (PROCESSED, FAILED,
  FAILED_PAYMENT, EXPIRED_PAYMENT, AUTHORIZED_PAYMENT, TOTAL, PROCESSING) to count. It
  has raw count getters, three "counter is greater than zero" predicates, `Init`
  (applying a fetched view model) and the `State` snapshot.
- **Form service** (`GeFormService`). This covers the describe-type lookup tables,
  lookups in the field and object mappings of the loaded form template, and
  `GetDataImportRecord`. That method folds the form's sections into one field map and
  one widget map, with later sections overriding earlier ones. It then writes each
  field value under its mapping's source field name, throwing when a field has no
  mapping. Last, it stamps the donor-link fields of an attached Contact or Account.

JavaScript `undefined`/`null` is `Option.None` (`wrappers.dfy`). A thrown `TypeError`
is `Result.Failure`. Results of server calls (the donation list, the gift batch view
model, the form template's mapping set) are parameters of the methods that the
callbacks become.

Behaviours worth noting:
- A count getter returns the raw entry, which is `undefined` when the counter is
  absent, not 0 (`Count` returns `None`).
- The predicates treat an absent counter as not greater than zero because
  `Number(undefined)` is `NaN`, not because it is coerced to 0. The result is the same.
- `loadMoreDonationData` returns nothing. It does not switch infinite loading off on
  the load that shows the last rows, but on the next event, when
  `data.length >= totalNumberOfRows`. `LoadsUntilExhausted` states this.
- Before the fetch resolves, `totalNumberOfRows` is `undefined`. A comparison with it
  is false, so a load event is accepted and appends nothing.

## Model

| member | source | states |
|---|---|---|
| DonationHistory.Slice | force-app/main/default/lwc/donationHistoryTable/donationHistoryTable.js:78 | JS `slice(start, end)` clamps `end` to the length and gives `[]` for an empty range; element `i` of the result is element `start + i` of the input |
| DonationHistory.Initial | force-app/main/default/lwc/donationHistoryTable/donationHistoryTable.js:18-24 | before the fetch resolves, `allData` and `data` are empty and `totalNumberOfRows` is undefined, which satisfies the prefix invariant |
| DonationHistory.RefusesLoad | force-app/main/default/lwc/donationHistoryTable/donationHistoryTable.js:69 | the guard `data.length >= totalNumberOfRows`: never true while the row count is undefined, and in a valid state true only once every row is shown |
| DonationHistory.Resolve | force-app/main/default/lwc/donationHistoryTable/donationHistoryTable.js:53-58 | a `null`/`undefined` result changes nothing; a list `d` (even `[]`) gives `allData == d`, `data` the first `min(50, len(d))` rows of `d`, `totalNumberOfRows == len(d)`; the result satisfies the prefix invariant |
| DonationHistory.LoadMore | force-app/main/default/lwc/donationHistoryTable/donationHistoryTable.js:67-81 | `allData` and the row count never change; a refused load changes nothing; otherwise old `data` is a prefix of new `data`, and from a valid state it grows by `min(50, len(allData) - len(data))`; the prefix invariant is preserved |
| DonationHistory.RefusesLoadIffAllShown | force-app/main/default/lwc/donationHistoryTable/donationHistoryTable.js:69 | once the row count is known, the guard `data.length >= totalNumberOfRows` holds exactly when `data == allData` |
| DonationHistory.LoadMoreIdempotentOnceExhausted | force-app/main/default/lwc/donationHistoryTable/donationHistoryTable.js:69-73 | once the guard holds, a load leaves the state unchanged, the guard still holds, and a second load changes nothing |
| DonationHistory.LoadMoreBeforeFetch | force-app/main/default/lwc/donationHistoryTable/donationHistoryTable.js:18-24 | before the fetch resolves (`totalNumberOfRows` undefined, `allData == []`), a load is not refused and leaves `data` empty |
| DonationHistory.LoadMoreTimesShowsPrefix | force-app/main/default/lwc/donationHistoryTable/donationHistoryTable.js:74-79 | from a table showing the first `m` rows of `d`, `n` loads show exactly the first `min(m + 50n, len(d))` rows, in order |
| DonationHistory.ResolveThenLoad | force-app/main/default/lwc/donationHistoryTable/donationHistoryTable.js:54-79 | after the fetch resolves with `d`, `n` loads show exactly `d[..min(50(n+1), len(d))]` |
| DonationHistory.LoadsUntilExhausted | force-app/main/default/lwc/donationHistoryTable/donationHistoryTable.js:69-79 | after `n` loads, the next load is accepted while `50(n+1) < len(d)`; once `50(n+1) >= len(d)` every row is shown and loading is refused |
| DonationHistory.HundredTwentyRows | force-app/main/default/lwc/donationHistoryTable/donationHistoryTable.js:54-79 | 120 rows: 50 shown, then 100, then all 120; loading is then refused and a further load changes nothing |
| DonationHistory.DatatableTarget.constructor | force-app/main/default/lwc/donationHistoryTable/donationHistoryTable.js:67-71 | the `event.target` datatable starts not loading, with the given infinite-loading flag |
| DonationHistory.DonationHistoryTable.constructor | force-app/main/default/lwc/donationHistoryTable/donationHistoryTable.js:14-24 | a new component has empty `allData` and `data`, no row count, and satisfies the invariant |
| DonationHistory.DonationHistoryTable.HandleDonationHistory | force-app/main/default/lwc/donationHistoryTable/donationHistoryTable.js:51-59 | the fields after the fetch callback are `Resolve` of the fields before; the invariant holds afterwards when the result is a list or it held before |
| DonationHistory.DonationHistoryTable.LoadMoreDonationData | force-app/main/default/lwc/donationHistoryTable/donationHistoryTable.js:67-81 | the fields afterwards are `LoadMore` of the fields before; `allData` and `totalNumberOfRows` are untouched; the invariant is kept; `isLoading` is false on both paths; `enableInfiniteLoading` is switched off exactly when the load is refused |
| GeGiftBatch.Count | src/lwc/geGiftBatch/geGiftBatch.js:34-56 | reading `totals.KEY` gives the raw entry when the key is present and `undefined` when it is absent |
| GeGiftBatch.ExceedsZero | src/lwc/geGiftBatch/geGiftBatch.js:59-67 | `Number(count) > 0`: an absent count (`NaN`) is never greater than zero; a present count is exactly when it is positive |
| GeGiftBatch.GiftBatch.constructor | src/lwc/geGiftBatch/geGiftBatch.js:3-8 | a new batch has no id, name or amount, empty totals and no gifts |
| GeGiftBatch.GiftBatch.Init | src/lwc/geGiftBatch/geGiftBatch.js:10-28 | with no view model, only the id is set, to the argument; with a view model, id, name, amount and totals come from it; its gifts are appended in order after the existing ones, and the result is `State()`; a view model whose gift list is `null` throws, leaving id, name, amount and totals already overwritten and the gifts unchanged |
| GeGiftBatch.GiftBatch.Id | src/lwc/geGiftBatch/geGiftBatch.js:30-32 | returns the current id |
| GeGiftBatch.GiftBatch.ProcessedGiftsCount | src/lwc/geGiftBatch/geGiftBatch.js:34-36 | present exactly when PROCESSED is in the totals, and then equal to that entry |
| GeGiftBatch.GiftBatch.FailedGiftsCount | src/lwc/geGiftBatch/geGiftBatch.js:38-40 | present exactly when FAILED is in the totals, and then equal to that entry |
| GeGiftBatch.GiftBatch.FailedPaymentsCount | src/lwc/geGiftBatch/geGiftBatch.js:42-44 | present exactly when FAILED_PAYMENT is in the totals, and then equal to that entry |
| GeGiftBatch.GiftBatch.ExpiredPaymentsCount | src/lwc/geGiftBatch/geGiftBatch.js:46-48 | present exactly when EXPIRED_PAYMENT is in the totals, and then equal to that entry |
| GeGiftBatch.GiftBatch.AuthorizedPaymentsCount | src/lwc/geGiftBatch/geGiftBatch.js:50-52 | present exactly when AUTHORIZED_PAYMENT is in the totals, and then equal to that entry |
| GeGiftBatch.GiftBatch.TotalGiftsCount | src/lwc/geGiftBatch/geGiftBatch.js:54-56 | present exactly when TOTAL is in the totals, and then equal to that entry |
| GeGiftBatch.GiftBatch.HasValuesGreaterThanZero | src/lwc/geGiftBatch/geGiftBatch.js:58-60 | true iff PROCESSED is present and > 0, or FAILED is present and > 0; an absent counter never counts |
| GeGiftBatch.GiftBatch.HasPaymentsWithExpiredAuthorizations | src/lwc/geGiftBatch/geGiftBatch.js:62-64 | true iff EXPIRED_PAYMENT is present and > 0 |
| GeGiftBatch.GiftBatch.IsProcessingGifts | src/lwc/geGiftBatch/geGiftBatch.js:66-68 | true iff PROCESSING is present and > 0 |
| GeGiftBatch.GiftBatch.State | src/lwc/geGiftBatch/geGiftBatch.js:70-86 | every field of the snapshot equals the corresponding field, getter or predicate; as a function it reads the batch and changes nothing |
| GeGiftBatch.EmptyTotalsSnapshot | src/lwc/geGiftBatch/geGiftBatch.js:5 | with `_totals = {}` every count in the snapshot is absent and all three predicates are false |
| GeGiftBatch.InitTwice | src/lwc/geGiftBatch/geGiftBatch.js:13-24 | initialising a new batch with two view models succeeds exactly when both have a gift list; it keeps the gifts of both, in order, and reports the id, name, amount, all six counts and all three predicates of the second |
| GeGiftBatch.InitWithoutGiftList | src/lwc/geGiftBatch/geGiftBatch.js:13-23 | a view model without a gift list makes `init` throw, yet the batch already reports that view model's id, name and amount, all six counts and all three predicates of its totals, with no gifts |
| GeGiftBatch.InitWithoutView | src/lwc/geGiftBatch/geGiftBatch.js:11-13 | a new batch whose view model is absent has only the requested id: no name, no amount, no gifts, all six counts absent and all three predicates false |
| GeFormService.GetInputTypeFromDataType | src/lwc/geFormService/geFormService.js:73-75 | present exactly for the 14 describe types of the table, always a `lightning-input` type; the numeric types CURRENCY, DOUBLE, INTEGER, LONG and PERCENT, and only they, give 'number' |
| GeFormService.GetNumberFormatterByDescribeType | src/lwc/geFormService/geFormService.js:82-84 | 'percent-fixed' for PERCENT and absent for every other type |
| GeFormService.DescribeTablesAgree | src/lwc/geFormService/geFormService.js:13-32 | a type with a number formatter is rendered as a number input; CURRENCY gives 'number', PHONE 'tel', BOOLEAN 'checkbox', DATETIME 'datetime-local'; unlisted types such as TEXTAREA give nothing |
| GeFormService.Spread | src/lwc/geFormService/geFormService.js:158-159 | `{...x}` copies exactly the entries of `x`, and spreading `undefined` adds nothing |
| GeFormService.Merge | src/lwc/geFormService/geFormService.js:157-160 | the fold over no sections is `{}`; every key of the last section takes that section's value |
| GeFormService.MergeKeys | src/lwc/geFormService/geFormService.js:154-160 | a key is in the merged map exactly when some section has it (an `undefined` section map adds nothing) |
| GeFormService.MergeLaterWins | src/lwc/geFormService/geFormService.js:157-160 | a merged key takes its value from the last section that has it: on a collision the later section wins |
| GeFormService.MappedFromDistinct | src/lwc/geFormService/geFormService.js:165-174 | when no two fields share a source field name, every field value is found under its mapping's `Source_Field_API_Name` |
| GeFormService.MappedFromUnique | src/lwc/geFormService/geFormService.js:165-174 | when no two fields share a source field name, the renamed record is fully determined by the field data and the mappings |
| GeFormService.StampDonor | src/lwc/geFormService/geFormService.js:176-185 | a Contact adds Contact1-imported = its id and donor = Contact1; an Account adds Account1-imported = its id and donor = Account1; these override colliding mapped values; every other entry is kept; with no record or another object there is no change |
| GeFormService.DataImportRecordFields | src/lwc/geFormService/geFormService.js:163-187 | with nothing to stamp, the record holds only mapped fields; without collisions each field value is under its mapped name unless the stamp overrode it; every unstamped entry comes from a mapped field |
| GeFormService.PropertyOf | src/lwc/geFormService/geFormService.js:91-111 | `obj[key]` throws when `obj` is `undefined`, gives `undefined` for an absent key, and otherwise gives the entry |
| GeFormService.FormService.constructor | src/lwc/geFormService/geFormService.js:34-38 | a new service has all three mapping maps `undefined` |
| GeFormService.FormService.ApplyFormTemplate | src/lwc/geFormService/geFormService.js:48-52 | the three mapping maps become those of the fetched mapping set |
| GeFormService.FormService.GetFieldMappingWrapper | src/lwc/geFormService/geFormService.js:91-93 | throws before a template is loaded; otherwise the mapping for the developer name, `undefined` if there is none |
| GeFormService.FormService.GetFieldMappingWrapperFromTarget | src/lwc/geFormService/geFormService.js:100-102 | throws before a template is loaded; otherwise the mapping for the target field name, `undefined` if there is none |
| GeFormService.FormService.GetObjectMappingWrapper | src/lwc/geFormService/geFormService.js:109-111 | throws before a template is loaded; otherwise the object mapping for the developer name, `undefined` if there is none |
| GeFormService.FormService.RenameFields | src/lwc/geFormService/geFormService.js:165-174 | throws exactly when some field has no mapping (with no template loaded, every field lacks one); otherwise every mapped source name is present and each entry is the value of a field mapped to it |
| GeFormService.FormService.GetDataImportRecord | src/lwc/geFormService/geFormService.js:152-188 | throws exactly when some merged field has no mapping; otherwise `widgetValues` is exactly the left-to-right merge of the sections' widget values, and `diRecord` is the renamed merged field data with the donor stamp applied on top |

## Left out

- Server calls (`getDonationHistory`, `getGiftBatchView`, `getRenderWrapper`, `getAllocationSettings`, `saveAndProcessGift`, `saveAndDryRunRow`), their promises and `async`/`await`, `handleError` and `console.error`: these are foreign calls. Their results are method parameters instead.
- `handleSave`, `saveAndProcessGift` and `saveAndDryRun`: they only pass the built record to a server call and serialise with `JSON.stringify`/`JSON.parse`. Those are a library that is not part of this model.
- The `oppInfo` wire handler and the column definitions of the donation table, the `contactId`, `paymentMethodLabel`, `tableElement` and `label` properties: platform schema metadata and static UI configuration.
- `_total` and `_totalCount` of the gift batch: they are initialised and never read. `totalDonationsAmount` is an opaque amount carried through unread, and counts are integers. `Number()` coercion of non-numeric or fractional counts is not modelled.
- GeGiftBatch.GiftBatch.State: the JavaScript snapshot shares the `_gifts` array with the batch, so a later `init` also changes the gifts of an earlier snapshot. The model's gifts are a value, so this aliasing is not captured.
- GeFormService.FormService.GetDataImportRecord and GeFormService.FormService.RenameFields: the `for...in` visiting order is not modelled. When two fields map to the same source field name, the model only says that the entry holds the value of one of them, not which.
- GeFormService.GetInputTypeFromDataType: keys a JavaScript object inherits from its prototype (`constructor`, `toString`, …) would be found by the lookups; the model's maps have no such keys. The same holds for the three mapping getters.
- GeGiftBatch.GiftBatch.Init: the view model's `totals` is always a map. A `null` totals would leave `_totals` undefined, so the `state()` call at the end of `init` and every later count getter would throw. That path is not modelled. A `null` gift list is modelled.
- GeFormService.FormService.ApplyFormTemplate: the fetched mapping set always carries all three maps. An absent map would be stored as `undefined`, after which its getter throws. The model's getters do throw while a map is `undefined`, but `ApplyFormTemplate` cannot store one.
- The Contact/Account object names, the Contact1-imported, Account1-imported and donor field names, and the CONTACT1/ACCOUNT1 values come from the template-builder utility module, which is not part of this model. The constants in `GeFormService` are their un-namespaced values, and no two of them are equal.
- The module-level singleton service instance. The model constructs a `FormService` explicitly and loads its mappings with `ApplyFormTemplate`.
- The `geTemplates` and `geFormWidget` components: navigation, toasts, template CRUD, DOM queries, debounce timers and event dispatch are platform glue. The widget-list membership test is not modelled.
