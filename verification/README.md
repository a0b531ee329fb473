# agrolog freight dashboard — a Dafny model

agrolog is a small dashboard for a grain-haulage business. It keeps two
tables in a hosted backend: `drivers` and `freights` (trips with load date,
product, destination, weight, unit price and a status; the app writes one
of the codes EM_TRANSITO, DESCARREGADO, PAGO, ATRASADO and AGENDADO). Its pages and dialogs read the
rows, compute totals and write changes back. This project models the logic
inside those handlers:

- **Tables** (`tables.dfy`): the two tables as maps keyed by row id, in a
  `Database` class. Its methods are the update, delete and insert calls the
  pages make. A `log` records every write request in the order it was issued.
  `Valid()` says that each row sits under its own id and that every freight's
  driver exists (the backend's foreign key). A driver that a freight still
  references cannot be deleted, and a freight cannot be inserted for an
  unknown driver. Each remote call's error answer is a `bool` parameter.
- **Freights page** (`freights.dfy`): the status change with its driver
  sync rule, the delete that releases the driver before removing the row,
  the list rebuilds and the search.
- **Filter dialog** (`filters.dfy`): the `FilterState` draft, status
  toggling, clearing, product and driver choice, and the product label.
- **Finance page** (`finance.dfy`, `calendar.dfy`): a commission of 5 per
  weight unit. Per-day buckets for the current month are built in an array
  updated in place. Also the largest bucket value (at least 1), the best day,
  the latest five movements and the daily list.
- **Dashboard** (`dashboard.dfy`): revenue, pending and trip counters, and
  the status badge text.
- **Drivers page** (`drivers.dfy`): trip counts, search, status label and
  delete, with its success and failure outcomes.
- **New freight / new driver dialogs** (`new_freight.dfy`,
  `new_driver.dfy`): the derived sacks and total, the inserted rows, the
  driver marked as travelling, and the form reset.

"Today" (the current date, and the date string that the freight form resets
to) is always a parameter. So are the backend-generated `id` and
`created_at` of inserted rows. Weights and money are reals.

Arithmetic of the new-freight dialog: sacks = weight / 60 and total =
(weight / 60) × unit price. There is no advance/balance split of the total
and no sort toggling in the lists. Driver statuses are free text ('Disponível',
'Em Viagem'), modelled as `DriverStatus` with an `Other` case.

## Model

| member | source | states |
|---|---|---|
| `Rows.StatusCode` | src/types/index.ts:1 | every freight status has a non-empty stored code |
| `Tables.WithFreightStatus` | src/pages/Freights.tsx:51-55 | updating a freight's status by id changes only that row's status; an unknown id matches no row |
| `Tables.WithDriverStatus` | src/pages/Freights.tsx:66-70 | updating a driver's status by id changes only that driver's row and keeps the key set |
| `Tables.Without` | src/pages/Freights.tsx:103 | delete by id removes exactly that key and keeps every other row unchanged |
| `Tables.StatusUpdatesKeepConsistent` | src/types/supabase.ts:109-117 | status updates keep ids in place and the freight→driver foreign key intact |
| `Tables.DeletionsKeepConsistent` | src/types/supabase.ts:109-117 | deleting a freight, or a driver no freight references, keeps the foreign key intact |
| `Tables.Database.UpdateFreightStatus` | src/pages/Freights.tsx:51-57 | the freight update applies only without an error, logs the request, and leaves drivers alone |
| `Tables.Database.UpdateDriverStatus` | src/pages/Freights.tsx:66-70 | the driver update applies only without an error, logs the request, and leaves freights alone |
| `Tables.Database.DeleteFreight` | src/pages/Freights.tsx:103-104 | the freight delete applies only without an error and is logged |
| `Tables.Database.DeleteDriver` | src/pages/Drivers.tsx:72-73 | deleting a driver errs exactly when the backend fails or a freight references the driver; otherwise the row goes |
| `Tables.Database.InsertFreight` | src/components/NewFreightModal.tsx:68-82 | a freight insert errs on failure, a taken id or an unknown driver; otherwise the row is stored under its id |
| `Tables.Database.InsertDriver` | src/components/NewDriverModal.tsx:30-38 | a driver insert errs on failure or a taken id; otherwise the row is stored under its id |
| `Freights.DriverStatusFor` | src/pages/Freights.tsx:62-64 | the driver becomes 'Disponível' exactly when the freight status is PAGO or DESCARREGADO, 'Em Viagem' otherwise |
| `Freights.DisplayedStatus` | src/pages/Freights.tsx:254 | a freight without status shows as EM_TRANSITO, otherwise its own status |
| `Freights.FindById` | src/pages/Freights.tsx:60 | `find` returns the first listed freight with the id, or nothing when no freight has it |
| `Freights.SyncTarget` | src/pages/Freights.tsx:60-61 | a driver is synced exactly when the freight is listed and its driver_id is non-null and non-empty |
| `Freights.WithStatusById` | src/pages/Freights.tsx:73 | the rebuilt list has the same length; freights with the id carry the new status, every other freight is unchanged |
| `Freights.StatusChangeKeepsIds` | src/pages/Freights.tsx:73 | the status rebuild keeps every position's id, so the order, and sets the new status at the matching ids |
| `Freights.RemoveById` | src/pages/Freights.tsx:110 | the filtered list holds exactly the freights with another id, each as often as before, as an order-preserving sublist |
| `Freights.RemoveAbsentId` | src/pages/Freights.tsx:110 | removing an id that is not listed leaves the list as it was |
| `Freights.FilteredFreights` | src/pages/Freights.tsx:118-122 | a freight is kept iff the lower-cased term occurs in its driver's name, its destination or its driver's plate, each as often as before; order is kept |
| `Freights.EmptySearchKeepsAll` | src/pages/Freights.tsx:118-122 | an empty search term keeps every freight |
| `Text.IncludesIff` | src/pages/Freights.tsx:119-121 | `includes` holds exactly when the term occurs at some position of the text |
| `Freights.FreightsPage.ConfirmDelete` | src/pages/Freights.tsx:81-83 | the delete modal opens holding the freight id |
| `Freights.FreightsPage.HandleStatusChange` | src/pages/Freights.tsx:48-79 | on a freight-update error nothing but the log and an alert changes; otherwise the freight row, the synced driver (if any) and the list change, with the writes in that order |
| `Freights.FreightsPage.CloseDeleteModal` | src/pages/Freights.tsx:134 | closing the confirmation hides it and keeps the pending id; nothing else changes |
| `Freights.FreightsPage.ConfirmAndClose` | src/components/ConfirmationModal.tsx:92 | the confirm button deletes as `HandleDelete` and then closes: the modal ends closed, holding the id after a failed delete and no id after a successful one |
| `Freights.FreightsPage.HandleDelete` | src/pages/Freights.tsx:85-116 | no pending id is a no-op; the driver is released before the delete is issued; on error the list and modal stay; on success the freight leaves table and list and the modal closes with a null id |
| `FreightFilters.RemoveAll` | src/components/FreightFiltersModal.tsx:69 | every copy of the status is removed and all other members stay, in order |
| `FreightFilters.RemoveAbsent` | src/components/FreightFiltersModal.tsx:69 | removing an absent status changes nothing |
| `FreightFilters.ToggleStatus` | src/components/FreightFiltersModal.tsx:63-73 | membership flips: a present status loses every copy, an absent one is appended; dates, driver and product are unchanged |
| `FreightFilters.ToggleKeepsOtherStatuses` | src/components/FreightFiltersModal.tsx:66-71 | the statuses other than the toggled one, and their order, are unchanged |
| `FreightFilters.ToggleTwiceRestores` | src/components/FreightFiltersModal.tsx:63-73 | toggling an absent status twice gives back the original draft |
| `FreightFilters.ToggleKeepsNoDuplicates` | src/components/FreightFiltersModal.tsx:63-73 | a duplicate-free status list stays duplicate-free |
| `FreightFilters.HandleClear` | src/components/FreightFiltersModal.tsx:80-85 | the draft and the applied filters both become the initial filters: empty dates, no status, empty driver and product |
| `FreightFilters.SelectProduct` | src/components/FreightFiltersModal.tsx:183-193 | choosing a product (or '' for all products) sets only the product |
| `FreightFilters.SelectDriver` | src/components/FreightFiltersModal.tsx:238-248 | choosing a driver (or '' for all drivers) sets only the driver id |
| `FreightFilters.Capitalize` | src/components/FreightFiltersModal.tsx:169 | same length, first character upper-cased, the rest lower-cased |
| `FreightFilters.ProductLabel` | src/components/FreightFiltersModal.tsx:169 | an empty product shows 'Todos os produtos', any other the capitalized code |
| `FreightFilters.ProductLabels` | src/components/FreightFiltersModal.tsx:202 | SOJA, MILHO and SORGO show as Soja, Milho and Sorgo |
| `Calendar.DaysInMonth` | src/pages/Finance.tsx:46 | the month has 28 to 31 days, 29 in February exactly in leap years |
| `Finance.TotalWeightAppend` | src/pages/Finance.tsx:37 | the weight sum (missing weight as 0) is additive over concatenation |
| `Finance.TotalWeightNonNegative` | src/pages/Finance.tsx:37 | with no negative weight the total weight is non-negative |
| `Finance.InitialBuckets` | src/pages/Finance.tsx:49-53 | there are n buckets and bucket i is day i+1 with value 0 and count 0 |
| `Finance.Buckets` | src/pages/Finance.tsx:46-67 | the bucket list has exactly as many entries as the current month has days |
| `Finance.AggregateDaily` | src/pages/Finance.tsx:46-67 | the array built and updated in place equals the buckets after visiting every fetched freight in order |
| `Finance.AddFreightAt` | src/pages/Finance.tsx:59-65 | one freight adds weight × 5 and one trip to its own day's bucket only, if it is in the current month |
| `Finance.BucketContents` | src/pages/Finance.tsx:49-67 | bucket i is day i+1 and holds the count and 5 × the weight of the current-month freights dated that day |
| `Finance.GuardNeverRejects` | src/pages/Finance.tsx:60-61 | a current-month freight with a real date always finds its bucket |
| `Finance.AddFreightTotals` | src/pages/Finance.tsx:56-67 | one visited freight adds 1 to the total count and its commission to the total value exactly when it is in the current month |
| `Finance.BucketTotals` | src/pages/Finance.tsx:56-67 | the bucket counts sum to the number of current-month freights and the values to 5 × their weight |
| `Finance.MaxDailyValue` | src/pages/Finance.tsx:70 | the maximum is at least 1 and at least every bucket's value, and is 1 or some bucket's value |
| `Finance.BestDay` | src/pages/Finance.tsx:71 | the best day's value is non-negative and maximal, and it is a bucket or the day-0 seed |
| `Finance.BestDayTieGoesLater` | src/pages/Finance.tsx:71 | with non-negative buckets the best day is a bucket with maximal value and every later bucket is strictly smaller |
| `Finance.QuietMonthBestDayIsLast` | src/pages/Finance.tsx:71 | with no activity the best day is the last day of the month |
| `Finance.LatestMovements` | src/pages/Finance.tsx:84 | the movements are the first min(5, n) fetched freights, in fetched order |
| `Finance.BucketsAscending` | src/pages/Finance.tsx:49-53 | the month's buckets are ordered by day ascending |
| `Finance.DailyList` | src/pages/Finance.tsx:140-142 | the daily list holds exactly the buckets with a positive value, each as often as in the buckets |
| `Finance.DailyListDescending` | src/pages/Finance.tsx:140-142 | over day-ascending buckets the daily list is ordered by day descending |
| `Finance.ComputeSummary` | src/pages/Finance.tsx:33-84 | revenue is 5 × the total weight, trucks the number of freights, and buckets, maximum, best day and movements are as above |
| `Finance.FinancePage.FetchFinanceData` | src/pages/Finance.tsx:23-91 | a fetch error or null data keeps the summary; otherwise every summary field is recomputed from the rows (receipts, pending and margin set to 0) and the movements replaced; loading ends either way |
| `Dashboard.PendingCount` | src/pages/Dashboard.tsx:49 | the pending count never exceeds the number of freights |
| `Dashboard.PendingPlusPaid` | src/pages/Dashboard.tsx:49-50 | pending (status not exactly PAGO, missing status included) plus paid equals the trip count |
| `Dashboard.TotalRevenueAppend` | src/pages/Dashboard.tsx:47 | the revenue sum (missing value as 0) is additive over concatenation |
| `Dashboard.UpdateStats` | src/pages/Dashboard.tsx:45-57 | the stats change only when the all-freights result is present; then trips, revenue and pending are computed and a missing driver count is 0 |
| `Dashboard.StatusBadge` | src/pages/Dashboard.tsx:128 | a missing status shows 'Registrado'; otherwise only the first '_' of the code becomes a space |
| `Dashboard.StatusBadgeInTransit` | src/pages/Dashboard.tsx:128 | EM_TRANSITO shows as 'EM TRANSITO' |
| `Dashboard.StatusBadgePaid` | src/pages/Dashboard.tsx:128 | a code without '_' (PAGO) shows unchanged |
| `Text.ReplaceFirst` | src/pages/Dashboard.tsx:128 | replacement keeps the length, changes only the first occurrence, and leaves a string without the character unchanged |
| `Drivers.TripsOf` | src/pages/Drivers.tsx:52 | trips is the first aggregate entry's count, or 0 when there is no entry |
| `Drivers.WithTrips` | src/pages/Drivers.tsx:50-53 | each fetched driver keeps its row and gets its trip count, in fetched order |
| `Drivers.FilteredDrivers` | src/pages/Drivers.tsx:91-94 | a driver is kept iff the lower-cased term occurs in the lower-cased name or plate, each as often as before; order is kept |
| `Drivers.EmptySearchKeepsAll` | src/pages/Drivers.tsx:91-94 | an empty search term keeps every driver |
| `Drivers.RemoveById` | src/pages/Drivers.tsx:74 | the list keeps exactly the drivers with another id, each as often as before, in order |
| `Drivers.StatusLabel` | src/pages/Drivers.tsx:198 | a missing or empty status shows 'Indefinido', any other its text |
| `Drivers.DriversPage.FetchDrivers` | src/pages/Drivers.tsx:39-61 | on error the list stays; otherwise it becomes the fetched drivers with trip counts (empty for null data) |
| `Drivers.DriversPage.ConfirmDelete` | src/pages/Drivers.tsx:63-65 | the delete modal opens holding the driver's id and name |
| `Drivers.DriversPage.HandleDelete` | src/pages/Drivers.tsx:67-85 | no pending id is a no-op; on success the driver leaves table and list; on failure both stay and the error modal opens with the linked-freights message; the delete modal resets either way |
| `Drivers.DriversPage.CloseDeleteModal` | src/pages/Drivers.tsx:116 | closing the confirmation hides it and keeps the pending driver; nothing else changes |
| `Drivers.DriversPage.ConfirmAndClose` | src/components/ConfirmationModal.tsx:92 | the confirm button deletes as `HandleDelete` and then closes; the outcomes are those of the delete, with the modal closed |
| `NewFreight.DefaultForm` | src/components/NewFreightModal.tsx:21-28 | the form starts with today, SOJA, no driver, no destination and zero weight and price |
| `NewFreight.ParseAmount` | src/components/NewFreightModal.tsx:252 | an unparsable number becomes 0, a parsed one is kept |
| `NewFreight.WithWeightInput` | src/components/NewFreightModal.tsx:252 | typing a weight sets only the weight, to the parsed amount |
| `NewFreight.WithPriceInput` | src/components/NewFreightModal.tsx:267 | typing a price sets only the unit price, to the parsed amount |
| `NewFreight.Calculate` | src/components/NewFreightModal.tsx:47-55 | sacks × 60 = weight and total × 60 = weight × unit price; both are non-negative for non-negative inputs |
| `NewFreight.NewFreightRow` | src/components/NewFreightModal.tsx:68-80 | the row copies date, product, destination, weight and price, takes sacks and total from the calculation, has weight_sack 60, status EM_TRANSITO, and a null driver for '' |
| `NewFreight.NewFreightModal.HandleSubmit` | src/components/NewFreightModal.tsx:59-110 | nothing is written without a user; a failed insert keeps the form; after a successful insert the chosen driver is set to 'Em Viagem' and the form resets |
| `NewDriver.NewDriverRow` | src/components/NewDriverModal.tsx:30-36 | the row has the plate upper-cased, name and phone as typed, and status 'Disponível' |
| `NewDriver.NewDriverModal.HandleSubmit` | src/components/NewDriverModal.tsx:23-48 | nothing is inserted without a user; the form resets only after a successful insert and is kept on error |

## Left out

- Backend reads (`select` with its `.order` and `.limit`) are not modelled. Fetched rows are method inputs. Server-side ordering and limits are not the client's contract.
- Network errors are the `bool` parameters of the `Database` methods. Timeouts, retries and concurrent writers do not exist in the code and are not modelled.
- No atomicity between a freight write and the driver write that follows it: the code has none, and the model records only their order, in `Database.log`.
- `fetchFreights` (src/pages/Freights.tsx:28-42) and the Dashboard's recent-freights list (src/pages/Dashboard.tsx:41-43) are not modelled. Both only replace a list with fetched rows.
- React rendering, effects, loading flags (except the finance page's), `console.error`, dropdown open/close state and click-outside handling are not modelled. `alert` is modelled as appending to an `alerts` sequence. `onSave`/`onClose` are modelled as a `saved` flag.
- The confirm button starts the delete without awaiting it and closes the modal at once. The model runs the delete to completion and then the close (`ConfirmAndClose`), which gives the same final modal state. The interleaving in between is not modelled.
- Freight status is modelled as one of the five codes, or missing. The column is free text, but the app writes only those codes. An empty or unknown status text is not modelled: the "missing status" fallbacks on the freights page and the dashboard badge are modelled for a null status only.
- Filter dialog: the date-picker setters, `handleApply`, the driver-name lookup for the button label and the status chip text are not modelled. They are one-field rebuilds or display text. The dialog is not wired to the freights page, so the freight table filters by search term only.
- Dates: the finance page receives each freight's date already read back from a `Date` object (`None` for an invalid date). Parsing the date string with `Date` is not modelled.
- Finance.DailyList: the comparator sort is modelled as reversing the filtered buckets. `DailyListDescending` and `BucketsAscending` prove this is the day-descending order for the bucket lists the page builds.
- The daily average (src/pages/Finance.tsx:185) divides by a clock read and is display only.
- Locale formatting (`toLocaleString` currencies and numbers) and number-to-text conversion are not modelled. `Dashboard.Stats` keeps the counters as numbers.
- Case mapping is ASCII-only. Full Unicode `toLowerCase`/`toUpperCase` is not modelled.
- Arithmetic is over reals. IEEE double rounding and `NaN` are not modelled, except that a `NaN` parse is the `None` of `ParseAmount`.
- `NewFreight.NewFreightModal.HandleSubmit` uses `Calculate(form)` for the calculations state. The page's effect recomputes that state on every weight or price change.
- The driver-edit flow, the driver details dialog with its rating write, the status select, the date picker, the login page, routing and layout are not part of this model.
