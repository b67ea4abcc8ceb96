# Personal wealth tracker: asset ledger and derived views, in Dafny

This project models the core of a personal wealth-tracking web application. The application keeps
one in-memory collection of assets: stocks, crypto holdings, real estate, cash, bonds, commodities,
bank, savings, investment and crypto accounts, and "other". Its pages derive totals, allocations
and lists from that collection.

The model covers:

- **The ledger** (`Ledger`). Adding an asset is `addAsset`. A stock purchase that carries a ticker
  and an investment account, and that matches a stock already held with the same ticker in the
  same account, is *stacked* onto that holding:
  - quantities add up;
  - the value grows by quantity × price;
  - the purchase price becomes the weighted average;
  - one transaction is appended.
  Anything else gets a fresh id and a creation time, and is appended. A new stock is seeded with
  its first transaction. Updating is `updateAsset`, either as a partial patch by id or as a whole
  replacement. Deleting is `deleteAsset`. Total wealth is the sum of all values.
- **The data types** (`Assets`). These are the asset kinds, the asset and transaction records, and
  the declared allocation record.
- **Shared derived views** (`Portfolio`). These are per-kind selections, sums over sets of kinds,
  mean performance, and the count/total/mean summary shown above the real-estate and crypto lists.
- **The dashboard** (`Dashboard`, `AllocationView`):
  - the assets/liabilities category filter;
  - the seven-bucket allocation (bank and savings accounts folded into cash);
  - the three most valuable assets;
  - the allocation card's chart entries, labels, legend and percentages, and its title.
- **The projects page** (`Projects`):
  - the savings-account total;
  - the security-cushion target and the stored risk profile;
  - saving, deleting and re-planning projects;
  - the total monthly allocation and the in-progress/completed counts.
- **The grouped assets list** (`GroupedList`):
  - section filtering and rank ordering;
  - section totals;
  - expand/collapse state;
  - section names and navigation targets;
  - delete confirmation.
- **The stock form** (`StockForm`):
  - the "already held" warning and the owned quantity it shows;
  - trimming;
  - creating an investment account and selecting it afterwards.
- **The crypto details dialog** (`CryptoDetails`): the current price, the performance, the holding
  account's name, and delete confirmation.
- **The transactions list** (`TransactionsList`): newest-first ordering, buy/sell labels and the
  performance line.
- **The real-estate and crypto pages** (`RealEstatePage`, `CryptoPage`): their summaries and their
  add handlers, which force the asset kind.
- **The budget key metrics** (`KeyMetrics`): the investment capacity.
- **Worked histories** (`Scenarios`): a first purchase, a stacked second purchase, the same ticker
  in another account, and deleting an account that a stock still refers to.

Generic pieces are `Wrappers` (`Option`), `Seqs` (filter, sum and in-place replacement by key, with their algebra) and
`StableSort`. `StableSort` is a stable insertion sort over position-tagged elements. It stands for
`Array.prototype.sort`, which ECMAScript 2019 requires to be stable.

Modelling conventions:

- Amounts are `real`, dates are integer timestamps, and strings are `seq<char>`.
- Optional fields are `Option`. JavaScript's `x || 0` on an optional number is `Assets.Num`.
- A string's truthiness (present and non-empty) is `Assets.Truthy`.
- Identifiers and clock readings, which the application takes from `Date.now()` and
  `Math.random()`, are parameters. A fresh identifier is one no asset carries.

Two behaviours of the program are easy to overlook:

- Stacking compares tickers exactly. Only the stock form's warning compares names, and it ignores
  case. So the two can disagree (`StockForm.WarnsWithoutStacking`,
  `StockForm.StacksWithoutWarning`).
- Purchase transactions recorded by the ledger carry no buy/sell kind. The transactions list labels
  every transaction without the `buy` kind `Vente`, so it would show such a purchase as a sale
  (`TransactionsList.LedgerPurchaseLabelledSale`). The list is rendered only by the crypto details
  dialog, and the ledger records transactions only for stocks.

## Model

| member | source | states |
|---|---|---|
| Assets.AssetTypesAreEleven | src/types/assets.ts:2-13 | there are exactly eleven asset kinds, and their stored names are pairwise distinct |
| Ledger.FindHolding | src/pages/Index.tsx:55-59 | `findIndex`: the first position (from `from` on) holding a stock with the purchase's ticker and account, or none exactly when no such position exists |
| Ledger.HoldingIndex | src/pages/Index.tsx:55-61 | when a holding matches, the index is a matching position and no earlier position matches |
| Ledger.Stack | src/pages/Index.tsx:63-87 | stacking adds the quantities and the cost to the value, so the new purchase price times the new quantity is the new value; it appends exactly one transaction and leaves every other field alone |
| Seqs.ReplaceKeyed | src/pages/Index.tsx:90-94 | the `map` keeps the length and the position of every element. When the new value carries the id itself, every key stays where it was. The new value appears as soon as some element carried the id, and no other element is new or still carries the id |
| Seqs.ReplaceKeyedLaws | src/pages/ProjectsPage.tsx:113-115 | replacing under an id nothing carries changes nothing, and replacing twice is the same as replacing once |
| Ledger.AddAsset | src/pages/Index.tsx:51-133 | the collection keeps its length exactly when the purchase stacks. A stack returns exactly `Stack` of the first matching holding and rewrites that holding's rows with it, keeping its id. Otherwise the candidate is appended with the fresh id and the creation time, and a stock is seeded with one purchase transaction |
| Ledger.AddPreservesUniqueIds | src/pages/Index.tsx:51-133 | adding keeps asset ids unique |
| Ledger.StackRewritesOneRow | src/pages/Index.tsx:89-94 | with unique ids, a stack replaces exactly the holding's row |
| Ledger.AddAssetTotalWealth | src/pages/Index.tsx:49-133 | total wealth grows by quantity × price on a stack and by the candidate's value on an insert |
| Ledger.AddedToKindView | src/pages/Index.tsx:105-125 | a non-stock add extends the view of its kind by exactly the new row, which has the fresh id and the candidate's value |
| Ledger.RestackFindsSameHolding | src/pages/Index.tsx:53-94 | after a stack, a later purchase of the same ticker in the same account finds the same holding at the same position |
| Ledger.StackAll | src/pages/Index.tsx:61-87 | after a run of non-negative purchases, the first of which leaves the holding positive, the quantity adds the purchases' quantities and the value their costs. Price × quantity is the value. The old transactions stay in front, followed by one per purchase with its own id and time. No other field changes |
| Ledger.AddEach | src/pages/Index.tsx:51-101 | calling `addAsset` once per purchase of such a run on one held stock replaces the holding's row by `StackAll` of the run and leaves every other row as it was |
| Ledger.PurchaseTx | src/pages/Index.tsx:67-73 | the recorded total is quantity × price, an absent quantity or price counting as 0; the transaction has the given id and time and no buy/sell kind |
| Ledger.Seeded | src/pages/Index.tsx:105-123 | the new row is the candidate with the fresh id and the creation time; a stock gets exactly one purchase transaction, anything else keeps its own transactions |
| Ledger.ApplyPatch | src/pages/Index.tsx:139 | the empty patch is the identity; for every field, a value present in the patch wins and an absent one keeps the asset's |
| Ledger.ApplyPatchLaws | src/pages/Index.tsx:136-141 | object spread with an empty patch is the identity, and applying the same patch twice equals applying it once |
| Ledger.PatchAsset | src/pages/Index.tsx:136-141 | every row with the id is merged with the patch and the others are unchanged; an unknown id changes nothing |
| Ledger.ReplaceAsset | src/pages/Index.tsx:148-154 | rows with other ids are unchanged; the new asset appears exactly when its id was present; an unknown id changes nothing |
| Ledger.UpdateAsset | src/pages/Index.tsx:135-161 | a by-id call without a patch, or with an unknown id, changes nothing; otherwise it dispatches to patching or whole replacement |
| Ledger.PatchPreservesUniqueIds | src/pages/Index.tsx:136-141 | a patch that does not set `id` keeps ids unique |
| Ledger.ReplacePreservesUniqueIds | src/pages/Index.tsx:148-154 | whole replacement keeps ids unique |
| Ledger.UpdatePreservesUniqueIds | src/pages/Index.tsx:135-161 | every update whose patch, if any, does not set `id` keeps ids unique |
| Ledger.DeleteAsset | src/pages/Index.tsx:163-164 | no remaining row has the id, every row with another id remains, and nothing new appears |
| Ledger.DeletePreservesUniqueIds | src/pages/Index.tsx:163-164 | deleting keeps ids unique |
| Ledger.DeleteKeepsCounts | src/pages/Index.tsx:163-164 | every row with another id remains exactly as often as it occurred, and no row occurs more often than before |
| Ledger.DeleteUnknownIsNoOp | src/pages/Index.tsx:163-164 | deleting an id no asset carries leaves the collection as it was |
| Ledger.DeleteRemovesOneRow | src/pages/Index.tsx:163-164 | with unique ids, deleting a row's id removes exactly that row and keeps the order |
| Ledger.DeleteTotalWealth | src/pages/Index.tsx:49-170 | total wealth drops by exactly the value of the rows carrying the id |
| Portfolio.OfType | src/pages/Dashboard.tsx:68-78 | the per-kind selection holds exactly the collection's assets of that kind |
| Portfolio.TotalValueBounds | src/pages/Index.tsx:49 | total wealth of no assets is 0; with no negative value it is non-negative and at least each asset's value |
| Portfolio.TotalValueAppend | src/pages/Index.tsx:49 | the total of two runs of assets is the sum of their totals |
| Portfolio.SumOfTypesUnion | src/pages/Dashboard.tsx:71-75 | the sums over two disjoint sets of kinds add up to the sum over their union |
| Portfolio.SumOfAllTypes | src/pages/Index.tsx:49 | summing over every kind gives total wealth |
| Portfolio.TotalOfTypeIsSumOfTypes | src/pages/Dashboard.tsx:68-78 | the total of one kind is the sum over the singleton set of that kind |
| Portfolio.AveragePerformance | src/pages/RealEstatePage.tsx:23-25 | 0 for no assets; otherwise the mean times the count is the summed performance |
| Portfolio.Summarize | src/pages/CryptoPage.tsx:23-28 | the count is the list length and the total is the summed value; an empty list shows zero total and zero mean, and otherwise the mean times the count is the summed performance |
| RealEstatePage.Properties | src/pages/Index.tsx:196-198 | the page lists exactly the collection's real-estate assets |
| RealEstatePage.HandleAddProperty | src/pages/RealEstatePage.tsx:39-48 | the asset sent on is real estate and otherwise identical to the form's |
| RealEstatePage.AddedPropertyShown | src/pages/RealEstatePage.tsx:22-48 | adding a property through the page and the ledger appends it to the list, so the count rises by one and the total by its value |
| CryptoPage.Holdings | src/pages/Index.tsx:210-212 | the page lists exactly the collection's crypto assets |
| CryptoPage.HandleAddAsset | src/pages/CryptoPage.tsx:30-46 | the asset sent on is a crypto holding and otherwise identical to the form's |
| CryptoPage.AddedHoldingShown | src/pages/CryptoPage.tsx:23-46 | adding a holding through the page and the ledger raises the count by one and the total by its value, and lists the new row, with its fresh id, last |
| CryptoPage.UniformPerformanceIsMean | src/pages/CryptoPage.tsx:26-28 | when every holding has the same performance, the mean shown is that performance |
| KeyMetrics.InvestmentCapacity | src/components/budget/KeyMetrics.tsx:20 | the capacity is non-negative, at least savings minus contributions, and equal to one of the two |
| KeyMetrics.CapacityCases | src/components/budget/KeyMetrics.tsx:20 | it is the remainder when savings cover the contributions, 0 otherwise, and positive exactly when savings exceed them |
| KeyMetrics.CapacityMonotone | src/components/budget/KeyMetrics.tsx:20 | it never falls when savings rise and never rises when contributions rise |
| Dashboard.Keeps | src/pages/Dashboard.tsx:40-61 | the liabilities filter keeps exactly the residences and the bank and savings accounts; the assets filter keeps exactly the rest; the other filters keep everything |
| Seqs.FilterCounts | src/pages/Index.tsx:164 | `filter` keeps every element that passes exactly as often as it occurs, and nothing occurs more often than before |
| Dashboard.FilterAssets | src/pages/Dashboard.tsx:40-61 | the filtered list holds exactly the assets the category keeps |
| Dashboard.FilterAllIsIdentity | src/pages/Dashboard.tsx:40-41 | the `all` category shows the whole collection in order |
| Dashboard.AssetsPlusLiabilitiesIsTotal | src/pages/Dashboard.tsx:40-64 | the assets total and the liabilities total add up to total wealth |
| Dashboard.CashBucketSplit | src/pages/Dashboard.tsx:71-75 | the cash bucket is the cash, bank-account and savings-account totals together |
| Dashboard.BucketSumIsBucketedKinds | src/pages/Dashboard.tsx:67-79 | the seven buckets add up to the value of the bucketed kinds |
| Dashboard.CurrentAllocation | src/pages/Dashboard.tsx:64-79 | each single-kind bucket (stocks, real estate, crypto, bonds, commodities, other) is the sum over its kind; the cash bucket is the cash, bank and savings totals together; the buckets account for the whole filtered total except investment and crypto accounts |
| Dashboard.SortedByNegatedValue | src/pages/Dashboard.tsx:114 | sorting by the negated value orders by value, largest first, and ties by original position |
| Dashboard.TopRanked | src/pages/Dashboard.tsx:114 | it holds min(3, n) position-tagged assets drawn from the filtered list, in value order with ties by strictly increasing position, so no position repeats; every position left out is outranked by each kept entry (larger value, or equal value and earlier position), so a tie at the cut keeps the earliest assets |
| Dashboard.TopAssets | src/pages/Dashboard.tsx:114 | at most three assets, as many as available, in non-increasing value, each from the filtered list and none more often than it occurs there; they are the assets of the ranked entries, in order |
| Dashboard.TopAssetsAreLargest | src/pages/Dashboard.tsx:114 | every filtered asset is either among the top assets or worth no more than each of them; an asset whose position is not ranked is worth less than each shown asset, or as much as one from an earlier position |
| AllocationView.ChartEntries | src/components/dashboard/AssetAllocation.tsx:20-29 | the chart keeps exactly the entries other than `commodities` and `other` |
| AllocationView.DashboardChart | src/components/dashboard/AssetAllocation.tsx:20-29 | for the dashboard's allocation, the chart shows its first five buckets in order |
| AllocationView.ChartLabel | src/components/dashboard/AssetAllocation.tsx:32-42 | a key without a label shows as itself; a known key shows as a different text |
| AllocationView.LegendLabel | src/components/dashboard/AssetAllocation.tsx:83-92 | a key without a label shows as itself; a known key shows as a different text |
| AllocationView.LabelsAgreeExceptAbbreviated | src/components/dashboard/AssetAllocation.tsx:32-92 | chart and legend labels differ exactly for crypto, bank and savings accounts, and distinct known keys get distinct labels in each |
| AllocationView.CashBucketUnlabelled | src/components/dashboard/AssetAllocation.tsx:33-41 | the dashboard's `cash` bucket has no label in either table and shows as `cash` |
| AllocationView.Percent | src/components/dashboard/AssetAllocation.tsx:81 | 0 when the total is not positive; otherwise the percentage times the total is 100 times the value |
| AllocationView.PercentBounds | src/components/dashboard/AssetAllocation.tsx:81 | a value between 0 and a positive total has a share between 0 and 100 % |
| AllocationView.LegendOf | src/components/dashboard/AssetAllocation.tsx:75-100 | the legend has no more items than the chart has entries, and every entry with a non-zero value has its item in it |
| AllocationView.LegendItems | src/components/dashboard/AssetAllocation.tsx:75-100 | every legend item comes from a non-zero entry, and every non-zero entry has its item |
| AllocationView.Legend | src/components/dashboard/AssetAllocation.tsx:75-100 | every legend item is the item of a charted non-zero entry, and every charted non-zero entry has its item |
| AllocationView.Shown | src/components/dashboard/AssetAllocation.tsx:76-99 | an entry contributes nothing exactly when its value is 0, and otherwise contributes its legend label and percentage |
| AllocationView.DashboardLegend | src/components/dashboard/AssetAllocation.tsx:20-100 | the dashboard's legend is the non-zero stocks, real-estate, crypto, cash and bonds items, in that order |
| AllocationView.Title | src/components/dashboard/AssetAllocation.tsx:54-60 | the title names savings exactly for the savings category, investments exactly for the investments category, and is the generic title otherwise |
| Projects.SavingsTotal | src/pages/ProjectsPage.tsx:40-44 | without savings accounts the total is 0, and when every asset is a savings account it is total wealth |
| Projects.SavingsTotalAppend | src/pages/ProjectsPage.tsx:40-44 | a new savings account adds its value to the savings total, and any other asset leaves it unchanged |
| Projects.RecommendedMonths | src/pages/ProjectsPage.tsx:50-52 | 3, 6 or 9 months, for exactly the high, medium and low profiles respectively |
| Projects.CushionTarget | src/pages/ProjectsPage.tsx:49-53 | the target is 3, 6 or 9 times the monthly expenses for a high, medium or low risk profile, hence between 3 and 9 months of non-negative expenses |
| Projects.CushionGrowsWithCaution | src/pages/ProjectsPage.tsx:50-53 | a more cautious profile never asks for a smaller cushion |
| Projects.ParseRiskProfile | src/pages/ProjectsPage.tsx:73-76 | each of the three stored names selects its profile; no stored value keeps the current one |
| Projects.RiskProfileRoundTrip | src/pages/ProjectsPage.tsx:177-180 | a profile saved by the cushion form is read back unchanged |
| Projects.UnknownRiskProfileIgnored | src/pages/ProjectsPage.tsx:73-76 | a stored value that is none of the three names is ignored |
| Projects.SaveProject | src/pages/ProjectsPage.tsx:110-134 | a draft with a non-empty id replaces the projects with that id in place; any other draft is appended under the fresh id |
| Projects.SaveUnknownIdIsNoOp | src/pages/ProjectsPage.tsx:111-115 | saving a draft whose id no project has neither adds nor changes anything |
| Projects.SavePreservesUniqueIds | src/pages/ProjectsPage.tsx:110-126 | with a fresh id for new projects, saving keeps project ids unique |
| Projects.DeleteProject | src/pages/ProjectsPage.tsx:136-149 | the dialog always closes. With a pending id, exactly the projects with another id remain, the pending id is cleared, and the selection is dropped exactly when it was the deleted project. Without a pending id only the dialog changes |
| Projects.DeleteUnknownProjectKeepsList | src/pages/ProjectsPage.tsx:136-138 | deleting an id no project has keeps the list in order |
| Projects.SelectPlan | src/pages/ProjectsPage.tsx:156-175 | without a selection nothing changes; otherwise the selected project and its stored copies take the plan's contribution and every other project is unchanged |
| Projects.SelectPlanTotal | src/pages/ProjectsPage.tsx:156-188 | choosing a plan changes the total monthly allocation by the difference between the new and old contributions |
| Projects.TotalAllocation | src/pages/ProjectsPage.tsx:188 | 0 for no projects; with no negative contribution it is non-negative and at least each contribution |
| Projects.TotalAllocationAppend | src/pages/ProjectsPage.tsx:188 | each further project adds its monthly contribution, so with the empty case the total is the sum of the contributions |
| Projects.ProgressCounts | src/pages/ProjectsPage.tsx:189-190 | the in-progress and completed counts add up to the number of projects |
| Projects.ProgressCountsAppend | src/pages/ProjectsPage.tsx:189-190 | a new project raises exactly the count its amounts put it in |
| GroupedList.FilteredTypes | src/components/assets/GroupedAssetsList.tsx:90-96 | when hiding accounts, exactly the kinds other than investment and crypto accounts remain |
| GroupedList.FilteredTypesKeepsAll | src/components/assets/GroupedAssetsList.tsx:91-96 | without the flag, every kind is kept in order |
| GroupedList.Rank | src/components/assets/GroupedAssetsList.tsx:99-110 | ranks run from 1 to 10, and 10 is the fallback exactly for the two account kinds |
| GroupedList.RanksDistinguishKinds | src/components/assets/GroupedAssetsList.tsx:99-110 | two different kinds share a rank only if both are account kinds |
| GroupedList.OrderedTypes | src/components/assets/GroupedAssetsList.tsx:98-111 | the sections are a permutation of the filtered kinds in non-decreasing rank |
| GroupedList.OrderedTypesKeepsTies | src/components/assets/GroupedAssetsList.tsx:98-111 | kinds of equal rank keep the relative order they had among the filtered kinds |
| GroupedList.Lookup | src/components/assets/GroupedAssetsList.tsx:130 | nothing exactly when the kind is not a key; otherwise that kind's group |
| GroupedList.SectionTotal | src/components/assets/GroupedAssetsList.tsx:129-133 | a section appears exactly when its kind has assets, and its total is their summed value |
| GroupedList.SectionTotalNonNegative | src/components/assets/GroupedAssetsList.tsx:133 | a section of non-negative values has a non-negative total |
| GroupedList.InitiallyExpanded | src/components/assets/GroupedAssetsList.tsx:26-32 | exactly the bank, savings, real-estate, stock and crypto sections start expanded |
| GroupedList.ToggleSection | src/components/assets/GroupedAssetsList.tsx:51-56 | toggling flips that section (a missing key becomes expanded) and leaves every other section alone |
| GroupedList.ToggleTwice | src/components/assets/GroupedAssetsList.tsx:51-56 | toggling twice restores the section and touches no other |
| GroupedList.SectionName | src/components/assets/GroupedAssetsList.tsx:65-77 | the catch-all heading is used exactly for other, investment-account and crypto-account sections |
| GroupedList.NavigationTarget | src/components/assets/GroupedAssetsList.tsx:79-88 | the generic `assets` page is the target exactly for kinds without a page of their own |
| GroupedList.ConfirmDelete | src/components/assets/GroupedAssetsList.tsx:40-45 | the id is passed on and the pending asset cleared exactly when an asset is pending and a handler exists; otherwise the pending asset stays |
| GroupedList.ConfirmedDeleteRemoves | src/components/assets/GroupedAssetsList.tsx:40-45 | a confirmed delete, carried out by the ledger, leaves no asset with that id |
| StockForm.Lower | src/components/assets/form/StockFormFields.tsx:89 | same length, each character lowered, and no upper-case letter remains |
| StockForm.LowerIdempotent | src/components/assets/form/StockFormFields.tsx:89 | lowering twice is lowering once |
| StockForm.MatchingStocks | src/components/assets/form/StockFormFields.tsx:86-104 | nothing without a ticker, an account or existing stocks; otherwise exactly the stocks in that account whose name equals the ticker ignoring case |
| StockForm.OwnedQuantity | src/components/assets/form/StockFormFields.tsx:188 | 0 when nothing matches; with no negative quantity it is non-negative and at least each match's quantity, absent read as 0 |
| StockForm.OwnedQuantityAppend | src/components/assets/form/StockFormFields.tsx:188 | each further match adds its quantity, absent read as 0, to the owned total |
| StockForm.WarnsWithoutStacking | src/components/assets/form/StockFormFields.tsx:88-91 | a held `AAPL` stock and a purchase typed `aapl`: the form warns about the holding, and the ledger will not stack onto it |
| StockForm.StacksWithoutWarning | src/components/assets/form/StockFormFields.tsx:88-98 | the ledger can stack onto a holding that the form did not warn about |
| StockForm.Trim | src/components/assets/form/StockFormFields.tsx:46-48 | the result is a contiguous slice of the input starting after its leading white space, everything after it in the input is white space, it has no white space at either end, and it is empty exactly when the input is all white space |
| StockForm.TrimIdempotent | src/components/assets/form/StockFormFields.tsx:46-48 | trimming twice is trimming once |
| StockForm.NewAccount | src/components/assets/form/StockFormFields.tsx:47-53 | the new account is an investment account with the trimmed name, the chosen type, value 0 and performance 0 |
| StockForm.HandleAddAccount | src/components/assets/form/StockFormFields.tsx:45-70 | an account is sent exactly when a handler exists and the trimmed name is non-empty, and the name field is then cleared. If an id comes back it is selected and the dialog closes; otherwise the selection waits. Without sending, nothing changes |
| StockForm.PendingSelection | src/components/assets/form/StockFormFields.tsx:73-83 | while waiting and once accounts exist, the last account is selected and the dialog closes; otherwise nothing changes |
| StockForm.AddedAccountIsSelected | src/components/assets/form/StockFormFields.tsx:45-83 | an account created by the form is appended by the ledger under the fresh id, and the waiting picker then selects exactly that id |
| CryptoDetails.CurrentPrice | src/components/assets/CryptoDetailsDialog.tsx:44-46 | with a positive quantity, price times quantity is the value; otherwise it is the purchase price, absent read as 0 |
| CryptoDetails.Performance | src/components/assets/CryptoDetailsDialog.tsx:49-53 | a stored non-zero performance wins. Otherwise, with a non-zero purchase price and current price, it is the percentage change. Otherwise it is 0 |
| CryptoDetails.AtCostShowsNoGain | src/components/assets/CryptoDetailsDialog.tsx:43-53 | a holding worth exactly its cost shows its purchase price and 0 % |
| CryptoDetails.RiseShowsGain | src/components/assets/CryptoDetailsDialog.tsx:49-53 | without a stored performance, a price above a positive purchase price shows a gain |
| CryptoDetails.FindAccount | src/components/assets/CryptoDetailsDialog.tsx:60-63 | `find`: the first crypto or investment account with the id, or none exactly when there is none |
| CryptoDetails.AccountName | src/components/assets/CryptoDetailsDialog.tsx:56-66 | a personal wallet without an account id; the first holding account's name when one exists; otherwise `Compte <id>` |
| CryptoDetails.DeletedAccountFallsBack | src/components/assets/CryptoDetailsDialog.tsx:56-66 | after the ledger deletes the account, the dialog shows `Compte <id>` |
| CryptoDetails.ConfirmDelete | src/components/assets/CryptoDetailsDialog.tsx:72-78 | the id is passed on, and the dialogs close, exactly when a handler exists |
| TransactionsList.SortNewestFirst | src/components/assets/CryptoTransactionsList.tsx:15-17 | the same transactions (a permutation) with dates non-increasing |
| TransactionsList.SortNewestFirstKeepsTies | src/components/assets/CryptoTransactionsList.tsx:15-17 | each shown transaction is the input transaction at its sort position, and transactions with equal dates keep their input order |
| TransactionsList.LatestShownFirst | src/components/assets/CryptoTransactionsList.tsx:15-17 | a transaction dated after all others is listed first |
| TransactionsList.Label | src/components/assets/CryptoTransactionsList.tsx:31-39 | `Achat` exactly for a purchase, `Vente` exactly otherwise |
| TransactionsList.LedgerPurchaseLabelledSale | src/components/assets/CryptoTransactionsList.tsx:39 | were a purchase transaction recorded by the ledger shown in the list, it would be labelled `Vente` |
| TransactionsList.PerformanceLine | src/components/assets/CryptoTransactionsList.tsx:53-63 | the line appears exactly when a performance is recorded, and shows it with the up-trend exactly when it is non-negative |
| Scenarios.FirstPurchaseOpensHolding | src/pages/Index.tsx:105-125 | 10 AAPL at 100 into an empty ledger give one holding: quantity 10, value 1000, price 100, one transaction |
| Scenarios.SecondPurchaseStacks | src/pages/Index.tsx:61-101 | 5 more at 130 in the same account keep the id: quantity 15, value 1650, price 110, two transactions |
| Scenarios.OtherAccountDoesNotStack | src/pages/Index.tsx:53-59 | 2 AAPL at 90 in another account open a second holding worth 180, and the first is untouched |
| Scenarios.DeletingAccountOrphansStock | src/pages/Index.tsx:163-164 | deleting an investment account keeps the stock that refers to it, and no asset then carries that id |

## Left out

- Persistence to local storage, the `storage` event, toasts, dialogs' open state beyond what the
  handlers set, and all rendering. React state updates are modelled as functions from the old
  collection to the new. The stacking branch reads `assets` from the enclosing render while
  writing through the updater form; the model treats both as the same collection.
- Clocks and random identifiers: `Date.now()`, `new Date().toISOString()` and `Math.random()`
  become parameters (`freshId`, `txId`, `now`). ISO date strings are integer timestamps, and
  the transactions list's date parsing is the identity on them.
- The dashboard's simulated net-worth history and its period growth. They are presentation built
  from fixed growth factors.
- Number formatting (`toFixed`, currency formatting) and IEEE arithmetic. Amounts are exact reals,
  so there is no rounding and no NaN. The stack's division by a zero total quantity is excluded
  by `Ledger.StackDefined`, where JavaScript would store `Infinity` or `NaN`.
- Portfolio.AveragePerformance: an asset without `performance` counts as 0. In the source the sum
  becomes NaN.
- Ledger.PatchAsset: a patch field is either absent or set. An explicit `undefined` in a partial
  object, which overwrites a field, is not expressible.
- Ledger.StackDefined: adding is only defined when stacking does not bring the quantity to zero.
- Ledger.StackAll and Ledger.AddEach: runs with a negative quantity, or whose first purchase does
  not leave the holding with a positive quantity, are not covered. `addAsset` itself needs only
  each stacked quantity to be non-zero.
- TransactionsList.LedgerPurchaseLabelledSale: the transactions list is rendered only by the crypto
  details dialog, and the ledger records transactions only for stocks. No path in the modelled
  code shows a ledger-recorded transaction in the list, so the lemma is about the labelling alone.
- StockForm.Lower and StockForm.Trim: ASCII letters only for case. The white space recognised is
  space, tab, line feed and carriage return, not the full Unicode set that `trim` removes.
- CryptoDetails.AccountName: the dialog reads assets through a hook that may yield none. An absent
  collection is modelled as an empty one.
- Asset fields that no modelled operation reads (icon, currency, location, surface, taxes, rents
  and the like) are not in the `Asset` datatype.
- A project keeps only the fields the page reads. The goals types file is not part of this model.
- The projects page's count of savings accounts (`assets.filter(...).length`) and the real-estate
  page's mock chart data are not modelled.
- The asset form, the net-worth chart, the form header and the other pages (bank accounts,
  savings, stocks, budget) are not part of this model.
