# Livestock projection engine: a Dafny model

This project models the computing core of a Django application used on cattle farms. A property (`Propriedade`) owns lots (`Lote`), and each lot has a head count, an entry weight in kg and in arrobas (15 kg of carcass), and a purchase value. Four monthly series hang off a lot: the daily weight gain (`ProjecaoGanho`, GMD), the daily feed cost per head (`GastoNutricional`), the mortality percentage (`Mortalidade`) and the carcass yield saved on the property. A property also keeps fixed costs (`CustoFixo`) and revenues (`Receita`), each by category and month.

Several pages compute from these records:

- **Weight dashboard** (`lotes_dashboard_view`): each lot's month-by-month projected weight. Each month adds the daily gain times the days of that month.
- **Feed listing** (`nutricional_view`, `nutricional_dashboard_view`): each record accrued over its month and over the lot, plus the monthly totals across lots.
- **Billing** (`faturamento_view`): the weight projection with a choice of daily gain, the final weight, the carcass arrobas at a yield, and the revenue at an arroba price.
- **Cash flow** (`fluxo_caixa_view`): investment, feed, revenue, fixed and variable costs per month, then the free and cumulative cash flow and an annual summary.
- **Break-even** (`ponto_equilibrio_view`): per lot and month (January to November), the weights, the accrued investment, the arrobas after mortality and the break-even price per arroba.
- **Form saves:** the POST handlers that store feed costs, fixed costs, revenues and mortality cell by cell with `update_or_create`.

The model keeps each source file's form:

- The views are imperative. Each of their loops is a Dafny `method` with a `while` loop and invariants. It is proved against a recursive specification function, and the properties are lemmas about that function.
- The database table a save writes is a `class Table` whose `rows` map the form methods update.
- `models.py` and the template filters are pure, so they become datatypes, functions and lemmas.

Modules:

| file | module | what it holds |
|---|---|---|
| wrappers.dfy | Wrappers | `Option`, `Result` |
| calendar.dfy | Calendar | `monthrange` and leap years |
| periods.dfy | Periods | (year, month) periods, their order and sorting |
| models.dfy | Models | users, properties, lots and their series, `calcular_gasto_mensal`, category lists |
| dict_filters.dfy | DictFilters | the `get_item` and `formatar_br` template filters |
| weight_projection.dfy | WeightProjection | weight projections of the dashboard and of billing |
| feed.dfy | FeedAccrual | feed listing and monthly feed totals |
| billing.dfy | Billing | final weight, carcass yield, revenue |
| breakeven.dfy | BreakEven | break-even sheet |
| cashflow.dfy | CashFlow | cash-flow sheet and summary |
| upserts.dfy | Upserts | the form saves |

Inputs the views read from the request, the clock or the database are parameters:

- The year shown.
- The lots, in the order `order_by('nome')` returns them, each with its series as maps keyed by period.
- The property's saved yield.
- The fixed-cost and revenue tables as maps keyed by (category, period).
- Posted form fields, already stripped, as the `Field` values `Missing`, `Blank`, `Unparsable` or `Number`.

Decimal arithmetic is exact `real` arithmetic.

## Model

| member | source | states |
|---|---|---|
| Calendar.DaysInMonth | apps/usuarios/views.py:248 | a month has 28 to 31 days; 28 exactly for February of a common year; 29 exactly for February of a leap year; 30 exactly for April, June, September and November |
| Calendar.MonthRange | apps/usuarios/views.py:1356 | an error exactly when the month lies outside 1..12; otherwise the month's length |
| Calendar.YearLength | apps/usuarios/views.py:248 | the twelve month lengths add up to 366 in a leap year and 365 otherwise |
| Periods.MonthTotalBounds | apps/usuarios/views.py:251 | a non-negative daily rate accrued over a month lies between 28 and 31 days' worth; the total is zero exactly when the rate is |
| Periods.BeforeIsTotal | apps/usuarios/views.py:285 | the (year, month) order used for sorting is total and asymmetric |
| Periods.Earliest | apps/usuarios/views.py:285 | the result is in the set and precedes every other period of it |
| Periods.AscendingPeriods | apps/usuarios/views.py:243-246 | the sorted months are strictly ascending, list exactly the set, and number as many as the set |
| Periods.LastIsLatest | apps/usuarios/views.py:953-955 | the last key after sorting is later than every other key |
| Periods.AscendingUnique | apps/usuarios/views.py:243-246 | two ascending sequences with the same elements are equal, so sorting has one answer |
| Models.FullName | apps/usuarios/models.py:82-83 | the name when given, the email otherwise |
| Models.LocalPart | apps/usuarios/models.py:86 | a prefix of the email without '@', followed in the email by '@' when shorter |
| Models.ShortName | apps/usuarios/models.py:85-86 | the name when given; otherwise the email up to its first '@', or the whole email when it has none |
| Models.CreateUser | apps/usuarios/models.py:11-13 | fails with "email required" exactly when the email is empty; otherwise a user with that email and those flags |
| Models.CreateSuperuser | apps/usuarios/models.py:43-52 | succeeds exactly when the email is non-empty and both flags are absent or the object True; a staff flag that is not True is reported first; with both flags good, an empty email fails with "email required"; a success is staff and superuser |
| Models.InformationFilled | apps/usuarios/models.py:285-287 | true exactly when owner and municipality are both non-empty |
| Models.MortalityOrDefault | apps/usuarios/views.py:1390-1393 | the month's recorded percentage, or 0 when there is none; within [0, 100] for valid records |
| Models.CalcularGastoMensal | apps/usuarios/models.py:489-493 | the daily cost times the days of the record's month, between 28 and 31 days' worth for a non-negative cost |
| Models.SeriesOf | apps/usuarios/models.py:425 | every row's key is in the series, and every key of the series comes from a row |
| Models.SeriesOfUnique | apps/usuarios/models.py:425 | under `unique_together` every row is found under its key with its value, and the series has as many entries as rows |
| DictFilters.GetItem | apps/usuarios/templatetags/dict_filters.py:6-10 | None for a missing dictionary; otherwise a value exactly when the key is present, and then the stored one |
| DictFilters.Replace | apps/usuarios/templatetags/dict_filters.py:25 | same length; each occurrence of the character replaced, every other character kept |
| DictFilters.SwapSeparators | apps/usuarios/templatetags/dict_filters.py:25 | the three chained replaces trade ',' and '.' character by character |
| DictFilters.SwapSeparatorsInvolutive | apps/usuarios/templatetags/dict_filters.py:25 | on text without the placeholder, swapping twice gives the text back |
| DictFilters.FormatBr | apps/usuarios/templatetags/dict_filters.py:13-28 | '-' for None; the swapped number when formatting succeeds; the value itself or '-' (by its truth) when it fails |
| WeightProjection.PeriodsOf | apps/usuarios/views.py:246-258 | the periods of the points, one per point, in order |
| WeightProjection.Chain | apps/usuarios/views.py:832-848 | one point per month, in order, with the month's period, the chosen daily gain and that gain times the month's days |
| WeightProjection.PerYearChain | apps/usuarios/views.py:243-267 | one point per month, in order, with the month's period, its own recorded daily gain and that gain times the month's days |
| WeightProjection.ChainShape | apps/usuarios/views.py:832-848 | the carried projection has one point per month: the month's gain is the chosen daily gain times its days, and the weight is the previous weight (the entry weight first) plus that gain |
| WeightProjection.PerYearShape | apps/usuarios/views.py:243-267 | the dashboard projection has the same shape, except that a month opening a new year starts again from the entry weight |
| WeightProjection.ChainStep | apps/usuarios/views.py:845-848 | one more month appends exactly one point, carried from the last weight |
| WeightProjection.ChainAppend | apps/usuarios/views.py:845-848 | carrying the weight through one more month adds that month's gain to the final weight |
| WeightProjection.PerYearStep | apps/usuarios/views.py:244-267 | one more month appends one point, based on the entry weight at a year's start and on the last weight otherwise |
| WeightProjection.ChainEndsAtTotalGain | apps/usuarios/views.py:832-848 | the final carried weight is the entry weight plus the sum of the monthly gains |
| WeightProjection.ChainNonDecreasing | apps/usuarios/views.py:832-848 | with non-negative daily gains the carried weights never decrease and never fall below the entry weight |
| WeightProjection.PerYearNeverAboveCarried | apps/usuarios/views.py:243-267 | with non-negative gains the dashboard never projects more than carrying the weight across years |
| WeightProjection.PerYearAboveEntry | apps/usuarios/views.py:243-267 | with non-negative gains every dashboard weight is at least the entry weight, and within a year the weight never decreases from one month to the next |
| WeightProjection.SingleYearProjectionsAgree | apps/usuarios/views.py:243-267 | within a single year the dashboard and billing projections coincide |
| WeightProjection.DashboardDropsAtYearBoundary | apps/usuarios/views.py:244 | 200 kg with 1.0 kg/day in December 2024 and 0.5 kg/day in January 2025 shows 231 kg and then 215.5 kg; carried over it would be 246.5 kg |
| WeightProjection.EnumeratedKeysCovered | apps/usuarios/views.py:246 | a map holding every month of an enumeration holds the whole set |
| WeightProjection.LotDashboardProjection | apps/usuarios/views.py:220-267 | the lot's months come out ascending, exactly the recorded ones, with the dashboard projection over them |
| WeightProjection.ProjectByYear | apps/usuarios/views.py:243-267 | the nested year and month loops compute exactly the dashboard projection |
| WeightProjection.NextYearPoint | apps/usuarios/views.py:246-267 | one month of the inner loop appends the dashboard point of that month, based on the accumulator |
| WeightProjection.LotEvolution | apps/usuarios/views.py:825-857 | the gain and weight tables have exactly the recorded months as keys, and each holds that month's point of the carried projection |
| WeightProjection.CarryWeights | apps/usuarios/views.py:832-857 | the loop files each month's gain and carried weight under its period |
| WeightProjection.WithGrowth | apps/usuarios/views.py:215-217 | the lots kept are exactly those with daily-gain records, in their original order |
| WeightProjection.WithGrowthStep | apps/usuarios/views.py:215-217 | one more lot adds its own index exactly when it has records |
| WeightProjection.LotsDashboard | apps/usuarios/views.py:215-270 | one line per lot with records, in order, each with the palette slot `idx % 10` and the lot's dashboard projection |
| WeightProjection.SavedGainsOf | apps/usuarios/views.py:735-741 | every lot with a truthy saved GMD has its id in the map, and every id in the map comes from such a lot with that value |
| WeightProjection.SavedGains | apps/usuarios/views.py:735-741 | the loop builds exactly that map |
| WeightProjection.GainPolicy | apps/usuarios/views.py:744-808 | no lot has a saved gain exactly when every month uses its own recorded GMD; otherwise a lot with a saved gain uses it in every month, and one without uses one flat GMD (its earliest month's) in every month |
| WeightProjection.ChooseSource | apps/usuarios/views.py:790-808 | the months' own records exactly when no lot has a saved gain; otherwise the lot's saved gain when it has one, and the flat fallback GMD when it has none |
| WeightProjection.SavedGainOfLot | apps/usuarios/views.py:739-741 | with unique ids, a lot is in the saved map exactly when its own saved GMD is truthy, and then with that value |
| WeightProjection.LotBillingLine | apps/usuarios/views.py:783-860 | the line of one lot: its ascending months, the gain source of the policy, and the carried gains and weights |
| WeightProjection.NextBillingLine | apps/usuarios/views.py:783-860 | one pass of the lot loop keeps "one billing line per lot with records so far" |
| WeightProjection.BillingProjection | apps/usuarios/views.py:735-860 | the saved gains as above, and one billing line per lot with records, in order |
| WeightProjection.SavedGainFlattensOtherLots | apps/usuarios/views.py:800-808 | once some lot has a saved gain, a lot without one uses a single flat GMD in every month |
| Billing.CarcassArrobasBounds | apps/usuarios/views.py:961-962 | a non-negative weight at a yield in [0, 100] gives between 0 and weight/15 arrobas |
| Billing.CarcassArrobas | apps/usuarios/views.py:961-962 | carcass arrobas × 1500 = weight × yield; non-negative for a non-negative weight and yield |
| Billing.FinalWeight | apps/usuarios/views.py:953-956 | the key picked is the latest of the table, and the weight is the one filed under it |
| Billing.LatestWeightIsFinal | apps/usuarios/views.py:953-956 | the weight under the latest key is the entry weight plus every monthly gain of the line |
| Billing.YieldOf | apps/usuarios/views.py:961-969 | the lot's total arrobas are its head count times the carcass arrobas of the final weight |
| Billing.YieldTotalFormula | apps/usuarios/views.py:961-969 | total arrobas = heads × final weight × yield / 1500 |
| Billing.YieldTable | apps/usuarios/views.py:948-978 | empty without a truthy yield or billing lines; otherwise one yield line per billing line, at that line's projected final weight, with the id and head count of the lot the lookup finds: by name, the last lot of that name (as written); or the line's own lot (corrected) |
| Billing.YieldLine | apps/usuarios/views.py:950-978 | one pass of the yield loop gives the line's expected yield line |
| Billing.BillingLineWeighed | apps/usuarios/views.py:950-951 | every billing line has a lot and at least one projected weight |

| Billing.RevenueLines | apps/usuarios/views.py:984-1007 | at most one revenue line per yield line; each has a non-zero lot id and the truthy saved arroba price of the lot the lookup finds |
| Billing.RevenueLinesStep | apps/usuarios/views.py:984-1007 | pricing one more yield line appends exactly that line's contribution |
| Billing.RevenueTable | apps/usuarios/views.py:984-1007 | the loop produces exactly the revenue lines, under either lookup |
| Billing.RevenueLinesPrefixStep | apps/usuarios/views.py:984-1007 | pricing the lines up to r appends line r's contribution to the lines before it |
| Billing.PriceLine | apps/usuarios/views.py:986-1000 | one pass of the pricing loop gives exactly the line's contribution: a line with a lot id and a truthy price of the looked-up lot |

| Billing.RevenueFormula | apps/usuarios/views.py:998-1000 | a line whose looked-up lot has an id and a price earns that price × heads × final weight × yield / 1500 |
| Billing.RevenueLineOf | apps/usuarios/views.py:984-1007 | every yield line's contribution appears among the revenue lines |
| Billing.LotByName | apps/usuarios/views.py:946 | the lookup by name finds the last lot with that name, and nothing exactly when no lot has it |
| Billing.LastNamed | apps/usuarios/views.py:946 | a lot at or after the given one with the same name, and no later lot has that name |
| Billing.SourceLot | apps/usuarios/views.py:946-996 | the lot whose id, head count and price a line uses: same name; the line's own lot under the corrected lookup; the last namesake under the lookup by name |
| Billing.LookupIsLastNamed | apps/usuarios/views.py:946 | the dictionary lookup by a lot's own name finds exactly the last lot of that name |
| Billing.LookupsAgreeWithDistinctNames | apps/usuarios/views.py:946-965 | with distinct names both lookups find the lot itself |
| Billing.SameSourceSameLine | apps/usuarios/views.py:986-1000 | a line whose two lookups find the same lot contributes the same under both |
| Billing.RevenueLinesAgreeWithDistinctNames | apps/usuarios/views.py:984-1000 | with distinct names the revenue lines under both lookups are equal |
| Billing.DuplicateNameTakesOtherLot | apps/usuarios/views.py:946-996 | lots "Lote A" id 1 with 10 head priced 100 and "Lote A" id 2 with 20 head and no price: by name the first lot's line gets id 2, 20 head and no revenue line; by its own lot, id 1, 10 head and revenue 100 × its arrobas |
| FeedAccrual.LotMonthFeedFormula | apps/usuarios/views.py:498-505 | a lot's monthly feed is `calcular_gasto_mensal` times the heads, between 28 and 31 days' worth for a non-negative cost |
| FeedAccrual.LotMonthFeed | apps/usuarios/views.py:498-505 | the lot's feed for the month is non-negative for a non-negative daily cost, and zero exactly when the cost or the head count is zero |
| FeedAccrual.FeedLineArithmetic | apps/usuarios/views.py:498-516 | a listing line holds the daily cost, the days, the cost per head for the month and the lot's cost |
| FeedAccrual.LotFeedLines | apps/usuarios/views.py:495-516 | the lot's records are listed once each, in ascending month order |
| FeedAccrual.ListFeed | apps/usuarios/views.py:495-516 | one line per month given, in that order |
| FeedAccrual.FeedTotal | apps/usuarios/views.py:546-566 | a month's total over lots with valid records is non-negative |
| FeedAccrual.FeedMonthsSpec | apps/usuarios/views.py:534-540 | a month is listed exactly when some lot has a feed record for it |
| FeedAccrual.FeedTotalAppend | apps/usuarios/views.py:551-566 | totals over two lists of lots add up |
| FeedAccrual.FeedTotalWithoutRecords | apps/usuarios/views.py:546-548 | a month without records totals 0 |
| FeedAccrual.FeedTotalSingle | apps/usuarios/views.py:562-566 | one lot contributes its own monthly feed, or nothing without a record |
| FeedAccrual.FeedTotalStep | apps/usuarios/views.py:551-566 | one more lot adds its monthly feed when it has a record |
| FeedAccrual.MonthlyFeedTotals | apps/usuarios/views.py:534-566 | the months are ascending and exactly the feed months; each month's total is the sum over lots |
| FeedAccrual.AccrueLots | apps/usuarios/views.py:546-566 | the nested loops give every listed month the total over all lots |
| FeedAccrual.AccrueLot | apps/usuarios/views.py:554-566 | one lot's pass adds its own feed to the months it has records for |
| BreakEven.YieldOrDefault | apps/usuarios/views.py:1307 | the saved yield when truthy, otherwise 50 |
| BreakEven.ProjectedMonths | apps/usuarios/views.py:1345-1353 | the months up to m that have a daily-gain record in the year |
| BreakEven.WeightAfter | apps/usuarios/views.py:1339-1366 | the running weight stays the entry weight while no month has been projected |
| BreakEven.FeedAfter | apps/usuarios/views.py:1343-1380 | no feed is accrued while no month has been projected |
| BreakEven.FiguresAt | apps/usuarios/views.py:1356-1404 | the month's days, its recorded GMD, exit weight = entry + GMD × days, and investment = purchase value + accrued feed |
| BreakEven.FiguresStep | apps/usuarios/views.py:1356-1404 | a month's figures from the running state: entry weights, exit weight = entry + GMD × days, accrued feed, investment, arrobas after mortality, break-even price |
| BreakEven.LotBreakEven | apps/usuarios/views.py:1339-1426 | the months filled are exactly January to November with a daily-gain record, each with its figures |
| BreakEven.MonthOf | apps/usuarios/views.py:1356-1404 | one projected month of the loop gives that month's figures, the accrued feed, and the next running weight and entry arrobas |
| BreakEven.LotSheetLine | apps/usuarios/views.py:1310-1431 | a lot gets a line exactly when it has a projected month, and the line holds that lot's figures |
| BreakEven.BreakEvenSheet | apps/usuarios/views.py:1310-1431 | lines in lot order, each with the right figures, and every lot with a projected month has one |
| BreakEven.BreakEvenCoversInvestment | apps/usuarios/views.py:1402-1404 | where there are arrobas, price × arrobas = investment; otherwise the price is 0 |
| BreakEven.SurvivorsBounds | apps/usuarios/views.py:1390-1396 | survivors lie between 0 and the head count; without a mortality record all heads survive |
| BreakEven.FullMortalityBreaksEvenAtZero | apps/usuarios/views.py:1396-1404 | 100% mortality leaves no survivors, no arrobas and a price of 0 |
| BreakEven.FeedOutsideProjectionIgnored | apps/usuarios/views.py:1352-1380 | feed records that agree on projected months give the same accrued feed |
| BreakEven.UnprojectedFeedChangesNothing | apps/usuarios/views.py:1352-1380 | a feed record in a month without a daily-gain record changes no figure |
| BreakEven.SameWeights | apps/usuarios/views.py:1359-1366 | the running weights depend on the lot and its gains only |
| BreakEven.FeedAccrues | apps/usuarios/views.py:1375-1380 | with valid records the accrued feed is non-negative and never decreases |
| BreakEven.InvestmentAtLeastPurchase | apps/usuarios/views.py:1383 | a month's investment is at least the purchase value |
| BreakEven.WeightAfterIsCarriedProjection | apps/usuarios/views.py:1339-1366 | the running weight equals the carried projection over the projected months, the one billing uses |
| BreakEven.ProjectedMonthsAscending | apps/usuarios/views.py:1345 | the projected months come in ascending order |
| BreakEven.EntryArrobaIsLastExit | apps/usuarios/views.py:1359-1426 | the entry arrobas are the lot's own until a month is projected, and the last exit weight over 15 after |
| BreakEven.WeightNeverDrops | apps/usuarios/views.py:1363-1366 | with non-negative gains the weight never decreases and never falls below the entry weight |
| CashFlow.Investment | apps/usuarios/views.py:1103 | the sum of the purchase values is non-negative for valid lots |
| CashFlow.TotalInvestment | apps/usuarios/views.py:1103 | the generator sum equals that investment |
| CashFlow.InvestmentIsPurchaseSum | apps/usuarios/views.py:1103 | skipping zero purchase values changes nothing: the investment is the plain sum of all of them |
| CashFlow.KindTotal | apps/usuarios/views.py:1138-1148 | a month's total over the categories is non-negative when every stored value is |
| CashFlow.KindTotalWithoutRecords | apps/usuarios/views.py:1144-1145 | a month with no stored value in any category totals 0 |
| CashFlow.KindTotalOtherMonth | apps/usuarios/views.py:1138-1148 | storing a value for another month leaves the month's total unchanged |
| CashFlow.VariableCostsOf | apps/usuarios/views.py:1152-1159 | health 1% of feed, services 1% and taxes 1.5% of revenue; the total is feed × 1.01 + revenue × 0.025 and covers at least the feed |
| CashFlow.MonthlyFeed | apps/usuarios/views.py:1112-1120 | a value for every month 1..12: that month's feed total over the lots |
| CashFlow.FeedOfMonth | apps/usuarios/views.py:1113-1120 | the inner loop gives the month's feed total |
| CashFlow.MonthlyKindTotals | apps/usuarios/views.py:1123-1148 | a value for every month 1..12: the category total of that month |
| CashFlow.MonthlyVariable | apps/usuarios/views.py:1151-1167 | exactly months 1..12, each with the variable costs of its feed and revenue |
| CashFlow.Flows | apps/usuarios/views.py:1170-1190 | free flow = revenue − fixed − variable; the cumulative flow starts at −investment and adds each month's free flow |
| CashFlow.CumulativeSteps | apps/usuarios/views.py:1175-1190 | the cumulative series steps by each month's free flow |
| CashFlow.CumulativeOf | apps/usuarios/views.py:1175-1190 | −investment before any month; never below −investment when no month's free flow is negative |
| CashFlow.CumulativeIsNetOfMonths | apps/usuarios/views.py:1175-1190 | the cumulative flow after m months is −investment + revenue − fixed − variable over those months |
| CashFlow.SummaryOf | apps/usuarios/views.py:1218-1224 | outlay = investment + fixed + variable; result = revenue − outlay; profitability and margin are the result in percent of investment and revenue, or 0 when those are not positive |
| CashFlow.AnnualSummary | apps/usuarios/views.py:1208-1224 | the summary of January to November totals |
| CashFlow.TotalsOf | apps/usuarios/views.py:1212-1216 | each month's variable total, for exactly the months given |
| CashFlow.CashFlowSheet | apps/usuarios/views.py:1102-1224 | every series of the sheet as specified above, and the summary's result equals the cumulative flow after November |
| Upserts.FieldAt | apps/usuarios/views.py:376 | a field absent from the POST reads as missing; otherwise the posted one |
| Upserts.Table.UpdateOrCreate | apps/usuarios/views.py:382-387 | the key gets the value, created when absent; no other row changes |
| Upserts.ApplyEntries | apps/usuarios/views.py:374-390 | saving never removes a row |
| Upserts.CountAccepted | apps/usuarios/views.py:388 | at most one per cell, and 0 exactly when no cell was accepted |
| Upserts.AcceptedKeys | apps/usuarios/views.py:382-388 | every accepted cell's key is among them |
| Upserts.SaveEntries | apps/usuarios/views.py:374-390 | the table afterwards is the old rows with every accepted cell applied in order; the count is the number accepted |
| Upserts.ApplyEntriesUntouched | apps/usuarios/views.py:376-390 | a key no accepted cell names keeps its row or its absence |
| Upserts.ApplyEntriesAt | apps/usuarios/views.py:376-390 | with distinct keys each cell's key ends with the accepted value, or as it was |
| Upserts.ApplyEntriesKeys | apps/usuarios/views.py:382-387 | the keys afterwards are the old keys plus the accepted ones |
| Upserts.ApplyEntriesInRange | apps/usuarios/views.py:1284-1291 | rows within the page's bounds stay within them |
| Upserts.ApplyEntriesAppend | apps/usuarios/views.py:1053-1071 | saving cells a then c is saving a + c; the counts add |
| Upserts.AcceptedKeysNamed | apps/usuarios/views.py:382-388 | a key no accepted cell names is not among the accepted keys |
| Upserts.CountIsRowsWritten | apps/usuarios/views.py:382-388 | with distinct keys the count equals the number of distinct rows written |
| Upserts.MonthCells | apps/usuarios/views.py:1055-1056 | one cell per month 1..last, each keyed by (category, period) and reading that month's field |
| Upserts.Grid | apps/usuarios/views.py:1053-1056 | categories × months cells, each in a listed category, the year and months 1..last, reading its own field |
| Upserts.GridCovers | apps/usuarios/views.py:1053-1056 | every (category, month) of the form is a cell |
| Upserts.GridDistinct | apps/usuarios/views.py:1053-1056 | distinct categories give distinct keys |
| Upserts.SavedCell | apps/usuarios/views.py:1053-1071 | after a form save a cell's key holds the posted value when accepted and is otherwise as it was |
| Upserts.SavedOutside | apps/usuarios/views.py:1053-1071 | keys outside the form's categories, year or months keep their rows |
| Upserts.GridStep | apps/usuarios/views.py:1053-1056 | one more category appends its month cells |
| Upserts.SaveGrid | apps/usuarios/views.py:1053-1071 | the nested loops apply exactly the form's cells, and the count is the number accepted |
| Upserts.KindsDistinct | apps/usuarios/models.py:513-527 | each `TIPO_CHOICES` list names every category once |
| Upserts.FixedCostKindListed | apps/usuarios/models.py:513-527 | every fixed-cost category is listed |
| Upserts.RevenueKindListed | apps/usuarios/models.py:588-596 | every revenue category is listed |
| Upserts.SaveFixedCosts | apps/usuarios/views.py:1049-1071 | all categories and months 1..12 are applied, keeping values >= 0 |
| Upserts.SaveRevenues | apps/usuarios/views.py:1073-1092 | all categories and months 1..12 are applied, keeping values >= 0 |
| Upserts.SaveMortality | apps/usuarios/views.py:1275-1293 | every lot and months 1..11 are applied, keeping percentages in [0, 100] |
| Upserts.DecemberMortalityKept | apps/usuarios/views.py:1278 | the December mortality of any lot is never written |
| Upserts.FeedPost | apps/usuarios/views.py:375 | the field of (lot, month) is the posted `gasto_mes_<month>` |
| Upserts.SaveFeed | apps/usuarios/views.py:366-392 | a lot of the property: its 12 month cells applied and counted; no lot or a foreign one: nothing changes and the count is 0 |
| Upserts.FeedSaveEffect | apps/usuarios/views.py:371-390 | after a feed save each of the lot's months holds the posted value when accepted, and every other key is as it was |
| Upserts.FixedCostSaveEffect | apps/usuarios/views.py:1053-1071 | each category's month holds the posted value when accepted, otherwise as it was |
| Upserts.RevenueSaveEffect | apps/usuarios/views.py:1076-1092 | each category's month holds the posted value when accepted, otherwise as it was |
| Upserts.MortalityStaysValid | apps/usuarios/views.py:1284-1291 | stored percentages remain within [0, 100] |

## Left out

- HTTP handling is not modelled: login checks, the property lookup, `messages`, redirects, `render` and the template context. The model starts from the records those views fetch.
- Chart data is not modelled: labels, datasets, colours other than the palette slot, and `None` padding (views.py:273-312, 521-531, 541-543, 568-603, 864-909). Nor are `meses_dados` (912-923), `gmd_display` (926-935) and the pre-filled form values (938-941, 1008-1012). They only arrange numbers the model already computes.
- The billing page's POST branch (views.py:651-730) is not modelled. It stores the last used GMD, yield and arroba price on the lots and the property. The model takes those saved values as inputs, and the GMD and price typed in the same request are not modelled.
- `float(...)` conversions and the `Decimal(str(float))` round trips are treated as exact. So is Decimal division, which really rounds to 28 significant digits.
- Parsing `Decimal(valor_str)` is abstracted into the `Field` values. NaN and other values that fail comparison count as `Unparsable`. Infinite values that pass `>= 0` and then fail at the database are not modelled.
- `datetime.now().year` defaults and `int(request.POST.get('ano'))` are not modelled: the year is a parameter.
- Password handling, `normalize_email`, `generate_random_password`, forms, admin, urls and apps configuration are not modelled. So are the lot list, edit and delete views, which only pass data through.
- DictFilters.FormatBr: the `f"{num:,.2f}"` formatting of a number is not modelled. `FilterValue` carries its formatted text, or its absence when conversion fails.
- Model field validators are predicates (`ValidLote`, `ValidLotData`), because Django enforces them only on `full_clean`. Lemmas that need them take them as hypotheses.
- Upserts.AcceptedKeys: its own contract states one direction only (accepted keys are included). The converse is the separate lemma `AcceptedKeysNamed`.

## Findings

| source | as written | input that shows it | evidently intended | confidence | as-written member | corrected member |
|---|---|---|---|---|---|---|
| apps/usuarios/views.py:244 | the dashboard resets the accumulated weight to the entry weight at the start of every year | 200 kg lot, GMD 1.0 in December 2024 and 0.5 in January 2025: the dashboard shows 231 kg and then 215.5 kg | carry the weight across years, as the billing page (views.py:832-848) and the break-even sheet do: 246.5 kg | medium, not executed | WeightProjection.DashboardDropsAtYearBoundary | WeightProjection.ChainNonDecreasing |
| apps/usuarios/views.py:946, 965-973, 994-996 | the yield and revenue lines find their lot by name, and `lotes_dict` keeps the last lot of each name (lot names are not unique in models.py), so id, head count and saved price come from that lot | "Lote A" id 1, 10 head, priced 100, and "Lote A" id 2, 20 head, no price: the first lot's line gets id 2 and 20 head, and earns nothing | use the line's own lot | medium, not executed | Billing.DuplicateNameTakesOtherLot | Billing.SourceLot |

`WeightProjection.PerYearChain` models the dashboard as written. `WeightProjection.Chain` is the carried projection that billing and the break-even sheet use, and `BreakEven.WeightAfterIsCarriedProjection` ties the break-even weights to it. The billing tables take the lookup as a parameter: `ByName` is the dictionary by name as written, `OwnLot` the line's own lot. `Billing.LookupsAgreeWithDistinctNames` and `Billing.RevenueLinesAgreeWithDistinctNames` show the two agree whenever lot names are distinct.
