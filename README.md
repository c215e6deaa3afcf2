# prospuniv in Dafny

prospuniv is a set of Python tools for planning production in an online space-trading
game. It has two halves:

- a discrete-minute simulation. Production lines work through circular recipe queues
  against one shared inventory, each tick is a minute, and a ledger records what
  happened and is summarised afterwards;
- scripts that reshape the game's state file into catalogs and value production
  chains. The catalogs are recipe templates, inventories, prices, buildings and sites;
  the chains are the production trees and their costs.

This project models the core of both halves and proves properties of the model:

- the duration and clock arithmetic;
- the inventory, the prices and the market;
- the ledger and its summary;
- the production line's state machine and the value stream's run;
- the production-tree builder and its cost identities;
- the site-planning helpers;
- the transforms of the state-file extract scripts.

Objects whose fields the Python updates in place are Dafny classes: the durations and
clocks, the inventory, the ledger, the production line, the value stream and the
planned site. Each of their methods is proved equal to a value-level function, and the
properties are proved about those functions. The loops of the extract scripts and
planning helpers are Dafny methods, each proved equal to a function that states its
result. Everything else is datatypes, functions and lemmas.

Modules follow the source files:

| module | file |
|---|---|
| `Wrappers` | the shared `Option`, `Result` and `Error` types |
| `Text` | Python's `str.split`, `int` and `str` on the strings the scripts use |
| `Dicts` | an insertion-ordered dict, for the Python dicts whose order shows |
| `Clock` | clock.py |
| `Inventories` | inventory.py |
| `Markets` | market.py |
| `Ledgers` | ledger.py |
| `ProductionLines` | productionline.py |
| `ValueStreams` | valuestream.py |
| `GraphNodes` | graphnode.py |
| `Catalogs` | the shapes of the catalogs configuration.py loads |
| `BuildGraph` | build-graph.py |
| `ModelGoals` | model-goals.py |
| `TemplateExtract` | extract-template-data.py |
| `StateRecords` | `extract_address` and `load_materials` (duplicated across the extract scripts) |
| `InventoryExtract` | extract-inventory-data.py |
| `BrokerExtract` | extract-broker-data.py |
| `BuildingExtract` | extract-building-data.py |
| `SiteExtract` | extract-site-data.py |

Python floats are modelled as `real`, so arithmetic is exact. This includes the item,
recipe, inventory, ledger and graph-link counts. The clock fields, the queue-item counts,
the worker counts and the building tallies are `int`.

## Model

| member | source | states |
|---|---|---|
| Text.Split | clock.py:16 | `str.split` gives at least one piece, and no piece holds the separator |
| Text.SplitNoSeparator | clock.py:16 | a string without the separator splits into itself alone |
| Text.SplitPrefix | clock.py:16 | a separator-free prefix joins the first piece |
| Text.SplitAtSeparator | clock.py:16 | text up to the first separator is the first piece, and the rest splits on its own |
| Text.Digit | clock.py:22 | a digit value becomes a digit character with that value |
| Text.ParseInt | clock.py:16 | `int` accepts exactly the non-empty all-digit strings |
| Text.NatToString | extract-template-data.py:85 | `str(n)` is a non-empty digit string |
| Text.ParseNatToString | extract-template-data.py:45-46 | `int(str(n)) == n` |
| Text.Before | graphnode.py:29 | `s.split(c)[0]` is the prefix of `s` that ends just before the first `c`, or all of `s` when there is none |
| Text.BeforeIsFirstPiece | graphnode.py:29 | `Before(s, c)` is the first piece of `Split(s, c)`, which is what the source writes |
| Dicts.Empty | model-goals.py:89 | a new dict is well formed and empty |
| Dicts.Put | model-goals.py:92-95 | `d[k] = v` sets `k` and only `k`; a new key goes to the end of the order, an existing key keeps its place |
| Dicts.NotBefore | model-goals.py:92-95 | in an order without repeats, no key occurs before its own position |
| Clock.Pad | clock.py:28-29 | padding gives four fields: the given ones at the end and zeros before them |
| Clock.Normalized | clock.py:27-45 | normalising clears the seconds and keeps the total in minutes up to the carried seconds; non-negative fields end with minutes below 60 and hours below 24 |
| Clock.ParseFields | clock.py:16 | the fields convert exactly when every piece is a number, and each field is its piece's value |
| Clock.Parsed | clock.py:15-19 | more than four fields is an error; a parse succeeds exactly when there are at most four numeric fields; the result is in normal form and keeps the fields' total in minutes |
| Clock.Trunc | clock.py:52-53 | `int(x)` truncates toward zero: the floor of a non-negative float, the integer at most one above a negative one, and never farther from zero than `x` |
| Clock.WithEfficiency | clock.py:50-54 | the result's minutes are the days' minutes plus `int(total / e)` plus the carried seconds; the result is normal for non-negative fields and `e > 0` |
| Clock.WithMultiplier | productionline.py:42 | the total in minutes is multiplied by `n`, and the result is normal |
| Clock.TickUp | clock.py:74-83 | on the clock dial, one step adds exactly one minute, keeps hours at most 23 and minutes at most 59, and leaves the seconds alone |
| Clock.TickDown | clock.py:104-113 | one step takes exactly one minute off a positive total and leaves zero unchanged; fields stay non-negative, normal form is kept, and the seconds are left alone |
| Clock.TwoDigits | clock.py:22 | `'{:02d}'` of a number holds no colon, and is all digits for `n >= 0` |
| Clock.ShowIsNotParsable | clock.py:15-22 | the display form `DD HH:MM:SS` is rejected by the parser, so display and parse are not inverses |
| Clock.HalfEfficiencyDoublesAnHour | clock.py:50-54 | one hour at efficiency 0.5 takes 120 minutes |
| Clock.EfficiencyCountsDaysTwice | clock.py:50-54 | one day at efficiency 0.5 takes three days, because the days field is kept as well as counted in the total |
| Clock.EfficiencyExactIffNoDays | clock.py:50-54 | for a normal duration the result is days plus `floor(total / e)`, which equals `floor(total / e)` exactly when there are no days |
| Clock.ParsedHourOfSeconds | testdrivers/clockdriver.py:18 | `Duration('3600')` is one hour |
| Clock.ParsedDayOfSeconds | testdrivers/clockdriver.py:19 | `Duration('86400')` is one day |
| Clock.DigitsOfHour | testdrivers/clockdriver.py:18 | `int('3600')` is 3600 |
| Clock.NormalizedHour | clock.py:27-45 | 3600 seconds normalise to one hour |
| Clock.DigitsOfDay | testdrivers/clockdriver.py:19 | `int('86400')` is 86400 |
| Clock.NormalizedDay | clock.py:27-45 | 86400 seconds normalise to one day |
| Clock.Duration.FromFields | clock.py:19 | the constructor's four slots are the padded, normalised fields |
| Clock.Duration.Normalize | clock.py:27-45 | `_normalize` leaves the slots equal to `Normalized` of the old slots |
| Clock.Duration.ApplyEfficiency | clock.py:50-54 | `apply_efficiency` leaves the slots equal to `WithEfficiency` of the old slots |
| Clock.Duration.ApplyMultiplier | productionline.py:42 | `apply_multiplier` leaves the slots equal to `WithMultiplier` of the old slots |
| Clock.NewDuration | clock.py:15-19 | `Duration(s)` succeeds exactly when `Parsed(s)` does, raises the same error otherwise, and holds the parsed fields in a fresh array |
| Clock.IncrClock.constructor | clock.py:61-63 | a new incrementing clock reads zero and keeps its target duration |
| Clock.IncrClock.Step | clock.py:74-84 | a step adds exactly one minute and returns whether the clock is still short of its target |
| Clock.DecrClock.constructor | clock.py:91-93 | a countdown shares the duration's own slot array |
| Clock.DecrClock.Step | clock.py:104-114 | a step applies `TickDown` and returns whether minutes remain |
| Clock.CountdownMovesItsDuration | clock.py:91-114 | stepping a countdown built from `d` takes one minute off `d` itself |
| Inventories.AbsentTicker | inventory.py:17-25 | an absent ticker counts 0, and `has` fails for it whatever the amount, 0 or less included |
| Inventories.PresentTicker | inventory.py:17-25 | for a present ticker, `has(t, n)` holds exactly when its count is at least `n` |
| Inventories.Added | inventory.py:27-32 | `add` creates or raises only the given ticker, by exactly the amount; every other key keeps its value |
| Inventories.Removed | inventory.py:34-38 | `remove` succeeds exactly when `has` holds; on success only the ticker drops, by exactly the amount, never below 0, and the keys stay the same |
| Inventories.AddThenRemove | inventory.py:27-38 | adding and then removing one amount succeeds and restores every count; a ticker absent before is left present with 0 |
| Inventories.ReplayAppend | inventory.py:27-38 | replaying one more operation applies it to the replayed map |
| Inventories.ReplayKeepsNonNegative | inventory.py:34-38 | with non-negative additions, no sequence of adds and removes makes a quantity negative |
| Inventories.Inventory.constructor | inventory.py:11-12 | the inventory holds the given map |
| Inventories.Inventory.Add | inventory.py:27-32 | `add` returns true and leaves the map equal to `Added` of the old map |
| Inventories.Inventory.Remove | inventory.py:34-38 | `remove` returns `has` of the old map; on success the map is `Removed` of the old one, on failure it is unchanged |
| Markets.NewPrice | market.py:12-25 | an empty record gives all zeros; otherwise the price is built exactly when the record has all six fields, it holds their values, and a missing field raises naming a key the record lacks |
| Markets.HandleNone | market.py:49-52 | `_handle_none` keeps a present value and gives 0.0 for a missing one |
| Markets.MultiplyValues | market.py:54-63 | `multiply` fills every price field, each scaled by the factor with missing counted as 0.0, and copies supply and demand |
| Markets.AddValues | market.py:65-74 | `add` fills every price field with the sum of the operands' fields, missing counted as 0.0, and copies the left operand's supply and demand |
| Markets.AddCommutes | market.py:65-74 | `add` commutes on the price fields, and on the whole price exactly when both operands have the same supply and demand |
| Markets.ZeroIsIdentity | market.py:12-18 | `Price()` is an identity for `add` on both sides, on the price fields |
| Markets.AddAssociates | market.py:65-74 | `add` is associative |
| Markets.MultiplyDistributes | market.py:54-74 | `p.multiply(a).add(p.multiply(b))` equals `p.multiply(a + b)` |
| Markets.MultiplyByOne | market.py:54-63 | multiplying by 1 keeps the price fields |
| Markets.Lookup | market.py:91-94 | `price(t)` succeeds exactly for a known ticker, returns its stored price, and raises "not found" otherwise |
| Markets.NewMarket | market.py:79-83 | the market is built exactly when the exchange exists and every record reads; it then holds one price per record, and otherwise raises the failure of the first record, in the exchange's listing order, that does not read |
| Markets.LookupInBuilt | market.py:79-94 | in a built market, looking up a ticker gives the price its record describes, and fails exactly for tickers without a record |
| Ledgers.BookendsOfAdds | ledger.py:48-52 | a ledger filled by `add` alone holds the first and the latest efficiency value as its bookends |
| Ledgers.MergeBookend | ledger.py:58-65 | a merged bookend is present when either side is, takes the other side when one is missing, and is their average `(a + b) / 2` when both are present, so it lies between the two |
| Ledgers.EfficiencyValuesAppend | ledger.py:67 | the efficiency values of appended entries are those of the first ledger followed by those of the second |
| Ledgers.MergeKeepsBookendsMatched | ledger.py:55-67 | `add_ledger` keeps each bookend present exactly when the merged entries hold an efficiency value |
| Ledgers.Min | ledger.py:274 | `min` of a non-empty list is at most every element and is one of them |
| Ledgers.Max | ledger.py:275 | `max` of a non-empty list is at least every element and is one of them |
| Ledgers.SumBounds | ledger.py:273 | a sum of terms between `lo` and `hi` lies between `n * lo` and `n * hi` |
| Ledgers.MeanBounds | ledger.py:273 | the mean of such a sum lies between `lo` and `hi` |
| Ledgers.SummarizeEfficiencies | ledger.py:270-279 | no values give an empty result; otherwise the result exists exactly when both bookends are set, and it fails with a None-arithmetic error when one is not; the mean is the sum of the values over their number, min and max are elements bounding every value, the mean lies between them, and delta is end minus start |
| Ledgers.TotalUnseen | ledger.py:158-240 | a product that no entry of the kind names has a zero total |
| Ledgers.FlipBonusUnseen | ledger.py:196-202 | without any OUTPUT or INPUT of a product there is no opening INPUT to flip |
| Ledgers.SeenExtend | ledger.py:150 | a product is seen in the entries exactly when it is seen in all but the last entry, or the last entry counts it |
| Ledgers.FoldOkIff | ledger.py:150-250 | the entry loop fails exactly when a priced entry names a product the market lacks, and then fails with "not found" |
| Ledgers.StepCounters | ledger.py:151-156 | a STATUS entry adds one cycle and its state to the active cycles; an EFFICIENCY entry appends its value; no other entry moves these |
| Ledgers.StepNotices | ledger.py:211-250 | a purchase or missing entry appends its notice to the inputs or the supplies list, and no other entry appends one |
| Ledgers.FoldCounts | ledger.py:150-156 | after the loop, the cycles are the number of STATUS entries, the active cycles are the sum of their states, and the efficiency values and both notice lists hold the entries' own, in order |
| Ledgers.StepProduction | ledger.py:158-171 | an OUTPUT of `p` adds its count and its valued price to `p`'s production row; any other entry leaves that row as it was |
| Ledgers.StepConsumption | ledger.py:181-194 | an INPUT of `p` adds minus its count, and the price times that, to `p`'s consumption row; any other entry leaves that row as it was |
| Ledgers.StepPurchases | ledger.py:204-240 | either kind of purchase of `p` adds its count and valued price to `p`'s purchases row; any other entry leaves that row as it was |
| Ledgers.StepNet | ledger.py:173-202 | an OUTPUT adds to `p`'s net row; an INPUT subtracts from it, except that an INPUT opening the row stores a positive count next to a negative value |
| Ledgers.FoldProduction | ledger.py:158-171 | `production[p]` exists exactly when some OUTPUT names `p`; its count is the sum of those counts and its value is `p`'s price times that sum |
| Ledgers.FoldConsumption | ledger.py:181-194 | `consumption[p]` exists exactly when some INPUT names `p`; it holds minus the sum of those counts, valued at `p`'s price |
| Ledgers.FoldPurchases | ledger.py:204-240 | `purchases[p]` exists exactly when some purchase names `p`; it sums both kinds of purchase counts, valued at `p`'s price |
| Ledgers.FoldNetProduction | ledger.py:173-202 | the value of `net_production[p]` is the price of outputs minus inputs, but its count is off by twice the opening INPUT's count when an INPUT opens the row |
| Ledgers.StepTotalPrices | ledger.py:158-228 | one entry adds its price times its count to the total of its own kind, times minus its count for the production cost, and leaves the other totals as they were |
| Ledgers.ValuedPriceValues | ledger.py:144-228 | each price field of a summed price is the sum of the entries' fields times their signed counts |
| Ledgers.FoldTotalPrice | ledger.py:144-228 | after the loop, each total is the sum of `price.multiply(count)` over the entries of its kind, whatever the other entries are |
| Ledgers.FoldTotal | ledger.py:144-228 | each price field of the production value sums the OUTPUT prices times their counts; that of the production cost sums the INPUT prices times minus their counts; that of the total purchases sums both kinds of purchase |
| Ledgers.SummarizeGainLoss | ledger.py:252 | the net gain or loss is filled in every field, is the production value plus the (negative) production cost field by field, and has the production value's supply and demand |
| Ledgers.SummarizeOkIff | ledger.py:135-268 | for bookends kept by `add` and `add_ledger`, the summary exists exactly when every priced product is known and there is a STATUS entry; it fails only with "not found" or a division by zero, and its uptime is active over total cycles |
| Ledgers.FoldErrorSticks | ledger.py:150-161 | once a prefix of the entries fails, the whole loop fails with the same error |
| Ledgers.Ledger.constructor | ledger.py:24-32 | a new ledger keeps its identifiers and market, has no entries and no bookends |
| Ledgers.Ledger.Add | ledger.py:37-52 | `add` appends exactly one entry, with the clock shown as text, and updates the bookends by that entry |
| Ledgers.Ledger.AddLedger | ledger.py:55-67 | `add_ledger` merges each bookend, then appends the other ledger's entries after its own |
| Ledgers.Ledger.SummarizeLedger | ledger.py:135-268 | `summarize_ledger` returns the summary of the entries, the market and the bookends, and changes nothing |
| Ledgers.MergeLedgers | valuestream.py:70-72 | the stream ledger is a fresh `RUN.TOTALS` ledger on the stream's market holding every line ledger's entries in line order |
| ProductionLines.BuildQueue | productionline.py:16-25 | the queue is built exactly when every item names a known recipe; it then holds one entry per item, in order, with the item's id and count and the catalog's recipe; otherwise it raises naming the first unknown recipe |
| ProductionLines.BuildQueueErrorSticks | productionline.py:17-19 | once a prefix of the items fails, the whole queue fails with the same error |
| ProductionLines.Turn | productionline.py:70-72 | moving the head to the back keeps the length, shifts the rest forward and puts the old head last |
| ProductionLines.TurnKeepsItems | productionline.py:70-72 | turning keeps the queue's items with their multiplicities |
| ProductionLines.RotateQueue | productionline.py:70-72 | `_set_next_recipe_active` succeeds exactly on a non-empty queue (`pop(0)` raises otherwise) and then turns it |
| ProductionLines.Rotations | productionline.py:70-72 | any number of turns keeps the queue's length |
| ProductionLines.TurnShifts | productionline.py:70-72 | turning the queue that starts at item `k-1` gives the one starting at item `k` |
| ProductionLines.RotationsBringBack | productionline.py:70-72 | after `k` turns the queue starts at its `k`-th item, so after as many turns as it has items every recipe has had its turn and the queue is back where it began |
| ProductionLines.Check | productionline.py:79-84 | one pass of the availability loop stores `False` exactly when the stock falls short of the need, and otherwise the count on hand |
| ProductionLines.AvailabilityDecidedByLast | productionline.py:74-88 | the check is truthy for no inputs; otherwise it is truthy exactly when the last input is covered and its count on hand is non-zero, so earlier shortages go unnoticed; with every input covered and a non-zero last count it is truthy |
| ProductionLines.Consume | productionline.py:90-95 | consuming never adds or drops a ticker |
| ProductionLines.Removals | productionline.py:91-94 | the removals issued are one per input, in order, each taking its count times the runs |
| ProductionLines.ConsumeIsReplay | productionline.py:90-95 | a consumption in which every removal succeeds leaves the inventory those removals replay to (with inventory.py lines 34-38) |
| ProductionLines.ConsumeLast | productionline.py:90-95 | a successful consumption is that of all but the last input followed by the last input's removal |
| ProductionLines.RemovalsLast | productionline.py:91-94 | the removals of a list are those of all but its last input followed by the last one's |
| ProductionLines.ConsumeNext | productionline.py:90-95 | one more input stops at an earlier failure, fails naming itself when its removal fails, and otherwise continues with its removal made |
| ProductionLines.ConsumeFailureSticks | productionline.py:94-95 | once the removals of a prefix fail, the whole consumption ends with that prefix's result |
| ProductionLines.ConsumeStopsAtFirstFailure | productionline.py:90-95 | a failed consumption fails at the first input whose removal fails, after every earlier input was removed; there is no rollback |
| ProductionLines.ConsumeKeepsNonNegative | productionline.py:90-95 | consumption never makes a quantity negative |
| ProductionLines.IdsLast | productionline.py:91-92 | the tickers of a list are those of all but its last input plus the last one's |
| ProductionLines.ConsumeLastSucceeds | productionline.py:90-95 | when the stock covers the last input after a successful consumption of the others, the whole consumption succeeds with the last removal made |
| ProductionLines.ConsumeTakesEachNeed | productionline.py:90-95 | with distinct input tickers all on hand and covered, consumption succeeds, takes exactly each input's need and leaves every other ticker alone |
| ProductionLines.RecipeClock | productionline.py:38-44 | the recipe clock is the recipe's duration scaled by the runs and then by the efficiency; it succeeds exactly when the duration parses and the efficiency is non-zero, and raises the parse error or a division by zero otherwise |
| ProductionLines.RecipeClockMinutes | productionline.py:38-44 | for a positive efficiency the clock is in normal form and its minutes are the whole days of the scaled total plus `floor(total / e)`, so the days are counted twice once the runs add up to a day (with clock.py lines 50-54) |
| ProductionLines.MultipliedDays | productionline.py:42 | after `apply_multiplier` the days slot holds the scaled total's whole days and the seconds slot is 0 |
| ProductionLines.StartNextCases | productionline.py:97-104 | `_start_next_recipe` raises on an empty queue; it changes nothing when the check is falsy; otherwise it raises on a failed removal or a bad clock, and else sets the line producing with the recipe clock and the consumed stock; the queue is never changed |
| ProductionLines.Produce | productionline.py:46-54 | `_produce` needs a non-empty queue; it adds the runs times the recipe's count of the output to the inventory, changes no other ticker, and drops the producing flag |
| ProductionLines.StepTurnsQueue | productionline.py:106-122 | a step keeps the queue's items and either leaves the queue as it was or moves its head to the back |
| ProductionLines.StartNextKeepsQueue | productionline.py:97-104 | starting the next recipe keeps the queue |
| ProductionLines.FinishTurnsQueue | productionline.py:118-121 | finishing a recipe turns the queue once |
| ProductionLines.WaitedClock | productionline.py:107 | waiting `k` steps on an `n`-minute countdown, `k <= n`, leaves `n - k` minutes in normal form and changes nothing else (with clock.py lines 104-113) |
| ProductionLines.CountingStep | productionline.py:106-116 | a producing line with more than a minute left only counts down by one minute |
| ProductionLines.FinishingStep | productionline.py:106-122 | a producing line with at most a minute left reaches zero and finishes: produce, rotate, start the next recipe |
| ProductionLines.CompletesOnStep | productionline.py:106-122 | a recipe clock of `n > 1` minutes counts down for `n - 1` steps and finishes on step `n` (a clock of at most one minute finishes on the next step) |
| ProductionLines.MaskedShortageRaises | productionline.py:74-95 | with 1 of 2 needed A on hand and plenty of B, the check passes although A is short, and starting the recipe raises removing A |
| ProductionLines.ZeroOnHandStarves | productionline.py:80-88 | a last input needing nothing, with none on hand, makes the check falsy, so the line starves although nothing is short |
| ProductionLines.ProductionLine.constructor | productionline.py:13-29 | before the first start the line is idle on a zero countdown, holding its queue and the shared inventory |
| ProductionLines.ProductionLine.InputsAvailable | productionline.py:74-88 | `_inputs_available` returns the check of the inputs against the inventory |
| ProductionLines.ProductionLine.ConsumeInputs | productionline.py:90-95 | `_consume_inputs` leaves the inventory as the consumption does and raises, naming the failed input, exactly when a removal fails; earlier removals stay made |
| ProductionLines.ProductionLine.SetRecipeClock | productionline.py:38-44 | `_set_recipe_clock` succeeds exactly when `RecipeClock` does, and returns a fresh countdown over the scaled duration |
| ProductionLines.ProductionLine.ProduceOutput | productionline.py:46-57 | `_produce` leaves the line equal to `Produce` of the old line, or raises on an empty queue |
| ProductionLines.ProductionLine.SetNextRecipeActive | productionline.py:70-72 | `_set_next_recipe_active` leaves the line with its queue turned, or raises on an empty queue |
| ProductionLines.ProductionLine.StartNextRecipe | productionline.py:97-104 | `_start_next_recipe` leaves the line equal to `StartNext` of the old line and raises its error |
| ProductionLines.ProductionLine.Step | productionline.py:106-122 | `step` leaves the line equal to `LineStep` of the old line and raises its error |
| ProductionLines.NewLine | productionline.py:13-30 | an unknown recipe raises and leaves the inventory alone; otherwise the new line is the first start of an idle line on the built queue, sharing the given inventory |
| ValueStreams.Restock | valuestream.py:23 | every line sees the same inventory object, so after a step every line holds the inventory the step left (with productionline.py line 26) |
| ValueStreams.RoundPrefix | valuestream.py:48-49 | stepping the first `i` lines keeps one state per line |
| ValueStreams.Round | valuestream.py:48-51 | one pass over the lines keeps one state per line |
| ValueStreams.Rounds | valuestream.py:47-51 | any number of passes keeps one state per line |
| ValueStreams.RoundsNext | valuestream.py:47-49 | one more pass continues a run that has not failed |
| ValueStreams.RunLength | valuestream.py:47-51 | the lines step at least once; once exactly when the target is at most one minute past the start, and otherwise once for every minute up to the target (with clock.py lines 74-84) |
| ValueStreams.FreshRunLength | valuestream.py:26-51 | a run from a fresh clock steps each line once per minute of the duration, and once even for a zero duration |
| ValueStreams.RoundsErrorSticks | valuestream.py:47-51 | a failing pass ends the run; later passes cannot undo it |
| ValueStreams.RoundPrefixErrorSticks | valuestream.py:48-49 | a failing line step ends its pass |
| ValueStreams.RoundsCompose | valuestream.py:47-49 | running `a` passes and then `b` more is running `a + b` passes, and a failure in the first `a` stays the result |
| ValueStreams.RoundPrefixAgrees | valuestream.py:48-49 | two line steps that agree on every line and minute take the same pass over the lines |
| ValueStreams.RoundPrefixOfLineStep | valuestream.py:48-49 | a pass taken with a step that agrees with the line step is the pass of the line step (with productionline.py lines 106-122) |
| ValueStreams.RoundsOfLineStep | valuestream.py:47-51 | so a run with such a step is the run of the line step (with productionline.py lines 106-122) |
| ValueStreams.RoundsAgree | valuestream.py:47-51 | two line steps that agree on every line and minute take the same run, minute after minute |
| ValueStreams.RoundPrefixKeepsQueues | valuestream.py:48-49 | a pass keeps every line's queue items when each step does |
| ValueStreams.RoundsKeepQueues | valuestream.py:47-51 | any number of such passes keep every line's queue items |
| ValueStreams.RunKeepsQueues | valuestream.py:47-51 | a whole run keeps every line's queue items: each line ends with the recipes it was built with (with productionline.py lines 70-72) |
| ValueStreams.RoundPrefixSteps | valuestream.py:48-49 | one more successful line step extends a pass, and every line then sees that step's inventory |
| ValueStreams.RoundPrefixFails | valuestream.py:48-49 | a failing line step fails its whole pass with its own error |
| ValueStreams.ValueStream.constructor | valuestream.py:15-27 | a new stream keeps the inventory, market and duration, and its run clock reads zero |
| ValueStreams.ValueStream.StepOne | valuestream.py:49 | `line.step(clock)` on line `i` extends the pass by that line or fails it with the line's error |
| ValueStreams.ValueStream.StepLines | valuestream.py:48-49 | one pass of the line loop leaves the lines in the states of one round, or fails with its error |
| ValueStreams.ValueStream.StepRound | valuestream.py:47-49 | one minute of the run extends the run by one round |
| ValueStreams.ValueStream.Tick | valuestream.py:47 | `clock.step()` adds one minute to the run clock, reports whether it is still short of the duration, and changes no line (with clock.py lines 74-84) |
| ValueStreams.ValueStream.StepWhileShort | valuestream.py:47-49 | the `while clock.step()` loop either fails with the failure of the whole run, or ends with the lines in the states of all but the run's last round and the clock the run's length on |
| ValueStreams.ValueStream.Turn | valuestream.py:47-49 | one turn of that loop extends the run by one round and ticks the clock a minute; a failing turn is the failure of the whole run |
| ValueStreams.ValueStream.Run | valuestream.py:36-51 | `run` steps every line `RunLength` times: on success the lines hold the states of that many rounds and the clock is that many minutes on; on failure the run of that many rounds fails with the same error |
| ValueStreams.NetOverValues | valuestream.py:101-107 | every key the net loop writes is a key of `ending`, with its ending count minus its starting count (0 when absent) |
| ValueStreams.NetOverOrder | valuestream.py:101-107 | over distinct keys of `ending` the net loop keeps exactly those keys, in their order |
| ValueStreams.CalcOutput | valuestream.py:99-107 | `calc_output` has exactly the keys of `ending`, in its order, each with ending minus starting; keys held only at the start are dropped |
| ValueStreams.CalcOutputUnchanged | valuestream.py:99-107 | with nothing changed every net count is 0 |
| ValueStreams.CalcOutputOfAdd | valuestream.py:99-107 | after one `add` the net output is the added amount for its ticker and 0 for every other ticker held at the start (with inventory.py lines 27-32) |
| ValueStreams.ValuesOverOk | valuestream.py:113-119 | over the first `n` keys the market valuation succeeds exactly when every produced key has a price |
| ValueStreams.ValuesOverFirstError | valuestream.py:116 | a failure names the first produced key without a price (with market.py lines 91-94) |
| ValueStreams.ValuesOverSubtotalKeys | valuestream.py:115-118 | there is a subtotal for a key exactly when it is among the first `n` keys and was produced |
| ValueStreams.ValuesOverSubtotalValues | valuestream.py:115-118 | each subtotal is its product's price times its net count |
| ValueStreams.ValuesOverTotals | valuestream.py:111-119 | the totals fill every price field and keep the supply and demand of `Price()` |
| ValueStreams.ValuesOverIgnoresUnproduced | valuestream.py:115 | keys with a count of 0 or less are never priced: markets that agree on the produced keys give the same values |
| ValueStreams.ValuesOverAdds | valuestream.py:115-119 | each produced key adds its subtotal's four price fields to the running totals, which keep their supply and demand, and any other key changes nothing |
| ValueStreams.KeyWorth | valuestream.py:115-118 | a produced, priced key contributes its price's field times its count to that field of the market value, and any other key contributes nothing |
| ValueStreams.ValuesOverWorth | valuestream.py:111-119 | each price field of the running total over the first `n` keys equals the reference sum `MarketWorth`, that field of `price.multiply(num_produced)` summed over the produced keys |
| ValueStreams.CalcMktValuesSpec | valuestream.py:109-120 | `calc_mkt_values` succeeds exactly when every produced key has a price, names the first one without a price otherwise, has one subtotal, price times count, per produced key, and totals with every field filled, `Price()`'s supply and demand, and each price field equal to `MarketWorth` over all keys, the sum of the produced keys' price field times count |
| GraphNodes.MatchInput | graphnode.py:58-63 | the inner loop of `_init_inputs` keeps the dict well formed |
| GraphNodes.InputsOf | graphnode.py:55-64 | `_init_inputs` gives a well-formed dict |
| GraphNodes.OutputsOf | graphnode.py:66-70 | `_init_outputs` gives a well-formed dict |
| GraphNodes.NewNode | graphnode.py:8-50 | a built node keeps its template key and variant, has a supply cost of 0.0, its total cost is supply plus input cost and its net value gross value minus total cost, both overall and per unit; a key that is neither a market key nor a template raises a KeyError |
| GraphNodes.LastWithId | graphnode.py:57-69 | the last index whose factor has the id, or -1 exactly when no factor has it |
| GraphNodes.LastProducer | graphnode.py:58-59 | the last input node whose outputs hold the id, or -1 exactly when no node's do |
| GraphNodes.OutputsHoldLastCounts | graphnode.py:66-70 | `outputs` holds exactly the listed output ids, each with the count of its last listing |
| GraphNodes.MatchInputTakesLast | graphnode.py:58-63 | for one template input the inner loop leaves the entry of the last node that supplies its material, or no entry when no node does |
| GraphNodes.InputsMatchLastProducer | graphnode.py:55-64 | `inputs` has an entry for an id exactly when the template lists it and some input node supplies it; the entry pairs the id's last listed count with the last such node |
| GraphNodes.GrossValueAppend | graphnode.py:72-77 | the gross value adds up over concatenated output lists |
| GraphNodes.GrossValueOkIff | graphnode.py:72-77 | the gross value can be taken exactly when every output is priced with an average (`None * count` raises) |
| GraphNodes.MarketNodeShape | graphnode.py:29-50 | a '.MKT' node is built exactly when its ticker is priced with an average; it then outputs one unit of the ticker, has no inputs, costs the average price overall and per unit, has no gross value and is described by its key; an unknown ticker raises "not found" |
| GraphNodes.TemplateNodeFails | graphnode.py:37-45 | a template node fails first on an unpriced output, and otherwise exactly when its output counts sum to zero, with a division by zero (with lines 79-84) |
| GraphNodes.TemplateNodeValues | graphnode.py:37-45 | a built template node has the description, inputs, outputs, gross value and input cost of its template and input nodes, and its per-unit values are those spread over the non-zero summed output counts |
| GraphNodes.InitInputs | graphnode.py:55-64 | the loops of `_init_inputs` compute `InputsOf` |
| GraphNodes.InitOutputs | graphnode.py:66-70 | the loop of `_init_outputs` computes `OutputsOf` |
| GraphNodes.GrossValueErrorSticks | graphnode.py:74-76 | once a prefix of the outputs fails to be valued, the whole gross value fails with that error |
| GraphNodes.CalcGrossValue | graphnode.py:72-77 | the loop of `_calc_gross_value` computes `GrossValue` |
| GraphNodes.CountUnits | graphnode.py:81-83 | the loop over the output keys computes `Units` |
| GraphNodes.CalcInputCost | graphnode.py:86-91 | the loop of `_calc_input_cost` computes `InputCost` |
| GraphNodes.InitMarketFields | graphnode.py:31-36 | the '.MKT' branch computes `MarketFields` |
| GraphNodes.InitTemplateFields | graphnode.py:37-45 | the template branch computes `TemplateFields` |
| GraphNodes.InitFields | graphnode.py:31-45 | the `if` of `_init_node` computes `Fields` |
| GraphNodes.InitNode | graphnode.py:8-50 | the constructor fills the node as `NewNode` says |
| BuildGraph.Prefixed | build-graph.py:140-143 | the inner loop gives one combination per subcombination, in order, each the option followed by that subcombination |
| BuildGraph.Cross | build-graph.py:139-143 | the two nested loops give as many combinations as options times subcombinations |
| BuildGraph.CombineCount | build-graph.py:131-148 | there are as many combinations as the product of the option-list lengths |
| BuildGraph.ProductZero | build-graph.py:131-148 | an empty option list anywhere makes that product 0 |
| BuildGraph.AnyEmptyGivesNone | build-graph.py:131-148 | no option lists, or an empty one anywhere, give no combination at all |
| BuildGraph.PrefixedMembers | build-graph.py:140-143 | a combination comes from the inner loop exactly when it starts with the option and continues with a subcombination |
| BuildGraph.CrossMembers | build-graph.py:139-143 | a combination comes from the nested loops exactly when it starts with an option of the head and continues with a subcombination |
| BuildGraph.CombineMembers | build-graph.py:131-148 | a list is a combination exactly when it picks one element from each position's option list |
| BuildGraph.CrossAt | build-graph.py:139-143 | option `q` with subcombination `j` sits at position `q * k + j`, for `k` subcombinations |
| BuildGraph.CombineOrder | build-graph.py:131-148 | the combinations come in lexicographic order: option `q` of the first list with subcombination `j` is at position `q * k + j` |
| BuildGraph.CombineOne | build-graph.py:144-147 | a single option list gives one singleton per option, in order |
| BuildGraph.Repeat | build-graph.py:113-118 | `n` copies of the key |
| BuildGraph.IdsOfPrefix | build-graph.py:109-118 | the ids of a list are those of all but its last factor plus the last one's |
| BuildGraph.AbsentNoOccurrences | build-graph.py:113-118 | an id not in the list occurs 0 times |
| BuildGraph.AddInputsMeaning | build-graph.py:109-112 | a template's inputs add each new ticker with its market key only and leave existing entries alone |
| BuildGraph.AddOutputsMeaning | build-graph.py:113-118 | a template's outputs append the template key once per listing of the ticker, after the market key for a new ticker |
| BuildGraph.UnmentionedHasNoProducers | build-graph.py:104-119 | a ticker no template mentions has no producing template |
| BuildGraph.SourcesOverMeaning | build-graph.py:104-119 | the source map holds exactly the tickers the templates mention; each maps to its market key followed by the keys of the templates producing it, in template order |
| BuildGraph.SourceMapMeaning | build-graph.py:104-119 | the same for `create_source_map` over the template dict in its key order |
| BuildGraph.CreateSourceMap | build-graph.py:104-119 | the loops of `create_source_map` compute the source map |
| BuildGraph.NeedIds | build-graph.py:95-96 | the tickers of a list of needs, in order |
| BuildGraph.SupplyFromMeaning | build-graph.py:95-99 | the supply map prices every need ticker with its market average and holds nothing else; it fails exactly when some need ticker has no price, naming the first one |
| BuildGraph.SupplyErrorSticks | build-graph.py:97 | once the supply map has failed, later tickers change nothing |
| BuildGraph.NeedIdsPrefix | build-graph.py:95-96 | the tickers of a prefix of the needs are a prefix of their tickers |
| BuildGraph.SiteNeedIdsPrefix | build-graph.py:92-96 | the need tickers of a prefix of a planet's worker types are a prefix of that planet's |
| BuildGraph.CatalogNeedIdsPrefix | build-graph.py:90-96 | the need tickers of a prefix of the planets are a prefix of the catalog's |
| BuildGraph.PrefixAppend | build-graph.py:90-96 | appending prefix-related ticker lists to the same visited list keeps the prefix relation |
| BuildGraph.NeedsErrorSticks | build-graph.py:95-97 | a failure part-way through one need list is the failure of the whole walk |
| BuildGraph.CatalogStep | build-graph.py:90-96 | one more planet adds its worker types' need tickers after those of the earlier planets |
| BuildGraph.CatalogErrorSticks | build-graph.py:90-97 | a failure part-way through the planets is the failure of the whole walk |
| BuildGraph.SiteErrorSticks | build-graph.py:92-97 | a failure part-way through one planet's worker types is the failure of the whole walk |
| BuildGraph.SiteStep | build-graph.py:92-96 | one more worker type adds its needs' tickers after those of the earlier types, and nothing when it has no `needs` |
| BuildGraph.SupplyAppend | build-graph.py:96-99 | one more ticker raises when unpriced, and otherwise is added with its average price when new and changes nothing when already present |
| BuildGraph.NeedsStep | build-graph.py:95-96 | one more need adds its ticker to the walk |
| BuildGraph.SupplyNeeds | build-graph.py:95-99 | the needs' loop continues the supply map over the need tickers |
| BuildGraph.SupplySite | build-graph.py:92-99 | the worker types' loop for one planet continues the supply map over that planet's need tickers |
| BuildGraph.CreateSupplyMap | build-graph.py:86-100 | `create_supply_map` walks planets, worker types and needs in order and computes the supply map |
| BuildGraph.VariantsOk | build-graph.py:179-183 | the variant loop fails exactly when building one of the nodes does |
| BuildGraph.VariantsLast | build-graph.py:179-183 | a successful variant loop is the loop over the earlier combinations followed by the node of the last one |
| BuildGraph.VariantsValues | build-graph.py:179-183 | node `i` is variant `i` of the key, built from combination `i` |
| BuildGraph.InputOptionsOk | build-graph.py:169-175 | the inputs' loop fails exactly when an input has no sources entry or one of its sources' trees fails |
| BuildGraph.InputOptionsValues | build-graph.py:169-175 | each input gets the trees of its sources, in input order |
| BuildGraph.SourceTreesOutOfFuel | build-graph.py:172-173 | with sources to follow and no fuel left the builder stops with an error |
| BuildGraph.SourceTreesAllOk | build-graph.py:172-174 | when the sources' loop succeeds, every source's own tree does |
| BuildGraph.SourceTreesOkIfAll | build-graph.py:172-174 | when every source's own tree succeeds, so does the sources' loop |
| BuildGraph.SourceTreesOk | build-graph.py:172-174 | with fuel left, the sources' loop succeeds exactly when every source's own tree does |
| BuildGraph.ProdTreeShape | build-graph.py:155-186 | a market key gives one variant-0 node with no inputs, built exactly when its ticker has an average price; an unknown template raises a KeyError; a template without inputs gives one variant-0 node; otherwise there is one node per input combination, as many as the product of the option counts, node `i` being variant `i` built from combination `i` |
| BuildGraph.LowerOver | build-graph.py:197-199 | lowering over one template's variants keeps the supply map's keys |
| BuildGraph.UpdateOver | build-graph.py:194-199 | lowering over the templates keeps the supply map's keys |
| BuildGraph.CostsOf | build-graph.py:198 | the total cost per unit of each variant, in order |
| BuildGraph.MinOfIsMinimum | build-graph.py:197-199 | the running minimum is no greater than the starting cost or any cost, and is one of them |
| BuildGraph.MinOfAppend | build-graph.py:194-199 | the running minimum over two lists is the minimum over the second starting from that over the first |
| BuildGraph.LowerOverMeaning | build-graph.py:197-199 | lowering a material with a cost sets it to the minimum of its cost and the variants' costs; a material without a cost is left alone when there are no variants and raises (`<` against `None`) otherwise |
| BuildGraph.CostsStep | build-graph.py:194-197 | one more template adds its variants' costs to a material's competing costs exactly when its key prefix is that material |
| BuildGraph.UpdateOverOk | build-graph.py:194-199 | lowering succeeds exactly when every tracked material without a cost has no competing costs, fails only with the `None` comparison, and keeps which materials lack a cost |
| BuildGraph.UpdateOverValues | build-graph.py:194-199 | every tracked material with a cost ends at the minimum of that cost and its competing costs |
| BuildGraph.UpdatedSupplyLowers | build-graph.py:190-200 | `update_supply` keeps the keys and never raises a cost: a material's new cost is at most its old one and every competing cost, is one of them, and stays put without competitors |
| BuildGraph.LowerErrorSticks | build-graph.py:197-199 | once lowering over a prefix of the variants fails, lowering over all of them fails the same way |
| BuildGraph.UpdateErrorSticks | build-graph.py:194-199 | once lowering over a prefix of the templates fails, lowering over all of them fails the same way |
| BuildGraph.UpdateSupply | build-graph.py:190-200 | the loops of `update_supply` compute the updated supply |
| ModelGoals.IndexOf | model-goals.py:32-38 | the index of a worker type in the five-type workforce list; an unknown type raises, naming it |
| ModelGoals.WorkforceOf | model-goals.py:35-40 | a workforce vector has one slot per worker type |
| ModelGoals.WorkforceMeaning | model-goals.py:35-40 | slot `i` sums the counts of worker type `i`; the vector exists exactly when every slot names a known type, and otherwise the first unknown type is reported |
| ModelGoals.WorkforceErrorSticks | model-goals.py:37-39 | once the loop raises on a prefix of the slots, it raises the same way on all of them |
| ModelGoals.FormatBuildingWorkers | model-goals.py:35-40 | the loop of `format_building_workers` computes the workforce vector |
| ModelGoals.Plus | model-goals.py:69-71 | adding two vectors adds them slot by slot |
| ModelGoals.Minus | model-goals.py:72 | the surplus subtracts slot by slot |
| ModelGoals.CrewOf | model-goals.py:62-71 | capacity and demand both have one slot per worker type |
| ModelGoals.CrewMeaning | model-goals.py:62-71 | capacity slot `i` sums worker type `i` over the site's habitations, demand slot `i` over its other catalog buildings; uncatalogued buildings count for nothing |
| ModelGoals.CrewOk | model-goals.py:62-71 | capacity and demand exist exactly when every catalogued building's workers are all of known types |
| ModelGoals.WorkerStateSurplus | model-goals.py:57-74 | the worker state's surplus is capacity minus demand, slot by slot, with capacity and demand as above |
| ModelGoals.NeedsAddedMeaning | model-goals.py:50-53 | one worker type's needs add `count / basis * rate` of each need's ticker to the stock |
| ModelGoals.ConsumptionMeaning | model-goals.py:42-55 | each ticker's daily consumption sums, over the worker types with positive demand, `demand / basis * rate` for each of that type's needs of the ticker |
| ModelGoals.IdleConsumesNothing | model-goals.py:46-47 | without positive demand the consumption is empty and nothing is looked up in the worker catalog |
| ModelGoals.NeedsErrorSticks | model-goals.py:50-53 | once the needs' loop raises on a prefix, it raises the same way on all the needs |
| ModelGoals.ConsumptionErrorSticks | model-goals.py:46-54 | once the demand loop raises on a prefix, it raises the same way on all the demand |
| ModelGoals.AddNeeds | model-goals.py:50-53 | the needs' loop for one worker type computes its contribution |
| ModelGoals.GetWorkerConsumption | model-goals.py:42-55 | the loops of `get_worker_consumption` compute the consumption |
| ModelGoals.CrewErrorSticks | model-goals.py:62-71 | once the building loop raises on a prefix, it raises the same way on all the buildings |
| ModelGoals.IdentifyWorkerState | model-goals.py:57-74 | the loop of `identify_worker_state` computes capacity, demand, surplus and consumption |
| ModelGoals.AreaOf | model-goals.py:76-86 | available plus consumed area is the total, which is the site's area |
| ModelGoals.ConsumedAppend | model-goals.py:79-80 | the consumed area of two building lists together is the sum of theirs |
| ModelGoals.CalcArea | model-goals.py:76-86 | the loop of `calc_area` computes the site's area accounting |
| ModelGoals.TickerCounts | model-goals.py:89-95 | the tally is a well-formed insertion-ordered dict |
| ModelGoals.OccurrencesAbsent | model-goals.py:92-95 | a ticker no building carries is counted 0 times |
| ModelGoals.FirstIndexMeaning | model-goals.py:92-95 | the first building carrying a ticker is found, and no index is found exactly when none carries it |
| ModelGoals.CarriesStep | model-goals.py:90-91 | the tickers of a list are those of all but its last building plus the last one's |
| ModelGoals.TickerCountsKeys | model-goals.py:89-95 | the tally holds exactly the site's tickers, each with the number of its buildings |
| ModelGoals.OrderStep | model-goals.py:92-95 | one more building keeps a first-seen order, extended by its ticker when that ticker is new |
| ModelGoals.TickerCountsOrderStep | model-goals.py:92-95 | a building's ticker joins the dict's key order exactly when no earlier building carries it |
| ModelGoals.TickerCountsOrder | model-goals.py:89-95 | the dict's keys are in the order in which each ticker first appears |
| ModelGoals.TickerCountsMeaning | model-goals.py:89-95 | the tally lists each ticker once, counts its buildings, and keeps first-seen order |
| ModelGoals.SummaryParts | model-goals.py:97-100 | one `'T: n'` part per key, in key order |
| ModelGoals.BuildingSummaryParts | model-goals.py:88-101 | the summary joins with `', '` one `'T: n'` part per distinct ticker, in first-seen order, with `n` the number of its buildings |
| ModelGoals.CreateBuildingSummary | model-goals.py:88-101 | the counting and formatting loops of `create_building_summary` compute the summary |
| ModelGoals.Erected | model-goals.py:133-142 | the new building carries the ticker, condition 100.0 and the catalog entry's area |
| ModelGoals.BuildConsumesArea | model-goals.py:132-147 | building one more takes its area from what is available and adds one to its ticker's tally (with lines 76-86) |
| ModelGoals.Site.constructor | model-goals.py:62 | a site starts with the given buildings |
| ModelGoals.Site.Build | model-goals.py:132-147 | `build` appends the catalog building for the ticker and returns the catalog's materials as the consumption; an unknown ticker raises a KeyError before anything changes |
| TemplateExtract.FactorsOf | extract-template-data.py:32-41 | one `{id, count}` pair per factor, in factor order, with the material's ticker and the factor |
| TemplateExtract.RecipeTickerMeaning | extract-template-data.py:32-37 | a template gets a ticker exactly when some output material is named like the recipe, and the last such output gives it |
| TemplateExtract.TimeOfNormalized | extract-template-data.py:45-46 | the template's time is what the duration's normalisation makes of a lone seconds field |
| TemplateExtract.TimeOfParsed | extract-template-data.py:45-46 | `str(seconds)` parses as a duration to exactly the template's time, which is in normal form and is `seconds / 60` minutes long |
| TemplateExtract.ReadOutputs | extract-template-data.py:32-37 | the output loop gives the pairs and the ticker of the last output named like the recipe |
| TemplateExtract.ReadInputs | extract-template-data.py:38-41 | the input loop gives the input pairs |
| TemplateExtract.BuildTemplate | extract-template-data.py:24-48 | `build_template` computes the template record of the recipe |
| TemplateExtract.ReactorTicker | extract-template-data.py:50-54 | the reactor ticker of the first platform whose reactor name matches, and `None` exactly when none does |
| TemplateExtract.LookupTicker | extract-template-data.py:50-54 | the loop of `lookup_ticker` returns that first match |
| TemplateExtract.Group | extract-template-data.py:76-79 | grouping one template keeps the collection a well-formed insertion-ordered dict |
| TemplateExtract.RecipeTemplates | extract-template-data.py:74-75 | one template per recipe |
| TemplateExtract.TickersMeaning | extract-template-data.py:76-79 | the collection's tickers are exactly those some template carries |
| TemplateExtract.WithTickerAppend | extract-template-data.py:76-79 | one more template joins its own ticker's list and no other |
| TemplateExtract.WithTickerAbsent | extract-template-data.py:76-79 | a ticker no template carries has no templates |
| TemplateExtract.GroupStep | extract-template-data.py:76-79 | grouping one more template that has a ticker extends the grouping by it |
| TemplateExtract.GroupAllOk | extract-template-data.py:74-79 | grouping succeeds exactly when every template has a ticker (`template['ticker']` raises otherwise) |
| TemplateExtract.GroupAllGrouped | extract-template-data.py:64-79 | from an empty collection, templates that all carry tickers are grouped exactly: per ticker, its templates in encounter order |
| TemplateExtract.GroupAllConcat | extract-template-data.py:66-79 | grouping two runs of templates is grouping the first and then the second onto it |
| TemplateExtract.LineNamed | extract-template-data.py:74-76 | a line's templates all carry tickers exactly when each of its recipes has an output named like itself (with lines 36-37) |
| TemplateExtract.CollectedOk | extract-template-data.py:66-79 | the first loop of main succeeds exactly when every line stands on a known site and every recipe names one of its outputs |
| TemplateExtract.CollectedIsGroupAll | extract-template-data.py:66-79 | a successful first loop groups all the lines' templates at once |
| TemplateExtract.CollectedGrouped | extract-template-data.py:66-79 | after the first loop each ticker lists its templates in encounter order |
| TemplateExtract.DotBeforeDigits | extract-template-data.py:85 | in `key + "." + str(i)` the last '.' is the one before the number |
| TemplateExtract.NameInjective | extract-template-data.py:85 | distinct (ticker, number) pairs get distinct names |
| TemplateExtract.NumberKeyAt | extract-template-data.py:83-86 | numbering one group writes `key.i` for its `i`-th template, counting from 1 |
| TemplateExtract.NumberKeyFrame | extract-template-data.py:83-86 | numbering one group adds only names `key.i` and keeps every other entry |
| TemplateExtract.NumberKeyMeaning | extract-template-data.py:83-86 | both of the above together |
| TemplateExtract.NumberKeysValues | extract-template-data.py:81-86 | after numbering, every listed group's `i`-th template sits under `key.i` |
| TemplateExtract.NumberKeysDomain | extract-template-data.py:81-86 | every name written is `key.i` for a listed group and one of its positions |
| TemplateExtract.NumberedMeaning | extract-template-data.py:81-86 | every template of every group appears under `ticker.i`, and every name is one of those |
| TemplateExtract.CollectedWf | extract-template-data.py:64-79 | the collection the first loop builds is a well-formed dict |
| TemplateExtract.GroupAllWf | extract-template-data.py:76-79 | grouping keeps the collection well formed |
| TemplateExtract.ExtractTemplatesMeaning | extract-template-data.py:56-86 | main succeeds exactly when every line stands on a known site and every recipe names an output; then every template has a ticker, the `i`-th template with ticker `k` in encounter order is written under `k.i`, and nothing else is written |
| TemplateExtract.GroupAllErrorSticks | extract-template-data.py:74-79 | once grouping a prefix fails, grouping all the templates fails the same way |
| TemplateExtract.GroupRecipesStep | extract-template-data.py:74-79 | grouping the templates of one more recipe is one more step of the grouping |
| TemplateExtract.GroupRecipesErrorSticks | extract-template-data.py:74-79 | once grouping a prefix of a line's recipes fails, grouping them all fails alike |
| TemplateExtract.GroupPut | extract-template-data.py:76-79 | a template with a ticker is appended to that ticker's list, or starts one |
| TemplateExtract.GroupLineStep | extract-template-data.py:74-79 | one turn of the recipe loop: a template without a ticker fails the whole line, one with a ticker is appended to or starts its list |
| TemplateExtract.GroupLineRecipes | extract-template-data.py:74-79 | the recipe loop of one line computes its grouping |
| TemplateExtract.CollectedErrorSticks | extract-template-data.py:66-79 | once the line loop fails on a prefix, it fails the same way on all the lines |
| TemplateExtract.CollectTemplates | extract-template-data.py:64-79 | the first loop of main computes the collection |
| TemplateExtract.NumberGroup | extract-template-data.py:83-86 | the numbering loop for one group computes its entries |
| TemplateExtract.NumberTemplates | extract-template-data.py:81-86 | the second loop of main computes the numbered map |
| TemplateExtract.Extract | extract-template-data.py:56-86 | main's two loops compute the template file's contents |
| StateRecords.KeyedMeaning | extract-building-data.py:79-82 | the dict filled by `d[key(x)] = val(x)` holds exactly the records' keys, and under each the value of the last record carrying it (with extract-site-data.py lines 75-90) |
| StateRecords.KeyedLast | extract-building-data.py:79-82 | a record whose key no later record repeats is the one kept under that key (with extract-site-data.py lines 75-90) |
| StateRecords.LatestMeaning | extract-site-data.py:26-34 | the last address line of a type is the one no later line of that type follows, and there is none exactly when no line has the type |
| StateRecords.AddressOfLatest | extract-site-data.py:24-35 | the planet fields come from the last PLANET line and the system fields from the last SYSTEM line; a field stays unset when no line has its type |
| StateRecords.ExtractAddress | extract-site-data.py:24-35 | the loop of `extract_address` computes the address |
| StateRecords.MaterialsMeaning | extract-building-data.py:23-28 | every ticker of the quantities is a key, no other, and it maps to the amount of its last occurrence (with extract-site-data.py lines 37-42) |
| StateRecords.LoadMaterials | extract-building-data.py:23-28 | the loop of `load_materials` computes the materials dict (with extract-site-data.py lines 37-42) |
| InventoryExtract.ItemsAddedMeaning | extract-inventory-data.py:49-55 | one store's items add exactly their tickers as keys and raise each ticker's total by the sum of its items' amounts |
| InventoryExtract.StoreTickersStep | extract-inventory-data.py:46-49 | one more store adds its own item tickers when it is a STORE, and nothing otherwise |
| InventoryExtract.TotalsMeaning | extract-inventory-data.py:44-55 | the inventory holds exactly the tickers of items in STORE stores, and each total is the sum of its amounts over those stores |
| InventoryExtract.OnlyStoredTickers | extract-inventory-data.py:44-55 | a ticker found in no STORE store gets no entry, not even a zero one |
| InventoryExtract.SummarizeStores | extract-inventory-data.py:44-55 | the loops of main compute the inventory |
| BrokerExtract.Truthy | extract-broker-data.py:59-62 | a supply or demand is kept exactly when it is non-zero |
| BrokerExtract.BuildPrice | extract-broker-data.py:42-63 | the record has all six keys; last, ask, bid and average are the broker's (absent when absent), supply and demand are set exactly when non-zero |
| BrokerExtract.BuiltPriceReads | extract-broker-data.py:42-63 | a built record always reads back as a price holding the broker's values (with market.py lines 12-25) |
| BrokerExtract.PricesKeys | extract-broker-data.py:65-76 | the tables hold exactly the exchanges some broker trades on, and under each exactly the tickers traded there |
| BrokerExtract.PricesLast | extract-broker-data.py:65-76 | each record is the one built from the last broker trading that ticker on that exchange |
| BrokerExtract.LoadPrices | extract-broker-data.py:65-76 | the loop of `load_prices` computes the price tables |
| BrokerExtract.ExchangesMeaning | extract-broker-data.py:29-40 | every exchange code is a key, no other; each entry carries its code, the name and currency of the last entry with that code, and no prices |
| BrokerExtract.LoadExchanges | extract-broker-data.py:29-40 | the loop of `load_exchanges` computes the exchanges |
| BrokerExtract.CategoriesMeaning | extract-broker-data.py:23-27 | every category id is a key, no other, and maps to the name of its last entry |
| BrokerExtract.LoadCategories | extract-broker-data.py:23-27 | the loop of `load_categories` computes the categories |
| BrokerExtract.Attached | extract-broker-data.py:87-90 | the merge keeps every exchange and its code, name and currency, and gives each exchange with a table that table |
| BrokerExtract.AttachPrices | extract-broker-data.py:87-90 | the merge loop of main computes the merge |
| BrokerExtract.ExtractExchangesMeaning | extract-broker-data.py:78-90 | the file holds exactly the exchanges of the exchange data, each under its own code; an exchange no broker trades on has no prices, and otherwise exactly the tickers traded there, each holding the record built from the last broker trading that pair; tables of unknown exchanges are dropped |
| BrokerExtract.ExtractedMarketsBuild | extract-broker-data.py:78-90 | every record of every exchange in the file reads as a price (with market.py lines 12-25) |
| BrokerExtract.LastTrade | extract-broker-data.py:67-75 | a pair some broker trades has a last broker trading it |
| BrokerExtract.Extract | extract-broker-data.py:78-90 | main computes the exchanges, the prices and the merge |
| BuildingExtract.Workers | extract-building-data.py:30-53 | a habitation ticker gets its fixed worker list whatever the capacities say; any other gets one `{type, count}` slot per capacity, in order |
| BuildingExtract.HabitationTypesKnown | extract-building-data.py:30-40 | every habitation entry names only the five known worker types (with model-goals.py line 32) |
| BuildingExtract.HabitationWorkforce | extract-building-data.py:30-40 | so the site planner's workforce vector accepts every habitation entry (with model-goals.py lines 35-40) |
| BuildingExtract.HabitationVectors | extract-building-data.py:31-36 | a single-type module houses 100 of its type, a two-type module 75 of each |
| BuildingExtract.LoadWorkers | extract-building-data.py:42-53 | `load_workers` computes the worker list |
| BuildingExtract.OptionsMeaning | extract-building-data.py:79-81 | the options walked are exactly those of the sites |
| BuildingExtract.BuildingsKeys | extract-building-data.py:77-82 | the catalog holds exactly the tickers offered at some site |
| BuildingExtract.BuildingsLast | extract-building-data.py:77-82 | each entry is built from the last option with its ticker: a later site's option overwrites |
| BuildingExtract.BuildingsEntries | extract-building-data.py:55-82 | each entry carries its own ticker, and the fixed worker list when it is a habitation module |
| BuildingExtract.KeyedOptionsStep | extract-building-data.py:81-82 | one more option overwrites its ticker's entry with the entry built from it |
| BuildingExtract.AddOptions | extract-building-data.py:55-82 | the option loop for one site continues the catalog |
| BuildingExtract.ExtractBuildings | extract-building-data.py:77-82 | the loops of main compute the building catalog |
| SiteExtract.SiteBuildings | extract-site-data.py:80-85 | one building per platform |
| SiteExtract.ConsumedIsPlatformArea | extract-site-data.py:81-84 | the consumed area of the buildings is the summed area of the platforms |
| SiteExtract.SiteRecordMeaning | extract-site-data.py:44-98 | a site's record has one building per platform in order, carrying its module, area, condition, book value and materials; the consumed area is the platforms' sum and the available area is the rest |
| SiteExtract.SiteAddress | extract-site-data.py:77 | the record's planet name and id come from the site's last PLANET line (with lines 24-35) |
| SiteExtract.BuildSite | extract-site-data.py:76-98 | the body of the site loop computes the record |
| SiteExtract.HasPlanetMeaning | extract-site-data.py:29-31 | a site has a planet name exactly when one of its address lines is a PLANET line |
| SiteExtract.SitesMeaning | extract-site-data.py:74-100 | the loop succeeds exactly when every site has a planet name and then keys every record by it; it fails only with the `planet-name` KeyError |
| SiteExtract.SitesKeys | extract-site-data.py:74-100 | then the file holds exactly the planet names of the sites |
| SiteExtract.SitesLast | extract-site-data.py:90 | a site that no later site shares a planet with is the one kept for its planet |
| SiteExtract.ExtractSites | extract-site-data.py:74-100 | the site loop of main computes the sites file |

## Left out

- Files, printing and the command line: every script's argument parsing, YAML and JSON loading and dumping, the prints, the run log and the report text (reportgen.py, `Ledger.output_summary`, `print_state`, `execute_goals`, `execute_actions`). The model starts from the parsed records and ends with the values written.
- Clock and date calls (`datetime.now`, `date.today`, `date.fromtimestamp`): the stream id, the timestamps and the created dates are not fields of the model's records, because their values depend on when and where the scripts run.
- Floating point: prices, efficiencies, quantities and areas are `real`, so arithmetic is exact; IEEE rounding is not modelled.
- `int()` on strings accepts only digit strings here; Python also accepts whitespace, signs and underscores.
- `Clock.WithMultiplier`: `Duration.apply_multiplier` is called at productionline.py:42 but its definition is not part of this model; the model takes it to multiply the total in minutes by `n` and normalise, and claims nothing beyond that.
- `Duration.to_days` and `Inventory.diff`, `add_all` and `summarize_inventory` are called but their definitions are not part of this model, so the goal consumption totals, the inventory summaries and the stream's inventory difference are left out.
- The `ProductionLines` catalog of configuration.py is not part of this model: a production line's specification, with its efficiency, is a constructor parameter.
- valuestream.py builds lines with four arguments and reads `line.ledger`, neither of which the shown productionline.py has: the stream is built from ready lines, and the ledger merge takes the lines' ledgers as a list.
- The inventory snapshots that `run` takes by a JSON round trip, and the rest of `summarize_run` beyond the ledger merge.
- Aliasing of the caller's dicts: `Inventory` keeps the caller's dict by reference and a site's building list is the loaded list itself. In the model the inventory is a class, so it is shared like the Python object, but the caller's original map value is not.
- `BuildGraph.ProdTree`: recursion spends one unit of fuel per level of sources, and `OutOfFuel` stands for the non-termination of cyclic recipes; `TREE_CACHE` is left out, the trees are recomputed each time, and the main loop's five passes and `write_csv` are left out.
- Key order of plain Python dicts where only a report or a YAML dump shows it; the dicts whose order the code itself depends on (the building summary, the template collection) are ordered dicts in the model.
- `TemplateExtract.TimeOf`: the template's `time` is kept as the duration's fields, not as its display string.
- Missing keys in the state file: the records are typed, so a missing field cannot be expressed. The exceptions the code raises on purpose or on lookups of one record in another (an unknown site, an unset ticker, a missing planet name, an unknown template) are modelled as errors.
- Broker fields the code tests for truthiness are `Option`s; a zero supply or demand is left unset, as the code does.
- The `extract_address` of extract-inventory-data.py is never called there; it is the same loop as extract-site-data.py's, modelled once as `StateRecords.ExtractAddress`.
- The text of the ledger's missing-input and missing-supply lines: each line is kept as the record of its fields, in entry order.
- `Markets.NewMarket`: the exchange's price records are a map, which has no order, so the order in which the exchange data lists its tickers is a parameter beside it; the method reads the records in that order.
- `Ledgers.SummarizeEfficiencies`: `_summarize_efficiencies` returns `{}` when there are no efficiency entries; the model returns `None`.
- The thin scripts (query-yaml.py, gen-order-report.py, extract-all.py, calc-shopping-cost.py, model-valstream.py, modelvalstream.py, extract-worker-data.py, extract-order-data.py, extract-test.py) and the test drivers, apart from the two examples of testdrivers/clockdriver.py, are not part of this model.

