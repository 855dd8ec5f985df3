# Czar-Taxi incentive engine, modelled in Dafny

This project models the back end of the Czar-Taxi incentive system. Taxi drivers are grouped in a
four-level tree:
- the tsar;
- up to 10 centurions ("sotnik");
- up to 100 decurions ("desyatnik");
- drivers.

Each season the system does the following:
- imports the hours every driver worked from a spreadsheet;
- rolls the hours up the tree into daily and season aggregates, with a target for each member;
- ranks the members inside their groups;
- reshapes the tree at season end by promotions and demotions;
- shuffles the groups;
- watches the hours for signs of fraud.

The model covers these services under `server/services/`:

| Service | Dafny file | What it holds |
|---|---|---|
| `calculations.ts` | `calculations.dfy` | The aggregation and the rankings. The tree roll-up they share is in `team_rollup.dfy`. |
| `role-transitions.ts` | `role_transitions.dfy` and `redistribution.dfy` | The season-end cascade, and the group shuffle. |
| `anti-fraud.ts` | `anti_fraud.dfy` | The three fraud scans. |
| `xlsx-processor.ts` | `xlsx_processor.dfy` | Phone normalisation, the hours-cell check and the row/column loop of `processFile`. |
| `export.ts` | `export.dfy` | `generateCSV`, and a reader showing that its output can be read back. |
| `analytics.ts` | `analytics.dfy` | The growth average, the goal-progress loop and the distribution histogram. |
| `telegram-bot.ts` | `telegram_bot.dfy` | The bot's phone normalisation. |

Three files hold the shared records, all from `shared/schema.ts`:
- `hierarchy.dfy`: the role assignment record and the filters the services apply to it;
- `results.dfy`: the season aggregate record, `compareResults` and a stable descending sort;
- `storage.dfy`: the tables.

`objects.dfy` holds `Object.keys`, which both the sheet importer and the CSV export read.

How the code is modelled:
- **State and storage.** The services hold no state of their own; everything they change is in the database. Each table is a value: a sequence of rows, or a map keyed by the table's natural key. Each write a service issues becomes either an upsert on that value or an entry in an ordered write log. Service methods take the table before and return the table after. Loops stay loops, each proved against a specification function. The properties the code promises are then proved about those functions.
- **Numbers.** Hours are exact `real`s and dates are day indices.
- **Inputs.** What the code asks for from outside becomes a parameter:
  - `Math.random()` becomes the list of picks `picks`;
  - `new Date()` becomes `today`;
  - `storage.getUser` and `storage.getUserByPhone` become maps;
  - `parseDate` becomes a table of the column names it accepts.

Behaviour of the code worth noting:
- Centurions are ranked globally by `total` alone (`calculations.ts:263-266`), not by the full `compareResults` order.
- The new tsar is the `compareResults`-best centurion that has a season row (`role-transitions.ts:133-148`).
- `maintained` lists only the up to four centurions after the new tsar (`role-transitions.ts:165-170`), not every member who kept a role.
- `targetPercent` is guarded by `target > 0` alone (`calculations.ts:179`).

## Model

| member | source | states |
|---|---|---|
| Hierarchy.Filter | server/services/calculations.ts:130 | A filter keeps exactly the assignments its predicate picks, never more than it was given, and keeps users distinct |
| Hierarchy.FindByUser | server/services/role-transitions.ts:58 | `find` by user returns an assignment of that user, and returns nothing exactly when the user has none |
| Hierarchy.FindByRole | server/services/role-transitions.ts:127 | `find` by role returns an assignment with that role, and returns nothing exactly when no assignment has it |
| Hierarchy.FindByUserUnique | shared/schema.ts:38 | Under the unique (season, user) key, `find` by user returns the user's one assignment |
| Objects.Keys | server/services/xlsx-processor.ts:33 | `Object.keys` lists the row's keys in order, one per entry |
| Storage.Find | server/services/calculations.ts:259 | A lookup by natural key returns a row with that key, and returns nothing exactly when no row has it |
| Storage.Upsert | server/storage.ts:154-163 | After an upsert, the written key reads the new row and every other key reads as before |
| Storage.SetRankLookup | server/storage.ts:188-191 | `updateAggregateSeason` with a rank changes only that user's row, and only the rank column, and only when the row exists |
| Results.CompareResultsIsLexicographic | server/services/role-transitions.ts:354-367 | compareResults is positive exactly when `a` is better lexicographically by total, then personal, then target percent. It is antisymmetric and zero exactly on ties |
| Results.CompareTotalPreorder | server/services/calculations.ts:266 | Both comparators, by total alone and by compareResults, are total and transitive preorders |
| Results.InsertDesc | server/services/calculations.ts:292-304 | Inserting into a best-first list keeps it best first and adds exactly the element |
| Results.SortDesc | server/services/role-transitions.ts:42-43 | The descending sort is a permutation of its input, and best first |
| Results.SortDescHeadIsBest | server/services/role-transitions.ts:136-141 | The head of a sorted non-empty list is at least as good as every element |
| TeamRollup.DecurionTotalsIsLayers | server/services/calculations.ts:128-137 | A list of distinct decurions with their teams weighs as much as the decurions plus all their drivers |
| TeamRollup.CenturionTeamIsSubtree | server/services/calculations.ts:122-138 | A centurion's team is its decurions plus their drivers |
| TeamRollup.CenturionTotalsIsLayers | server/services/calculations.ts:110-117 | Distinct centurions with their teams weigh as much as the three layers below them, each member once |
| TeamRollup.TsarTeamIsSubtree | server/services/calculations.ts:105-120 | The tsar's team is every centurion, every decurion under one and every driver under those, each counted once |
| TeamRollup.SumUnderSplit | server/services/calculations.ts:147 | The members under two disjoint sets of parents weigh the sum of the two parts |
| TeamRollup.IdsUnderDisjoint | shared/schema.ts:38 | With one assignment per user, the children of disjoint parent sets are disjoint |
| Calculations.CalculateDecurionTeamHours | server/services/calculations.ts:140-153 | The loop returns the summed hours of the decurion's drivers, a driver with no record counting 0 |
| Calculations.CalculateCenturionTeamHours | server/services/calculations.ts:122-138 | The loop returns the sum, over the centurion's decurions, of each one's hours plus its team |
| Calculations.CalculateTsarTeamHours | server/services/calculations.ts:105-120 | The loop returns the sum, over all centurions, of each one's hours plus its team |
| Calculations.TeamHours | server/services/calculations.ts:75-88 | The role switch picks the team function of the role: none for a driver or an unknown role |
| Calculations.TeamHoursAreSubtreeHours | server/services/calculations.ts:78-88 | Each role's team hours are the hours of exactly the members below it in the tree |
| Calculations.DecurionUnits | server/services/calculations.ts:241-246 | The inner loop of the target computation counts each decurion plus its drivers |
| Calculations.CenturionUnits | server/services/calculations.ts:233-247 | The tsar's loop counts each centurion plus its decurion units |
| Calculations.CalculateUserTarget | server/services/calculations.ts:197-255 | The target is dailyTargetHours × daysCount × the member's unit count |
| Calculations.UserUnits | server/services/calculations.ts:202-254 | The switch of calculateUserTarget yields the unit count of the role |
| Calculations.UnitsAreHeadcount | server/services/calculations.ts:203-253 | The unit count equals a head count: 1 for a driver or unknown role, plus everybody below for a leader |
| Calculations.DayHoursLastWins | server/services/calculations.ts:48-54 | The hours of a user on a day are those of the last record for them |
| Calculations.DayHoursDomain | server/services/calculations.ts:50-53 | A user is in a day's map exactly when some record has that user and day |
| Calculations.GroupHoursByDate | server/services/calculations.ts:46-54 | The grouping loop yields one entry per date that occurs, each holding that day's last-wins hours, with dates distinct |
| Calculations.LastByUserOfDistinct | server/services/calculations.ts:68 | With one assignment per user, the user map finds each assignment |
| Calculations.DailyRowIsRollUp | server/services/calculations.ts:71-101 | A daily row carries personal hours (0 without a record), the role's subtree hours as team, and their sum as total |
| Calculations.CalculateDailyAggregatesForDate | server/services/calculations.ts:62-103 | After one day the table holds, for each assignment, its daily row for that day. Every other row is unchanged |
| Calculations.UpsertDailyRow | server/services/calculations.ts:90-101 | One iteration upserts the assignment's daily row |
| Calculations.DailyLookupStep | server/services/calculations.ts:71-102 | The day loop's invariant is preserved by one upsert |
| Calculations.HoursInRange | server/services/calculations.ts:43 | The range query keeps exactly the records dated inside the season |
| Calculations.RecalculateDailyAggregates | server/services/calculations.ts:38-60 | Afterwards, every (user, date) key reads the daily row for the season's in-range hours. Every other key reads as before |
| Calculations.GroupByUser | server/services/calculations.ts:160-166 | The grouping loop maps each user with rows to exactly those rows, in order. Users without rows are absent |
| Calculations.GroupStep | server/services/calculations.ts:161-166 | One push preserves the grouping invariant |
| Calculations.SumOfTotals | server/services/calculations.ts:173-175 | When every daily total is personal plus team, the summed totals are the summed personal plus the summed team |
| Calculations.RowsOfConsistent | server/services/calculations.ts:171 | A user's rows are rows of the table, of that user, and keep the totals consistent |
| Calculations.SeasonRowIsSumOfDays | server/services/calculations.ts:169-193 | A season row sums the user's daily personal and team hours. Its total is their sum and equals the summed daily totals. Both ranks are cleared |
| Calculations.SeasonRowTargetShare | server/services/calculations.ts:178-179 | A season row's target is unit target × head count. It is positive exactly when the unit target is. The percentage is total/target × 100, or 0 |
| Calculations.UserSeasonRow | server/services/calculations.ts:169-193 | The inline computation of one season row gives the season row of the assignment |
| Calculations.RecalculateSeasonAggregates | server/services/calculations.ts:155-195 | Afterwards, each assignment's user reads its season row. Every other user reads as before |
| Calculations.UpsertSeasonRow | server/services/calculations.ts:170-193 | One iteration upserts the assignment's season row |
| Calculations.SeasonLookupStep | server/services/calculations.ts:169-194 | The season loop's invariant is preserved by one upsert |
| Calculations.Present | server/services/calculations.ts:263-265 | `map(get).filter(Boolean)` keeps exactly the table rows of the group's users that have one |
| Calculations.PresentDistinct | server/services/calculations.ts:292-294 | With one assignment per user, the rows found belong to distinct users |
| Calculations.PermutationKeepsDistinct | server/services/calculations.ts:295 | Sorting keeps the rows distinct by user and keeps them the table's rows |
| Calculations.RankPrefixLookup | server/services/calculations.ts:268-273 | After the first n ranks are written, the i-th user reads rank i+1 and all other users read as before |
| Calculations.RankPrefixFrom | server/services/calculations.ts:306-311 | Rank writes for other users do not touch a user's row |
| Calculations.RankGroupsOutside | server/services/calculations.ts:287-312 | Group passes leave alone every user outside the groups |
| Calculations.RankGroupsMember | server/services/calculations.ts:287-312 | With disjoint groups, a member of group k reads its position in group k after all passes |
| Calculations.StatsAreKeyed | server/services/calculations.ts:292-304 | A sorted group holds one row per user, each the table's row. It includes the row of every selected assignment that has one, and nothing from outside the group |
| Calculations.NotInStats | server/services/calculations.ts:288-290 | An assignment the filter does not pick has no row in the group |
| Calculations.SortedGroupsDisjoint | server/services/calculations.ts:285-304 | With distinct users and distinct parents, the groups of the parents are disjoint |
| Calculations.NotInSortedGroups | server/services/calculations.ts:287-290 | A member with no parent among the pass's parents is in none of its groups |
| Calculations.RankStats | server/services/calculations.ts:268-273 | The rank loop writes rank i+1 for the i-th row of the sorted list, in order |
| Calculations.RankGroup | server/services/calculations.ts:288-311 | One group pass ranks the group's rows sorted by compareResults |
| Calculations.RankChildrenStep | server/services/calculations.ts:287-312 | The parent loop's invariant is preserved by one parent's group |
| Calculations.RankChildren | server/services/calculations.ts:287-312 | The parent loop ranks every parent's group in parent order |
| Calculations.UpdateDriverRankingsInDecurionGroups | server/services/calculations.ts:280-313 | Each decurion's drivers are ranked in-group, using the season rows as read before any update |
| Calculations.UpdateDecurionRankingsInCenturionGroups | server/services/calculations.ts:315-347 | Each centurion's decurions are ranked in-group, using the season rows as read before any update |
| Calculations.UpdateRankings | server/services/calculations.ts:257-278 | The three passes give the ranked table: centurions globally by total, then drivers in decurion groups, then decurions in centurion groups |
| Calculations.CenturionRankIsPosition | server/services/calculations.ts:262-273 | A centurion's sotnikRank is its 1-based position in the by-total order of centurions with rows |
| Calculations.DriverRankIsPosition | server/services/calculations.ts:285-311 | A driver's rankInGroup is its 1-based position in its decurion's group |
| Calculations.DecurionRankIsPosition | server/services/calculations.ts:320-346 | A decurion's rankInGroup is its 1-based position in its centurion's group. The driver pass before it does not disturb it |
| Calculations.UnrankedRowsUnchanged | server/services/calculations.ts:257-278 | The row of a member that no pass ranks is left as it was |
| RoleTransitions.ApplySeasonEndTransitions | server/services/role-transitions.ts:10-28 | A season with no assignments is an error. One where all are drivers gets the first-season bootstrap; any other gets the regular cascade |
| RoleTransitions.SlotsFit | server/services/role-transitions.ts:49-51 | 1 tsar plus min(10, n/100) centurions plus min(100, n/10) decurions fit in any pool of n ≥ 1 |
| RoleTransitions.SlotRoles | server/services/role-transitions.ts:55-108 | Position 0 is the tsar, the next min(10, n/100) are centurions, the next min(100, n/10) decurions, the rest drivers |
| RoleTransitions.PromoteAt | server/services/role-transitions.ts:57-66 | A promotion is written and reported only when the user has an assignment |
| RoleTransitions.FillSlots | server/services/role-transitions.ts:71-98 | A promotion loop runs to the end of its slots or of the pool, whichever comes first |
| RoleTransitions.KeepDrivers | server/services/role-transitions.ts:101-108 | The last loop reports every remaining pool member as a maintained driver |
| RoleTransitions.ApplyFirstSeasonTransitions | server/services/role-transitions.ts:30-111 | The bootstrap's loops give the first-season outcome |
| RoleTransitions.PositionsByRole | server/services/role-transitions.ts:49-51 | The number of positions of each role among the first p |
| RoleTransitions.FirstSeasonShape | server/services/role-transitions.ts:30-111 | The bootstrap only promotes from driver, demotes nobody, keeps only drivers, and writes one role per promotion |
| RoleTransitions.FirstSeasonJustified | server/services/role-transitions.ts:56-98 | Every promotion is of a pool member to the role of its position |
| RoleTransitions.FirstSeasonCounts | server/services/role-transitions.ts:53-108 | No role gets more promotions than it has positions, and every one when all pool members have assignments. Maintained drivers number the driver positions |
| RoleTransitions.PoolIsBestFirst | server/services/role-transitions.ts:42-44 | The pool is the season rows sorted best first, cut at 1111. Its head beats every row |
| RoleTransitions.FirstSeasonSlots | server/services/role-transitions.ts:46-108 | At most 1 tsar, min(10, n/100) centurions and min(100, n/10) decurions are promoted; the rest of the pool is reported as drivers |
| RoleTransitions.FirstSeasonTsarIsBest | server/services/role-transitions.ts:55-68 | The tsar promoted in the first season is the best row of all |
| RoleTransitions.WithAggregates | server/services/role-transitions.ts:133-135 | The map/filter keeps exactly the group members that have a season row, each with that row |
| RoleTransitions.GetFirstPlace | server/services/role-transitions.ts:206-230 | The loop collects each parent's group winner in parent order, then sorts them best first |
| RoleTransitions.AddWinner | server/services/role-transitions.ts:210-224 | One parent adds its group's winner, if the group has a member with a row |
| RoleTransitions.FindWinner | server/services/role-transitions.ts:215-223 | The group winner is the head of the group's members with rows, sorted best first |
| RoleTransitions.GetFirstPlaceDecurions | server/services/role-transitions.ts:206-230 | The first-place decurions, one per centurion group, best first |
| RoleTransitions.GetFirstPlaceDrivers | server/services/role-transitions.ts:276-300 | The first-place drivers, one per decurion group, best first |
| RoleTransitions.IsListed | server/services/role-transitions.ts:242-244 | `some` finds a user exactly when it is among the winners |
| RoleTransitions.HandleDecurionTransitions | server/services/role-transitions.ts:232-255 | Every decurion that is not first in its group is demoted to driver, in assignment order |
| RoleTransitions.DemoteUnlisted | server/services/role-transitions.ts:241-254 | The loop demotes exactly the decurions missing from the winners |
| RoleTransitions.PromoteFirst | server/services/role-transitions.ts:185-195 | A bounded promotion loop promotes the first min(count, length) entries in order |
| RoleTransitions.HandleDriverPromotions | server/services/role-transitions.ts:257-274 | The best 90 first-place drivers become decurions |
| RoleTransitions.HandleCenturions | server/services/role-transitions.ts:161-181 | After the new tsar, up to four centurions are maintained and the rest are demoted to decurion |
| RoleTransitions.ApplyRegularSeasonTransitions | server/services/role-transitions.ts:113-204 | Steps 1 to 6 in order give the regular-season outcome |
| RoleTransitions.NonWinners | server/services/role-transitions.ts:241-246 | The non-winners are exactly the decurions whose user is not a winner, one per user when the decurions are |
| RoleTransitions.RegularSeasonLists | server/services/role-transitions.ts:113-204 | Each result list, and every role write, is the concatenation of the steps' contributions in order |
| RoleTransitions.RegularSeasonPromotionList | server/services/role-transitions.ts:140-195 | The promotions are the new tsar, then up to five first-place decurions, then up to 90 first-place drivers |
| RoleTransitions.RegularSeasonDemotionList | server/services/role-transitions.ts:151-254 | The demotions are the old tsar, then the centurions after the fifth, then the decurions that are not first in their group |
| RoleTransitions.RegularSeasonMaintainedList | server/services/role-transitions.ts:165-170 | Only up to four centurions are reported as maintained |
| RoleTransitions.GroupWinnerIsBest | server/services/role-transitions.ts:215-223 | A group has a winner exactly when some member has a row. The winner beats every such member |
| RoleTransitions.FirstPlaceMembers | server/services/role-transitions.ts:206-230 | The first-place list holds exactly the winners of the parents' groups |
| RoleTransitions.CenturionResultsHeadIsBest | server/services/role-transitions.ts:133-141 | The first of the sorted centurion results beats every centurion with a row |
| RoleTransitions.RegularSeasonTsarPromoted | server/services/role-transitions.ts:140-148 | Somebody is promoted to tsar exactly when some centurion has a season row |
| RoleTransitions.RegularSeasonNewTsar | server/services/role-transitions.ts:138-148 | The new tsar is the best centurion among those with a row |
| RoleTransitions.RegularSeasonPromotions | server/services/role-transitions.ts:138-273 | Every promotion moves one level up: centurion to tsar, decurion to centurion, driver to decurion. At most 1 + 5 + 90 in all |
| RoleTransitions.RegularSeasonPromotedWon | server/services/role-transitions.ts:184-195 | Every promotion to centurion or to decurion is of one of the first five, or the first 90, first-place members |
| RoleTransitions.RegularSeasonMaintained | server/services/role-transitions.ts:161-170 | The maintained list is the 2nd to 5th centurion results, in order |
| RoleTransitions.RegularSeasonLowCenturions | server/services/role-transitions.ts:172-181 | The 6th and later centurions are demoted to decurion |
| RoleTransitions.RegularSeasonDecurionDemoted | server/services/role-transitions.ts:237-254 | A decurion is demoted to driver exactly when it is not first in its group |
| RoleTransitions.RegularSeasonWritesOnce | server/services/role-transitions.ts:124-203 | With one assignment per user and per id, no assignment's role is written twice in a regular season, and every write is to an assignment of the list read at the start |
| RoleTransitions.RegularSeasonFromRoles | server/services/role-transitions.ts:127-201 | Every reported promotion and demotion starts from the role the user's assignment holds in the list read at the start |
| Redistribution.Swap | server/services/role-transitions.ts:373 | A swap exchanges two entries and keeps the rest: a permutation |
| Redistribution.Partner | server/services/role-transitions.ts:372 | `Math.floor(Math.random() * (i + 1))` is an index at most i |
| Redistribution.ShuffledIsPermutation | server/services/role-transitions.ts:369-376 | The shuffle is a permutation of its input |
| Redistribution.Shuffle | server/services/role-transitions.ts:369-376 | The in-place loop over the copied array gives the reference shuffle, a permutation |
| Redistribution.SwapCells | server/services/role-transitions.ts:373 | The destructuring swap on the array exchanges the two cells |
| Redistribution.SplitOf | server/services/role-transitions.ts:313-314 | The per-parent count and the remainder recombine to n, with the remainder below the parent count |
| Redistribution.SplitOfIsDivision | server/services/role-transitions.ts:313-314 | These are `Math.floor(n / k)` and `n % k` |
| Redistribution.GroupsBalanced | server/services/role-transitions.ts:319 | Each share is ⌊n/k⌋ or ⌊n/k⌋+1, and earlier parents never get fewer |
| Redistribution.GroupsEnd | server/services/role-transitions.ts:316-329 | The shares add up to the whole list |
| Redistribution.WritesUpToItems | server/services/role-transitions.ts:317-329 | After i parents, the p-th write assigns the p-th shuffled item to one of the parents |
| Redistribution.DistributionItems | server/services/role-transitions.ts:316-329 | With parents, each item is written exactly once, in order, to some parent; with none, nothing is written |
| Redistribution.DistributionGroup | server/services/role-transitions.ts:319-327 | The j-th item of parent g's share gets that parent and groupIndex j |
| Redistribution.Distribute | server/services/role-transitions.ts:316-329 | The nested loop issues exactly the reference distribution's writes |
| Redistribution.DealRun | server/services/role-transitions.ts:321-328 | The inner loop writes one parent's share and advances the index to the next share |
| Redistribution.RedistributeGroups | server/services/role-transitions.ts:302-352 | Decurions are shuffled and dealt to centurions, then drivers shuffled and dealt to decurions |
| Redistribution.DistributionCovers | server/services/role-transitions.ts:321-328 | With at least one parent, every item gets a parent |
| Redistribution.DistributionOnlyItems | server/services/role-transitions.ts:323-326 | Only items are written, and only with a parent of the list |
| Redistribution.RedistributionPlacesDecurion | server/services/role-transitions.ts:311-329 | With centurions present, every decurion is given one of them as sotnikId |
| Redistribution.RedistributionPlacesDriver | server/services/role-transitions.ts:331-349 | With decurions present, every driver is given one of them as desyatnikId |
| Redistribution.RedistributionWrites | server/services/role-transitions.ts:311-349 | Every write links a decurion to a centurion or a driver to a decurion |
| AntiFraud.InRange | server/storage.ts:165-168 | The date-range query keeps exactly the records dated between the two inclusive ends |
| AntiFraud.CheckHighDailyHours | server/services/anti-fraud.ts:37-62 | The scan appends a high-hours alert for each record over 16 hours whose user exists, in record order |
| AntiFraud.HighHoursAlertsMembers | server/services/anti-fraud.ts:45-60 | An alert is raised exactly for a record over the threshold whose user exists |
| AntiFraud.HighHoursIff | server/services/anti-fraud.ts:46-58 | A record gets a high-severity alert with its hours and date exactly when it is over 16 hours and its user exists |
| AntiFraud.GroupByDecurion | server/services/anti-fraud.ts:74-83 | The grouping loop builds the decurion groups |
| AntiFraud.DecurionGroupsKeys | server/services/anti-fraud.ts:78-80 | Each decurion has at most one group |
| AntiFraud.DecurionGroupsMembers | server/services/anti-fraud.ts:76-83 | A driver is in decurion d's group exactly when it is a driver assignment with desyatnikId d |
| AntiFraud.SortAscSorts | server/services/anti-fraud.ts:91 | The ascending sort of hour values is sorted and a permutation |
| AntiFraud.SortedUnique | server/services/anti-fraud.ts:91 | Two sorted permutations of the same values are equal, so the median does not depend on the sort |
| AntiFraud.MedianOfAnyOrdering | server/services/anti-fraud.ts:91-92 | The median is the middle element of the sorted values: one of them, with no larger value before it and no smaller after |
| AntiFraud.GroupHours | server/services/anti-fraud.ts:87 | A group's records are exactly those of its drivers |
| AntiFraud.Round | server/services/anti-fraud.ts:106-112 | `Math.round` gives the integer within half of x, rounding halves up |
| AntiFraud.CheckRatios | server/services/anti-fraud.ts:96-117 | The inner loop appends a spike alert for each record over 4.7 times the median whose user exists |
| AntiFraud.CheckGroup | server/services/anti-fraud.ts:86-118 | A group with no records or a zero median adds nothing. Otherwise its spikes are added |
| AntiFraud.CheckGroups | server/services/anti-fraud.ts:86-118 | The group loop appends the groups' alerts in group order |
| AntiFraud.CheckAnomalySpikes | server/services/anti-fraud.ts:64-119 | The scan appends the spike alerts of all decurion groups |
| AntiFraud.SpikesInMembers | server/services/anti-fraud.ts:96-100 | A record gets a spike alert exactly when its ratio to the median is over 4.7 and its user exists |
| AntiFraud.GroupSpikeAlertsMembers | server/services/anti-fraud.ts:86-117 | A group's alerts are exactly its spikes, all of medium severity |
| AntiFraud.SpikeAlertsMembers | server/services/anti-fraud.ts:86-118 | The spike alerts are exactly the union of the groups' alerts |
| AntiFraud.BuildHoursMap | server/services/anti-fraud.ts:129-134 | The loop builds the user-date hours map |
| AntiFraud.HoursMapLastWins | server/services/anti-fraud.ts:132-134 | A key is in the map exactly when a record has it, and it holds the last such record's hours |
| AntiFraud.ZeroDays | server/services/anti-fraud.ts:143-147 | The scan looks at 14 days |
| AntiFraud.StreaksCurrent | server/services/anti-fraud.ts:149-154 | `consecutiveZeros` is the length of the trailing zero run, which cannot be lengthened |
| AntiFraud.StreaksLongest | server/services/anti-fraud.ts:139-155 | `maxConsecutiveZeros` is the length of the longest zero run: one is that long and none is longer |
| AntiFraud.CheckZeroStreaks | server/services/anti-fraud.ts:121-173 | The scan appends one low alert per assignment whose longest zero run over 14 days reaches 7 and whose user exists |
| AntiFraud.ZeroStreakAlertsMembers | server/services/anti-fraud.ts:157-171 | A streak alert is raised exactly for such an assignment, with its run length |
| AntiFraud.ZeroStreakAlertsOnePerAssignment | server/services/anti-fraud.ts:137-172 | At most one streak alert per assignment, so one per user when users are distinct |
| AntiFraud.GetActiveAlerts | server/services/anti-fraud.ts:19-35 | No alerts without an active season. Otherwise the alerts of the three scans, in order |
| AntiFraud.ActiveAlertsSeverity | server/services/anti-fraud.ts:56-167 | Every alert has its kind's severity: high hours high, spike medium, zero streak low. With no active season there are no alerts |
| XlsxProcessor.Digits | server/services/xlsx-processor.ts:138 | Stripping non-digits leaves only digits, and no more characters than were given |
| XlsxProcessor.DigitsAppend | server/services/xlsx-processor.ts:138 | Stripping works piecewise over concatenation |
| XlsxProcessor.NormalizePhoneRefuses | server/services/xlsx-processor.ts:134-140 | A phone is refused exactly when the cell is falsy or fewer than 10 digits remain |
| XlsxProcessor.NormalizeDigitsShape | server/services/xlsx-processor.ts:140-153 | An accepted phone is "+" then at least 11 digits, ending in the input's last 10 digits. 10 digits, or 11 starting 7 or 8, give "+7" and 10 digits; anything else keeps the digits |
| XlsxProcessor.NormalizeDigitsIdempotent | server/services/xlsx-processor.ts:140-153 | Normalising the digits of a normalised phone gives the same phone |
| XlsxProcessor.NormalizePhoneIdempotent | server/services/xlsx-processor.ts:134-154 | Normalising a normalised phone changes nothing |
| XlsxProcessor.ParseHoursAccepts | server/services/xlsx-processor.ts:156-163 | A cell is refused exactly when it is empty, not a number, or negative. Otherwise the hours are its number |
| XlsxProcessor.DateColumns | server/services/xlsx-processor.ts:39 | The date columns are exactly the columns other than "phone" |
| XlsxProcessor.ProcessRows | server/services/xlsx-processor.ts:44-125 | The row loop gives the count of rows that pass, the errors of all rows in order, and the table after all upserts |
| XlsxProcessor.ProcessRow | server/services/xlsx-processor.ts:45-116 | A row with a bad phone or an unknown user adds one error and is not counted. Otherwise its cells are processed and it is counted |
| XlsxProcessor.ProcessCells | server/services/xlsx-processor.ts:71-114 | The column loop adds the cells' errors and upserts in column order |
| XlsxProcessor.ProcessCell | server/services/xlsx-processor.ts:72-113 | One cell: blank is skipped; bad hours or an unknown date gives one error; otherwise a warning over 16 hours, then an upsert |
| XlsxProcessor.ApplyThen | server/storage.ts:154-163 | Upserting two write lists in turn is upserting their concatenation |
| XlsxProcessor.ProcessFileMethod | server/services/xlsx-processor.ts:11-132 | processFile gives the file-level refusal, or the row loop's result and table |
| XlsxProcessor.ProcessFileRefuses | server/services/xlsx-processor.ts:31-42 | The file is refused without a phone column, and when no other column exists. A refused file writes nothing |
| XlsxProcessor.DateColumnsEmpty | server/services/xlsx-processor.ts:39-42 | No date column remains exactly when every column is "phone" |
| XlsxProcessor.Passing | server/services/xlsx-processor.ts:116 | The passing rows are exactly the rows whose phone maps to a known user |
| XlsxProcessor.ProcessedCountsPassing | server/services/xlsx-processor.ts:116 | processedRows is the number of passing rows and at most the number of rows |
| XlsxProcessor.ErrorRowNumbers | server/services/xlsx-processor.ts:46 | Error row numbers run from 2 upward, never decreasing, up to the row count plus 1 |
| XlsxProcessor.RowsErrors | server/services/xlsx-processor.ts:45-46 | An error is in the result exactly when it comes from some row i of the sheet, and then it carries row number i + 2 |
| XlsxProcessor.RowStepErrors | server/services/xlsx-processor.ts:48-68 | A row's errors carry its number. A row that does not pass leaves exactly one error, a phone or user error, and writes nothing. A passing row never leaves a phone or user error |
| XlsxProcessor.CellsRowNumber | server/services/xlsx-processor.ts:79-103 | Every error of a row's cells carries that row's number, and none is a phone or user error |
| XlsxProcessor.CellWrites | server/services/xlsx-processor.ts:72-113 | A cell writes at most once, exactly when it is non-blank with valid hours and a known date. The write holds its non-negative hours. It warns exactly when the hours exceed 16 |
| TelegramBot.NormalizePhoneShape | server/services/telegram-bot.ts:345-355 | The bot's phone is "+" and all the input's digits, with a leading 8 of an 11-digit number made 7 |
| TelegramBot.NormalizePhoneIgnoresNonDigits | server/services/telegram-bot.ts:347 | Non-digit text around the number does not change the result |
| TelegramBot.NormalizePhoneIdempotent | server/services/telegram-bot.ts:345-355 | Normalising a normalised phone changes nothing |
| TelegramBot.AgreesWithImporter | server/services/telegram-bot.ts:345-355 | With 11 or more digits the bot and the importer give the same phone |
| TelegramBot.TenDigitsDisagree | server/services/telegram-bot.ts:345-355 | With exactly ten digits the importer stores "+7…" and the bot looks up "+…", so they differ |
| TelegramBot.NormalizePhoneRussianAgrees | server/services/xlsx-processor.ts:143-153 | The corrected bot normalisation agrees with the importer on every number it accepts. It differs from the bot as written only at ten digits |
| TelegramBot.NormalizePhoneRussianIdempotent | server/services/telegram-bot.ts:346 | The corrected normalisation is idempotent |
| Export.Lookup | server/services/export.ts:280-281 | `'' + row[header]` is the row's value for that key, or "undefined" when the key is missing |
| Export.Values | server/services/export.ts:279-283 | The values of a row come in header order, one per header |
| Export.GenerateCsv | server/services/export.ts:270-288 | The loop gives the header line and one quoted line per row, joined by newlines. Empty data gives "" |
| Export.LinesShape | server/services/export.ts:273-285 | Line 0 is the first row's keys. Line i+1 is row i's values, quoted, in header order |
| Export.ReadQuote | server/services/export.ts:281-282 | A quoted, escaped value reads back as the value |
| Export.ReadRecordFields | server/services/export.ts:284 | A line of quoted values joined by commas reads back as those values |
| Export.ReadAllRecords | server/services/export.ts:287 | Lines of quoted values joined by newlines read back as the records |
| Export.SplitJoin | server/services/export.ts:276 | Keys without commas, joined by commas, split back into the keys |
| Export.CsvRoundTrip | server/services/export.ts:270-288 | When keys have no comma or newline, the CSV reads back as the first row's keys and every row's values in header order |
| Analytics.Recent | server/services/analytics.ts:72 | `slice(-7)` is the last min(7, n) days |
| Analytics.AvgDailyGrowthWindow | server/services/analytics.ts:70-79 | Days before the last seven do not change the average growth |
| Analytics.AvgDailyGrowthSteady | server/services/analytics.ts:70-79 | With no change between recent days, the average growth is 0 |
| Analytics.RatesSteady | server/services/analytics.ts:73-77 | Steady days give only zero rates |
| Analytics.GoalProgress | server/services/analytics.ts:127-140 | One point per day, in order. Each holds the hours up to that day and the target of that many days |
| Analytics.CumulativeGrows | server/services/analytics.ts:132-134 | The gap between two cumulative points is the hours between them. With no negative day the series never goes down |
| Analytics.TotalAppend | server/services/analytics.ts:133 | The cumulative sum works piecewise over concatenation |
| Analytics.Bucket | server/services/analytics.ts:158-163 | The if-chain puts a percentage in exactly the one range that contains it |
| Analytics.PerformanceDistribution | server/services/analytics.ts:149-169 | The five ranges in order, each with the number of participants in it |
| Analytics.CountsAddUp | server/services/analytics.ts:157-164 | The five counts add up to the number of participants |

## Left out

- **I/O.** Database access, the XLSX reader, Telegram messaging and logging are not modelled. Their inputs are parameters and their writes are returned values, so there is no concurrency, failure or transaction behaviour.
- **`recalculateAggregates`.** The model covers the three steps of `recalculateAggregates`. The `Season not found` throw and the season re-read in `recalculateDailyAggregates` are not modelled.
- **Numbers.** JavaScript numbers are floating point; the model uses exact reals. `toString()`/`Number()` round trips, and the `numeric(p, s)` column scales, are not modelled. NaN is not modelled:
  - a non-numeric `targetPercent`;
  - `(ratio - 1)`;
  - `n / 0` and `n % 0` (Infinity or NaN) when there are no centurions or no decurions to redistribute to (`role-transitions.ts:313-314` and the driver step after it). The loops then do not run, and the model writes nothing in that case.
- **Calculations.RecalculateDailyAggregates.** It treats `createAggregateDaily` and `createAggregateSeason` as upserts by natural key. In the code they are plain inserts, and a second run would hit the unique constraint.
- **Lookups.** `Find` returns the first row with a key; `new Map(rows)` keeps the last. The two agree under the unique key constraints the schema declares, which the model assumes where it matters (`DistinctUsers`).
- **Rank updates.** `updateAggregateSeason` addresses a row by its `id`; the model addresses it by user, which names the same row under the unique (user, season) key.
- **Calculations.GroupHoursByDate.** It states what the map holds, not the insertion order of its dates. Each date's rows are written under their own key, so the order does not affect the table.
- **Results.SortDesc.** It is an insertion sort that places each row after the rows it ties with, so tied rows keep their input order, as with the stable Array.prototype.sort. Its contract states only a permutation in best-first order, not this stability.
- **parseDate.** It is a table from column name to date. The Excel-serial, ISO and DD.MM.YYYY parsing is not modelled.
- **XlsxProcessor.ProcessRows.** The `catch (rowError)` branch is left out, because no modelled step throws. So is the wrapping of file-level errors into `File processing failed: …`.
- **Cells.** Boolean cell values, `Object.keys` order beyond the given row order, and the message texts of import errors are not modelled.
- **Fraud alerts.** Alert ids and message strings are left out; each alert keeps its user, phone, kind, date, severity and data. `new Date()` is the `today` parameter, and date strings are day indices. `reportAnomaly` only writes an audit log, and is not modelled.
- **Analytics.AvgDailyGrowth** and **Analytics.GoalProgress.** They do not apply `Math.round`.
- **Analytics queries.** The SQL queries of `getAnalytics` are not modelled: the daily trend, the active-today count, the achieved-goal count and the team comparison. Neither is `daysRemaining`. Their results are inputs, already rounded.
- **RoleTransitions.ApplyRegularSeasonTransitions.** `targetCenturionCount` is computed by the code but never used, so it is not modelled.
- **Redistribution.Shuffle.** `Math.random` is the list `picks`, with `j = picks[i] % (i + 1)` standing for `Math.floor(Math.random() * (i + 1))`. No distribution is modelled.
- **Telegram bot.** Only `normalizePhone` is modelled. The command handlers, contact sharing and notifications are not.
- **Export.** The XLSX exports of `export.ts` are not modelled. Only `generateCSV` is.

## Findings

| source | as written | input that shows it | evidently intended | confidence | as-written member | corrected member |
|---|---|---|---|---|---|---|
| server/services/telegram-bot.ts:345-355 | A 10-digit number becomes "+" and the 10 digits. The sheet importer stores the same number as "+7" and the 10 digits (xlsx-processor.ts:149-151), so a driver who shares such a contact is not found | "9161234567": bot "+9161234567", importer "+79161234567" | The comment on line 346 says "+7 prefix for Russian numbers". The 10-digit case should give "+7" and the digits, as in the importer | not executed; medium (the exact input that breaks it is derived from the code) | TelegramBot.TenDigitsDisagree | TelegramBot.NormalizePhoneRussianAgrees |
