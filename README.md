# Automotive forecasting calculators and the Chinese-expansion stepper

This project is a Dafny model of the arithmetic and state at the heart of an
automotive-industry forecasting toolkit. It covers six components:

- **Chinese-manufacturer expansion** (`chinese_expansion.dfy`). A simulator
  walks year → region → segment → manufacturer. For each cell it picks an entry
  strategy from a threshold table and computes a market share capped at 0.4. It
  then overwrites the manufacturer's presence in that region with the new share
  and appends a (share, revenue, strategy) record. The simulator is a class
  whose `presence` map is updated in place by a chain of loop methods.
- **Autonomous-vehicle level bookkeeping** (`autonomous_vehicles.dfy`). This
  covers the per-segment SAE-level parameter table, the minimum-year masking
  and the cap at 1.0. It also covers the cumulative-by-level recurrence and the
  combined L2+/L3+/L4+ penetration rows.
- **New-mobility services and ownership** (`new_mobility.py`, modelled in
  `new_mobility.dfy`):
  - the clip of service adoption;
  - the revenue/cost/profit/margin identities, with the zero-revenue guard;
  - the traditional and leasing share rules, including the leasing cap and
    post-peak decline;
  - the normalisation of the five ownership-model shares;
  - the resolution of region and segment arguments from names.
- **Strategy framework** (`strategy_framework.dfy`). This covers capability
  gaps, objective progress and mean progress. It also covers the name-keyed
  objective registry, and the initiative with its clamped progress and
  append-only risk list.
- **Market scenarios** (`market_scenarios.dfy`). This covers default
  parameters, picking a value by scenario type, the unknown-parameter error,
  compound market growth over the horizon, the three-scenario bundle and the
  two analyses.
- **Consulting market** (`market_dynamics.dfy`). This covers services keyed by
  type, the total size, the compound forecast and the sample market.

Two helper modules support them:

- `wrappers.dfy` holds `Option` and `Result`.
- `numeric.dfy` holds the integer power `Pow`, `Min`/`Max`/`Clamp` and `Sum`,
  with their lemmas.

All numbers are exact `real`s. Except as listed under "## Left out", every
place where the program raises an error (`ValueError`, `KeyError`) is
modelled as a `Failure` carrying the message.

## Model

Source paths are relative to the repository root.

| member | source | states |
|---|---|---|
| ChineseExpansion.Conditions | src/models/industry_reconfiguration/chinese_manufacturer_expansion.py:77-135 | Every region's conditions are in range: sizes and growth ≥ 0, barriers and domestic preference in [0,1]. No configured barrier exceeds 0.7. |
| ChineseExpansion.Profile | src/models/industry_reconfiguration/chinese_manufacturer_expansion.py:137-187 | Each configured manufacturer's brand value is in [0,1]. |
| ChineseExpansion.InitialPresence | src/models/industry_reconfiguration/chinese_manufacturer_expansion.py:137-187 | Initial per-region presence is a share in [0, 0.4] and always includes China. |
| ChineseExpansion.BaseAttractiveness | src/models/industry_reconfiguration/chinese_manufacturer_expansion.py:194-199 | The weighted sum 0.3·size + 0.3·20·growth + 0.2·(1−barriers) + 0.2·(1−domestic preference). Its use is stated by Attractiveness and EvAtLeastAsAttractive. |
| ChineseExpansion.Attractiveness | src/models/industry_reconfiguration/chinese_manufacturer_expansion.py:189-206 | Attractiveness is ≥ 0 for in-range conditions. Outside EV it equals the base score. |
| ChineseExpansion.EvAtLeastAsAttractive | src/models/industry_reconfiguration/chinese_manufacturer_expansion.py:194-206 | In every region the EV segment is at least as attractive as any other segment, and every score is ≥ 0. |
| ChineseExpansion.EvScaling | src/models/industry_reconfiguration/chinese_manufacturer_expansion.py:202-204 | Scaling a non-negative base by (1+penetration)(1+growth) never lowers it. |
| ChineseExpansion.GrownSize | src/models/industry_reconfiguration/chinese_manufacturer_expansion.py:271-274 | The base size grown for n years. Its properties are stated by GrownSizeFacts: ≥ 0, non-decreasing, one factor (1+g) per year. |
| ChineseExpansion.GrownSizeFacts | src/models/industry_reconfiguration/chinese_manufacturer_expansion.py:271-274 | The grown base size is ≥ 0, non-decreasing, and grows by one factor (1+g) per year. |
| ChineseExpansion.EvPenetration | src/models/industry_reconfiguration/chinese_manufacturer_expansion.py:276-281 | EV penetration is capped into [0, 0.9]. |
| ChineseExpansion.EvPenetrationNonDecreasing | src/models/industry_reconfiguration/chinese_manufacturer_expansion.py:278-281 | EV penetration never falls from one year to the next. |
| ChineseExpansion.SegmentSize | src/models/industry_reconfiguration/chinese_manufacturer_expansion.py:276-284 | A segment's size is ≥ 0. EV is at most 0.9 of the grown size; any other segment is exactly 0.2 of it. |
| ChineseExpansion.MarketSize | src/models/industry_reconfiguration/chinese_manufacturer_expansion.py:269-284 | The same bounds for a region and a year ≥ 2025. |
| ChineseExpansion.SegmentSizeNonDecreasing | src/models/industry_reconfiguration/chinese_manufacturer_expansion.py:271-284 | A segment's size never shrinks from one year to the next. |
| ChineseExpansion.MarketSizeNonDecreasing | src/models/industry_reconfiguration/chinese_manufacturer_expansion.py:269-284 | The market size of a region and segment never shrinks from one year to the next. |
| ChineseExpansion.ProductMonotone | src/models/industry_reconfiguration/chinese_manufacturer_expansion.py:279-284 | Products of non-negative factors are monotone in both factors. |
| ChineseExpansion.DetermineStrategy | src/models/industry_reconfiguration/chinese_manufacturer_expansion.py:286-316 | The full strategy table. With presence > 0.01: local production iff presence > 0.05 and year > 2030, else export. For a new entry: barriers > 0.7 → acquisition if the profile lists acquisitions, else joint venture; (0.4, 0.7] → brand acquisition; ≤ 0.4 → export. |
| ChineseExpansion.NewEntryNeverAcquires | src/models/industry_reconfiguration/chinese_manufacturer_expansion.py:304-316 | Since no configured region's barriers exceed 0.7, a new entry always chooses brand acquisition or export, never an acquisition or a joint venture. |
| ChineseExpansion.StrategyBonus | src/models/industry_reconfiguration/chinese_manufacturer_expansion.py:334-342 | The strategy bonus table (0, 0.1, 0.15, 0.08, 0.12). It enters GrowthFactor, whose contract gives its sign. |
| ChineseExpansion.GrowthFactor | src/models/industry_reconfiguration/chinese_manufacturer_expansion.py:331-349 | The growth factor is ≥ 0 when the brand value is. |
| ChineseExpansion.CurrentShare | src/models/industry_reconfiguration/chinese_manufacturer_expansion.py:329 | The region's presence, or 0.0 where there is none. MarketShare states that a share of 0 stays 0. |
| ChineseExpansion.MarketShare | src/models/industry_reconfiguration/chinese_manufacturer_expansion.py:318-359 | The new share is ≤ 0.4. It is ≥ 0 when the current share and brand are. It is exactly 0 when the current share is 0. |
| ChineseExpansion.PriceMultiplier | src/models/industry_reconfiguration/chinese_manufacturer_expansion.py:361-370 | The segment price multiplier lies in [1, 3]. |
| ChineseExpansion.SharesCanSumPastOne | src/models/industry_reconfiguration/chinese_manufacturer_expansion.py:318-359 | Shares are never normalised across manufacturers. When all five configured manufacturers hold the 0.4 cap in China, one EV update in 2031 keeps each of them at 0.4, so the cell's shares sum to 2.0. |
| ChineseExpansion.CapHeld | src/models/industry_reconfiguration/chinese_manufacturer_expansion.py:296-359 | A configured manufacturer holding 0.4 in China chooses local production in 2031, and its EV share stays at the 0.4 cap. |
| ChineseExpansion.Revenue | src/models/industry_reconfiguration/chinese_manufacturer_expansion.py:257 | size × share × multiplier. Stated through TurnRecord and the year-alignment of YearsRunShape and ExpansionShape. |
| ChineseExpansion.Skips | src/models/industry_reconfiguration/chinese_manufacturer_expansion.py:240-241 | A manufacturer sits out a segment outside its strengths unless it is EV. StepManufacturer and TurnTakesTurn state that a skipping turn changes nothing. |
| ChineseExpansion.Turn | src/models/industry_reconfiguration/chinese_manufacturer_expansion.py:238-262 | One manufacturer's turn in a cell, over values: the reference run. TurnTakesTurn, TurnLeavesOthers, TurnLeavesOtherCells and TurnKeepsInvariants state what it does, and StepManufacturer is proved equal to it. |
| ChineseExpansion.CellTurns | src/models/industry_reconfiguration/chinese_manufacturer_expansion.py:238-262 | The turns of the given manufacturers in order. CellTurnsEffect states its result, and SimulateCell is proved equal to it. |
| ChineseExpansion.RegionTurns | src/models/industry_reconfiguration/chinese_manufacturer_expansion.py:233-262 | Every segment of one region in order. RegionTurnsShape states its result, and SimulateRegion is proved equal to it. |
| ChineseExpansion.YearTurns | src/models/industry_reconfiguration/chinese_manufacturer_expansion.py:232-262 | Every region of one year in order. YearTurnsShape states its result, and SimulateYear is proved equal to it. |
| ChineseExpansion.YearsRun | src/models/industry_reconfiguration/chinese_manufacturer_expansion.py:231-262 | The first n years from the start year. YearsRunShape and ExpansionShape state its result, and SimulateYears and SimulateExpansion are proved equal to it. |
| ChineseExpansion.ExpansionSimulator.constructor | src/models/industry_reconfiguration/chinese_manufacturer_expansion.py:75-93 | Presence starts at every configured manufacturer's initial per-region shares. |
| ChineseExpansion.ExpansionSimulator.UpdateCell | src/models/industry_reconfiguration/chinese_manufacturer_expansion.py:243-257 | The record holds the strategy and capped share computed from the manufacturer's presence before the update, and revenue = size × share × multiplier. The region's presence becomes that share, and nothing else in the table changes. |
| ChineseExpansion.ExpansionSimulator.StepManufacturer | src/models/industry_reconfiguration/chinese_manufacturer_expansion.py:238-262 | The new presence table and result map are exactly one `Turn` of the reference run: a manufacturer skipping a non-strength, non-EV segment changes nothing; otherwise its list gains the `UpdateCell` record and its presence in the region becomes that record's share. |
| ChineseExpansion.ExpansionSimulator.SimulateCell | src/models/industry_reconfiguration/chinese_manufacturer_expansion.py:238-262 | The new state is the reference run's turns of every configured manufacturer, in dict order, in the cell. |
| ChineseExpansion.ExpansionSimulator.SimulateRegion | src/models/industry_reconfiguration/chinese_manufacturer_expansion.py:233-262 | The new state is the reference run over the region's segments in order, each cell at that year's market size. |
| ChineseExpansion.ExpansionSimulator.SimulateYear | src/models/industry_reconfiguration/chinese_manufacturer_expansion.py:232-262 | The new state is the reference run's year: every region in order. |
| ChineseExpansion.ExpansionSimulator.SimulateYears | src/models/industry_reconfiguration/chinese_manufacturer_expansion.py:231-262 | The new state is the reference run over the years startYear..endYear in order (none when endYear < startYear). |
| ChineseExpansion.ExpansionSimulator.SimulateExpansion | src/models/industry_reconfiguration/chinese_manufacturer_expansion.py:208-267 | Omitted region/segment lists default to all values. The results start as one empty list per configured manufacturer, region and segment. The final presence table and results are the reference run of every year from that start. |
| ChineseExpansion.TurnRecordInRange | src/models/industry_reconfiguration/chinese_manufacturer_expansion.py:243-257 | From presence shares in [0, 0.4], the share a turn records is in [0, 0.4]. |
| ChineseExpansion.TurnTakesTurn | src/models/industry_reconfiguration/chinese_manufacturer_expansion.py:238-262 | A turn of a configured manufacturer with a list for the cell is its full turn: unless it skips the segment, its list gains the record computed from its presence, and its presence in the region becomes that share. |
| ChineseExpansion.TurnLeavesOthers | src/models/industry_reconfiguration/chinese_manufacturer_expansion.py:238-262 | One manufacturer's turn leaves every other manufacturer's list and presence unchanged. |
| ChineseExpansion.TurnLeavesOtherCells | src/models/industry_reconfiguration/chinese_manufacturer_expansion.py:259-262 | A turn in one (region, segment) cell leaves the lists of every other cell unchanged. |
| ChineseExpansion.TurnKeepsInvariants | src/models/industry_reconfiguration/chinese_manufacturer_expansion.py:251-262 | A turn keeps the presence table valid (exactly the configured manufacturers, shares in [0, 0.4]), keeps skipped lists empty and every recorded share in [0, 0.4], and adds no keys. |
| ChineseExpansion.CellTurnsKeepInvariants | src/models/industry_reconfiguration/chinese_manufacturer_expansion.py:238-262 | The same for all the turns in a cell. |
| ChineseExpansion.CellTurnsLeaveOthers | src/models/industry_reconfiguration/chinese_manufacturer_expansion.py:238-262 | Turns of other manufacturers leave a manufacturer's list and presence unchanged. |
| ChineseExpansion.CellTurnsLeaveOtherCells | src/models/industry_reconfiguration/chinese_manufacturer_expansion.py:238-262 | The turns in one cell leave the lists of every other cell unchanged. |
| ChineseExpansion.CellTurnsReadCellStart | src/models/industry_reconfiguration/chinese_manufacturer_expansion.py:238-262 | After the turns of distinct manufacturers, each of them has taken its turn from its presence at the start of the cell, since no other manufacturer writes its presence. |
| ChineseExpansion.CellTurnsEffect | src/models/industry_reconfiguration/chinese_manufacturer_expansion.py:232-262 | After one cell, every non-skipped manufacturer's list in the cell has gained exactly the record computed from its presence at the start of the cell (strategy, capped share and revenue at the cell's size), and every other list is unchanged. |
| ChineseExpansion.RegionTurnsShape | src/models/industry_reconfiguration/chinese_manufacturer_expansion.py:233-262 | Part way through a region, the cells already visited have gained one record for the year, priced at that year's size, and the invariants hold. |
| ChineseExpansion.YearTurnsShape | src/models/industry_reconfiguration/chinese_manufacturer_expansion.py:232-262 | After a year's regions, every visited cell has gained one record for the year. |
| ChineseExpansion.YearsRunShape | src/models/industry_reconfiguration/chinese_manufacturer_expansion.py:231-262 | From empty lists, after n years each non-skipped list has n records (for duplicate-free arguments), entry i priced at year start + i, and the invariants hold. |
| ChineseExpansion.ExpansionShape | src/models/industry_reconfiguration/chinese_manufacturer_expansion.py:208-262 | For the run `simulate_expansion` performs, the presence table stays valid. There is exactly one list per manufacturer, region and segment. Skipped lists stay empty, and every share is in [0, 0.4]. For duplicate-free arguments, each other list has one record per year, and entry i is priced at year start+i. |
| AutonomousVehicles.SegmentParameters | src/models/industry_transformation/autonomous_vehicles.py:48-91 | Parameters exist exactly for the four segments, with five levels each. Each level's l_max is in (0,1] and its min_year ≥ 2020, and min_year is non-decreasing over the levels. |
| AutonomousVehicles.LevelAdoption | src/models/industry_transformation/autonomous_vehicles.py:110-116 | A level's adoption is ≤ 1 and exactly 0 before its min_year. From then on it equals the curve value when that is ≤ 1, and it is ≥ 0 when the curve is. |
| AutonomousVehicles.YearRange | src/models/industry_transformation/autonomous_vehicles.py:148 | The years from start to end inclusive, in order. |
| AutonomousVehicles.MaskBefore | src/models/industry_transformation/autonomous_vehicles.py:114 | Entries for years before min_year become 0 in place, and the others are unchanged. |
| AutonomousVehicles.LevelColumn | src/models/industry_transformation/autonomous_vehicles.py:110-116 | One level's column: the masked, capped curve value per year. |
| AutonomousVehicles.SimulateSegment | src/models/industry_transformation/autonomous_vehicles.py:93-118 | Fails with the unknown-segment message iff the segment is not one of the four. Otherwise it gives five columns, each the masked, capped curve for its level. |
| AutonomousVehicles.Cumulative | src/models/industry_transformation/autonomous_vehicles.py:127-133 | Level 1 alone, then each level added to the previous cumulative value and capped at 1. FirstCumulativeIsLevelOne, CumulativeAtMostOne and CumulativeNonDecreasing state its properties, and CalculateCumulative is proved equal to it. |
| AutonomousVehicles.CalculateCumulative | src/models/industry_transformation/autonomous_vehicles.py:120-135 | Years and level columns come back unchanged. Cumulative column k at year t is the capped running sum of levels 1..k. |
| AutonomousVehicles.FirstCumulativeIsLevelOne | src/models/industry_transformation/autonomous_vehicles.py:127 | L1 cumulative equals L1. |
| AutonomousVehicles.CumulativeAtMostOne | src/models/industry_transformation/autonomous_vehicles.py:130-133 | Every cumulative value is ≤ 1 when L1 is. |
| AutonomousVehicles.CumulativeNonDecreasing | src/models/industry_transformation/autonomous_vehicles.py:130-133 | With per-level values in [0,1], cumulative values are ≥ 0 and non-decreasing from one level to the next. |
| AutonomousVehicles.SimulatedCumulativeOrdered | src/models/industry_transformation/autonomous_vehicles.py:108-133 | For simulated columns over a non-negative curve, cumulative values lie in [0,1] and are ordered by level. |
| AutonomousVehicles.CombinedRows | src/models/industry_transformation/autonomous_vehicles.py:168-176 | One row per year, whose L2+/L3+/L4+ penetration is the cumulative value of level 2, 3 or 4 × 100. That value is the capped adoption of that level or any level below it, whatever the column label says. |
| AutonomousVehicles.CombinedRowOrdered | src/models/industry_transformation/autonomous_vehicles.py:168-176 | For a simulated segment and a year where the curve is non-negative, 0 ≤ L2+ ≤ L3+ ≤ L4+ ≤ 100 in that year's combined row. |
| AutonomousVehicles.RunAvSimulation | src/models/industry_transformation/autonomous_vehicles.py:137-181 | One frame per segment, each simulated over the year range with its cumulative columns. The combined table holds one block of rows per segment, in segment order. Row t of segment i's block is segment i's combined row for year t, taken from its frame. |
| NewMobility.BaseAdoption | src/models/industry_transformation/new_mobility.py:69-160 | The base adoption rate of each service (0.15, 0.08, 0.02, 0.05). It enters RawAdoption and ServiceAdoption. |
| NewMobility.RawAdoption | src/models/industry_transformation/new_mobility.py:225-235 | curve × base adoption × region factor × segment factor + noise, before the clip. ServiceAdoption states the clip into [0,1]. |
| NewMobility.ServiceAdoption | src/models/industry_transformation/new_mobility.py:215-239 | One value per year, each the clip of the scaled curve plus noise. |
| NewMobility.Clip | src/models/industry_transformation/new_mobility.py:239 | The result is in [0,1], equal to the input inside it and to the nearer bound outside. |
| NewMobility.RevenueRate | src/models/industry_transformation/new_mobility.py:200-205 | The revenue-per-km table (0.50, 0.30, 0.40, 0.25). MarginIsRateMargin and ProfitSign state what it implies. |
| NewMobility.CostRate | src/models/industry_transformation/new_mobility.py:208-213 | The cost-per-km table (0.35, 0.20, 0.15, 0.30). ProfitSign states that only the subscription service's cost rate exceeds its revenue rate. |
| NewMobility.ServiceEconomics | src/models/industry_transformation/new_mobility.py:298-328 | vehicles = adoption × 1e6. Revenue and cost in millions are adoption × rate × km. profit = revenue − cost. margin × revenue = profit when revenue ≠ 0, and margin = 0 otherwise. |
| NewMobility.MillionsCancel | src/models/industry_transformation/new_mobility.py:307-314 | Scaling by the 1e6 fleet and dividing by 1e6 cancel. |
| NewMobility.EconomicsSeries | src/models/industry_transformation/new_mobility.py:298-328 | The per-year economics of an adoption series. |
| NewMobility.DefaultEconomics | src/models/industry_transformation/new_mobility.py:303-312 | The economics the run computes use 15000 km per vehicle a year: revenue = adoption × revenue rate × 15000, cost likewise. |
| NewMobility.MarginIsRateMargin | src/models/industry_transformation/new_mobility.py:310-327 | With non-zero adoption and km, the margin is 1 − cost rate / revenue rate. |
| NewMobility.ProfitSign | src/models/industry_transformation/new_mobility.py:200-213 | For positive adoption and km, profit is positive iff the service is not the subscription service, whose cost rate exceeds its revenue rate. |
| NewMobility.TraditionalRegionFactor | src/models/industry_transformation/new_mobility.py:161-172 | The region variation lies in [0.6, 1]. |
| NewMobility.TraditionalShare | src/models/industry_transformation/new_mobility.py:250-255 | The traditional share is positive, and from 2020 on at most 0.8 × the region factor. |
| NewMobility.TraditionalDeclineInUnit | src/models/industry_transformation/new_mobility.py:253 | The decline factor 0.97^(year−2020) is ≤ 1 from 2020 on. |
| NewMobility.LeaseBeforeDecline | src/models/industry_transformation/new_mobility.py:259-262 | The pre-decline leasing share is positive and at most 1.5 × base share. |
| NewMobility.LeaseDecline | src/models/industry_transformation/new_mobility.py:263-267 | After the peak year the decline factor is in (0,1). |
| NewMobility.DeclineFactor | src/models/industry_transformation/new_mobility.py:264-267 | The factor applied to the leasing share is in (0,1], and it is exactly 1 iff the year is not after the peak. |
| NewMobility.LeaseShare | src/models/industry_transformation/new_mobility.py:257-268 | The leasing share is positive and ≤ 1.5 × base. Years up to the peak are untouched by the decline, and later years are strictly below the capped value. |
| NewMobility.PowBelowOne | src/models/industry_transformation/new_mobility.py:267 | A base in (0,1) raised to a positive power stays below 1. |
| NewMobility.LeaseColumn | src/models/industry_transformation/new_mobility.py:257-268 | The leasing column, with the post-peak decline applied per year. |
| NewMobility.RawShare | src/models/industry_transformation/new_mobility.py:248-289 | Each pre-normalisation share is ≥ 0 for a non-negative curve. Traditional and leasing shares are positive. |
| NewMobility.TotalShare | src/models/industry_transformation/new_mobility.py:291 | The five-model total is positive for a non-negative curve, so normalisation never divides by 0. |
| NewMobility.ModelIndex | src/models/industry_transformation/new_mobility.py:26-32 | Each ownership model's position in declaration order. |
| NewMobility.ModelAt | src/models/industry_transformation/new_mobility.py:26-32 | Position and model are inverse. |
| NewMobility.RawShares | src/models/industry_transformation/new_mobility.py:248-289 | Every model gets its raw column. |
| NewMobility.Totals | src/models/industry_transformation/new_mobility.py:291 | The per-year totals, all positive. |
| NewMobility.DivideBy | src/models/industry_transformation/new_mobility.py:293-294 | Element-wise division of a column by the totals. |
| NewMobility.DivideNormalises | src/models/industry_transformation/new_mobility.py:291-294 | Dividing a raw column by the totals gives the normalised column. |
| NewMobility.SimulateOwnershipEvolution | src/models/industry_transformation/new_mobility.py:241-296 | Every model is present, and each column is its raw share divided by the per-year total. |
| NewMobility.NormalisedSharesSumToOne | src/models/industry_transformation/new_mobility.py:291-294 | After normalisation the five shares sum to 1 in every year. |
| NewMobility.SumOfQuotients | src/models/industry_transformation/new_mobility.py:291-294 | Five parts divided by their non-zero total sum to 1. |
| NewMobility.Upper | src/models/industry_transformation/new_mobility.py:359 | Upper-casing maps each character. |
| NewMobility.Lower | src/models/industry_transformation/new_mobility.py:359 | Lower-casing maps each character. |
| NewMobility.UpperOfLower | src/models/industry_transformation/new_mobility.py:359 | Upper-casing an upper-snake name after lower-casing it gives the name back. |
| NewMobility.RegionName | src/models/industry_transformation/new_mobility.py:34-40 | Region member names are upper-snake. |
| NewMobility.RegionByName | src/models/industry_transformation/new_mobility.py:359 | The name lookup finds x exactly when x's member name is the string. |
| NewMobility.SegmentName | src/models/industry_transformation/new_mobility.py:42-50 | Segment member names are upper-snake. |
| NewMobility.SegmentByName | src/models/industry_transformation/new_mobility.py:372 | The name lookup finds v exactly when v's member name is the string. |
| NewMobility.Resolve | src/models/industry_transformation/new_mobility.py:352-376 | 'all' or None selects every value. Otherwise it succeeds iff every item resolves, with the values in order. On failure, the error is the invalid-name message of the first unresolvable name. |
| NewMobility.LowerRegionNameResolves | src/models/industry_transformation/new_mobility.py:356-359 | A lower-case region name resolves to that region. |
| NewMobility.LowerSegmentNameResolves | src/models/industry_transformation/new_mobility.py:369-372 | A lower-case segment name resolves to that segment. |
| NewMobility.NonNameCharRejected | src/models/industry_transformation/new_mobility.py:358-361 | A region or segment name holding any character other than a letter or underscore resolves to nothing, whatever its case. |
| StrategyFramework.Gap | src/models/xyz_consulting_strategy/strategy_framework.py:38-40 | current + gap = target, and the gap is ≥ 0 iff current ≤ target. |
| StrategyFramework.TotalGap | src/models/xyz_consulting_strategy/strategy_framework.py:55 | The sum of the capabilities' gaps. GapsBounded and ProgressFraction state its bounds. |
| StrategyFramework.MaxGap | src/models/xyz_consulting_strategy/strategy_framework.py:56 | The sum of each current strength's distance to 5. GapsBounded and NoRoomNoGap relate it to TotalGap. |
| StrategyFramework.GapsBounded | src/models/xyz_consulting_strategy/strategy_framework.py:55-58 | On the 0-5 scale with current ≤ target, 0 ≤ total gap ≤ max gap. |
| StrategyFramework.Progress | src/models/xyz_consulting_strategy/strategy_framework.py:52-58 | 0 without capabilities and 1 when max gap ≤ 0. On the scale it is in [0,1], and it is 1 iff no gap remains. |
| StrategyFramework.ProgressFraction | src/models/xyz_consulting_strategy/strategy_framework.py:57-58 | 1 − total/max lies in [0,1] on the scale, and is 1 iff the total gap is 0. |
| StrategyFramework.NoRoomNoGap | src/models/xyz_consulting_strategy/strategy_framework.py:56-58 | On the scale, a max gap ≤ 0 means the total gap is 0. |
| StrategyFramework.Progresses | src/models/xyz_consulting_strategy/strategy_framework.py:120 | Each objective's progress, in order. |
| StrategyFramework.MeanProgress | src/models/xyz_consulting_strategy/strategy_framework.py:116-120 | 0 with no objectives. In [0,1] when every objective is on the scale. |
| StrategyFramework.ProgressesInUnit | src/models/xyz_consulting_strategy/strategy_framework.py:116-120 | The mean of on-scale progresses lies in [0,1]. |
| StrategyFramework.FilterPillar | src/models/xyz_consulting_strategy/strategy_framework.py:112-114 | Keeps exactly the objectives of the pillar. |
| StrategyFramework.ValuesOf | src/models/xyz_consulting_strategy/strategy_framework.py:114 | The registry's values in key order. |
| StrategyFramework.DefaultProgress | src/models/xyz_consulting_strategy/strategy_framework.py:68-102 | The two default objectives have progress 1/9 and 1/5, and mean progress 7/45. |
| StrategyFramework.XyzStrategy.constructor | src/models/xyz_consulting_strategy/strategy_framework.py:64-102 | The registry starts with the technology and client objectives, in that order. |
| StrategyFramework.XyzStrategy.AddObjective | src/models/xyz_consulting_strategy/strategy_framework.py:104-106 | Stores the objective under its name, replacing one of the same name. A new name goes last in key order, and every other name's objective is unchanged. |
| StrategyFramework.XyzStrategy.GetObjective | src/models/xyz_consulting_strategy/strategy_framework.py:108-110 | None iff the name is unknown, otherwise the stored objective. |
| StrategyFramework.XyzStrategy.Values | src/models/xyz_consulting_strategy/strategy_framework.py:114-120 | One value per key, containing exactly the stored objectives. |
| StrategyFramework.ValuesOfExact | src/models/xyz_consulting_strategy/strategy_framework.py:114-120 | Over a duplicate-free key order, the values are exactly the stored objectives, one per key. |
| StrategyFramework.DistinctNamesCount | src/models/xyz_consulting_strategy/strategy_framework.py:104-106 | A duplicate-free key order has as many entries as the map has keys. |
| StrategyFramework.XyzStrategy.ObjectivesByPillar | src/models/xyz_consulting_strategy/strategy_framework.py:112-114 | Exactly the stored objectives whose pillar matches. |
| StrategyFramework.XyzStrategy.OverallProgress | src/models/xyz_consulting_strategy/strategy_framework.py:116-120 | 0 with no objectives. In [0,1] when every stored objective is on the scale. |
| StrategyFramework.StrategicInitiative.constructor | src/models/xyz_consulting_strategy/strategy_framework.py:126-136 | Keeps the given fields. Progress starts at 0 with no risks. |
| StrategyFramework.StrategicInitiative.UpdateProgress | src/models/xyz_consulting_strategy/strategy_framework.py:138-140 | Progress becomes the value clamped into [0,1], unchanged when already inside. Risks are untouched. |
| StrategyFramework.StrategicInitiative.AddRisk | src/models/xyz_consulting_strategy/strategy_framework.py:142-144 | Appends the risk at the end; progress is untouched. |
| StrategyFramework.UpdateProgressIdempotent | src/models/xyz_consulting_strategy/strategy_framework.py:138-140 | Clamping twice equals clamping once. |
| MarketScenarios.NewScenario | src/scenarios/market_scenarios.py:52-79 | The given fields are kept. The parameters are exactly the three defaults. |
| MarketScenarios.ParametersIgnored | src/scenarios/market_scenarios.py:52-79 | The parameters passed in make no difference. |
| MarketScenarios.Select | src/scenarios/market_scenarios.py:87-92 | Optimistic and pessimistic read their own values; every other type reads the base value. |
| MarketScenarios.GetParameterValue | src/scenarios/market_scenarios.py:81-92 | Fails with the unknown-parameter message iff the name is absent. Otherwise it gives the type-selected value. |
| MarketScenarios.Compounded | src/scenarios/market_scenarios.py:98 | base × (1+g)^(year−2025). MarketSizeRecurrence states its base value and one-year recurrence. |
| MarketScenarios.CalculateMarketSize | src/scenarios/market_scenarios.py:94-100 | Exactly the years 2025..2025+horizon, each the base compounded by the budget growth. Fails iff that parameter is absent. |
| MarketScenarios.MarketSizeRecurrence | src/scenarios/market_scenarios.py:94-100 | 2025 holds the base, and each later year is the previous × (1+growth). |
| MarketScenarios.NewScenarioHasMarketSize | src/scenarios/market_scenarios.py:52-100 | A scenario built with defaults always yields a market size. |
| MarketScenarios.CreateScenarioBundle | src/scenarios/market_scenarios.py:103-121 | Base, optimistic and pessimistic scenarios with default parameters and a five-year horizon. |
| MarketScenarios.BundleProbabilitiesSumToOne | src/scenarios/market_scenarios.py:103-121 | The probabilities 0.6, 0.2 and 0.2 sum to 1. |
| MarketScenarios.DefaultsOrdered | src/scenarios/market_scenarios.py:55-79 | Every default has pessimistic ≤ base ≤ optimistic. |
| MarketScenarios.BundleValuesOrdered | src/scenarios/market_scenarios.py:81-121 | Every default parameter reads lowest in the pessimistic and highest in the optimistic scenario. |
| MarketScenarios.CompareParameter | src/scenarios/market_scenarios.py:130-135 | One entry per scenario, each that scenario's value. Fails iff some scenario lacks the parameter. |
| MarketScenarios.SensitivityAnalysis | src/scenarios/market_scenarios.py:137-142 | One market-size table per scenario. Fails iff some scenario lacks budget growth. |
| MarketScenarios.BundleBudgetGrowth | src/scenarios/market_scenarios.py:103-135 | On the bundle, budget growth compares as 0.05, 0.1 and −0.02. |
| MarketDynamics.ForecastMarketSize | src/models/consulting_marketplace/market_dynamics.py:43-45 | size × (1+g)^years. ForecastRecurrence and ForecastMonotone state its recurrence and monotonicity. |
| MarketDynamics.ForecastRecurrence | src/models/consulting_marketplace/market_dynamics.py:43-45 | The forecast at 0 years is the size, and each further year multiplies it by (1+growth). |
| MarketDynamics.ForecastMonotone | src/models/consulting_marketplace/market_dynamics.py:43-45 | With growth and size ≥ 0, a longer forecast is never smaller. |
| MarketDynamics.TotalSize | src/models/consulting_marketplace/market_dynamics.py:59-61 | The sum of every stored service's size. SizeOverUpdate, AddService and SampleTotal state how it changes and its sample value. |
| MarketDynamics.SizeOverUpdate | src/models/consulting_marketplace/market_dynamics.py:53-61 | Storing a service changes the total by the new size minus the replaced size. |
| MarketDynamics.ConsultingMarket.constructor | src/models/consulting_marketplace/market_dynamics.py:49-51 | The market holds exactly the services it is given, and is valid iff each is stored under its own type. CreateSampleMarket passes the empty default. |
| MarketDynamics.ConsultingMarket.AddService | src/models/consulting_marketplace/market_dynamics.py:53-55 | Stores the service under its type, replacing any of that type and leaving the others, on any market. The total changes by the size difference, and a valid market stays valid. |
| MarketDynamics.ConsultingMarket.GetMarketSize | src/models/consulting_marketplace/market_dynamics.py:57-61 | With no type it gives the total. With a type it succeeds iff that type is present, giving its size. |
| MarketDynamics.ConsultingMarket.ForecastMarket | src/models/consulting_marketplace/market_dynamics.py:63-68 | Exactly the stored types, each with its forecast. |
| MarketDynamics.CreateSampleMarket | src/models/consulting_marketplace/market_dynamics.py:71-100 | A fresh market holding exactly the three sample services, totalling 8500. |
| MarketDynamics.SampleTotal | src/models/consulting_marketplace/market_dynamics.py:71-100 | The three sample sizes total 8500. |
| Numeric.IntPow | src/models/industry_transformation/new_mobility.py:253 | A power with an integer exponent is positive, and equals `Pow` for exponents ≥ 0. |
| Numeric.Clamp | src/models/xyz_consulting_strategy/strategy_framework.py:140 | The result is in [lo,hi], equal to x inside and to the nearer bound outside. |

## Left out

- **Transcendental curves.** The logistic `np.exp` curves enter the model as
  function parameters: the AV level curve, the ownership logistic shares and
  the service-adoption curve. `logistic_growth` itself is not modelled.
- **Other forecasting modules.** `electrification.py` and
  `connected_mobility.py` are exp/interp curves with random noise and are not
  part of this model.
- **Randomness.** The Gaussian noise added to service adoption is a
  per-year input; only the final clip is modelled.
- **I/O and presentation.** `_save_results`, CSV writing, directory
  creation, plotting, dashboards, HTML reports and runner scripts are left
  out. The `share > 0` filter inside `_save_results` is not modelled.
- **Floating point.** All arithmetic is exact `real`; IEEE-754 rounding is
  not modelled.
- **Unused inputs.** The `MarketEntry` dataclass is never used by the
  simulation and is not modelled. The same holds for the `market_size` and
  `year` parameters of `_calculate_market_share` and the `vehicle_segment`
  parameter of `simulate_ownership_evolution`, which the code never reads.
- ChineseExpansion.ExpansionSimulator.SimulateExpansion: requires
  startYear ≥ 2025, although the program accepts any start year. Market
  sizes of earlier years would use negative growth exponents, which the model
  does not cover (see ChineseExpansion.MarketSize).
- ChineseExpansion.Turn: a turn whose manufacturer, presence entry or result
  list is missing changes nothing. The program would raise `KeyError`
  instead. In the simulation these entries always exist, as
  ChineseExpansion.ExpansionShape shows, so that path never arises.
- ChineseExpansion.ExpansionShape: the per-year list lengths and revenue
  alignment are promised only when the region and segment lists are
  duplicate-free. With a repeated region, the program appends twice per
  year, and the model leaves that count unstated. The exact records are
  still given by the reference run.
- ChineseExpansion.ExpansionSimulator.constructor: the simulator holds only
  the presence map. Regional conditions and manufacturer profiles are never
  written by the simulation, so they are static functions.
- ChineseExpansion.MarketSize: requires year ≥ 2025, so the growth
  exponent is a natural number. Earlier years, which would use negative
  exponents, are not modelled.
- ChineseExpansion.SharesCanSumPastOne: the shares of different
  manufacturers in one cell are never normalised. The model keeps this and
  exhibits a sum of 2.0 rather than correcting it.
- MarketDynamics.ForecastRecurrence: forecast years are natural numbers. A
  negative year count, which the program would evaluate as a reciprocal
  power, is not modelled.
- MarketDynamics.ConsultingMarket.GetMarketSize: the missing-type error
  carries the word "KeyError" rather than the exception's text.
- NewMobility.SimulateOwnershipEvolution: it requires the logistic shares to
  be non-negative in every year, as real logistic values are. That keeps the
  per-year total positive.
- NewMobility.Upper: upper-casing is ASCII-only. Unicode case mappings are
  not modelled: Python upper-cases 'ı' to 'I', the model leaves it alone.
- NewMobility.RegionByName: built on the ASCII-only Upper, so a name that
  only Python's full case mapping resolves is not found.
- NewMobility.SegmentByName: likewise ASCII-only, as for RegionByName.
- NewMobility.Resolve: a name that only Python's full case mapping
  resolves is a `Failure` in the model where the program accepts it.
- NewMobility.Resolve: only the argument resolution of
  `run_new_mobility_simulation` is modelled. Its nested result-building loop
  over services, regions and segments only combines the modelled
  operations and writes files, so it is left out.
- AutonomousVehicles.RunAvSimulation: the per-segment CSV files are not
  written. The program returns only the per-segment frames; its combined
  table is only written to `av_adoption_combined.csv`. The model's second
  output, `combined`, stands in for that file's rows.
- Default argument values are not modelled; every call passes them
  explicitly. The defaults are start year 2025 and end year 2040 for
  `simulate_expansion` (chinese_manufacturer_expansion.py:210-211), 2020
  and 2040 for `run_av_simulation` (autonomous_vehicles.py:137), 5 years for
  `forecast_market_size` and `forecast_market` (market_dynamics.py:43, 63),
  and a five-year horizon with probability 1.0 for `MarketScenario`
  (market_scenarios.py:48-49), and no services for `ConsultingMarket`
  (market_dynamics.py:51), which CreateSampleMarket passes as an empty map.
  The 15000 km of `calculate_service_economics`
  is modelled by NewMobility.DefaultEconomics.
