# Namma Market / Caffeine Crash simulation core in Dafny

This project models the simulation layer of a small agent-based market game
set in Karnataka. The repository carries two near-identical copies of that
layer. `caffeine_crash` is the richer copy, with rent, a rent history,
savings and a market mood. `namma_market` is the simpler original. The model
is a single engine parameterised by `Variant = CaffeineCrash | NammaMarket`.
`HasRent(v)` switches the rent subsystem on, and `Luxury(v)` picks the luxury
good (artisan coffee or flowers).

Each day (`MarketEngine.Step`) does the following in order:

1. The calendar advances by one day.
2. The season follows the month, and the weather is drawn from the season's
   100-entry pick list.
3. The richer copy applies the rent shock.
4. The Idli-set price is smoothed 20% of the way toward its cost-push target.
5. Every other tradable price is multiplied by a noisy factor with weather,
   season, rent and shock nudges, then floored at 5. Each price is appended
   to its history series.
6. The first headline candidate, if there is one, replaces the headline.
7. The sixteen agents act in roster order on the new state. The roster is 5
   ragi farmers, 3 coffee planters, 5 techies and 3 darshini owners.
8. The richer copy records the techies' average cash and the mood it sets
   against the rent.
9. The day's sixteen log lines go in front of the log window, which keeps
   the newest 50.

The model follows the source's shape:

- `MarketState`, `Agent` and `MarketEngine` are classes whose methods update
  their fields.
- Each agent policy and the price update are written twice:
  - as methods that follow the source's statements;
  - as closed-form functions (`FarmerDay`, `DarshiniDay`, `TechieDay`,
    `NextPrices`, `TickNews`, `ClimateHeadline`).
- The methods are proved equal to the functions, and the properties the
  game relies on are proved about the functions.
- `Step` is specified by two predicates:
  - `Moved` relates the market fields before and after the day;
  - `Settled` relates the agents, the techie figures and the log window
    before and after the day.

A ragi farmer is the one subtle case. Its starting inventory is written as
`{crop: 0, RAGI: 10}`, which for a ragi farmer is the single entry
`{RAGI: 10}`, so it eats out of the crop it has just harvested. Its stock after
the sale is min(old + yield − 1, 2), not min(old + yield, 2). `FarmerStock`
states both cases.

Where a comment and the code disagree, the model follows the code. The
comment at caffeine_crash/simulation/engine.py:79 gives the Idli cost basis
as 1.5 × rice + 0.5 × coffee + 10, but the code on line 81 uses 0.1 × coffee,
and so does `IdliTarget`.

Source files are cited as `<copy>/simulation/<file>:<lines>`. Where both
copies share a rule, one copy is cited, and the `states` column notes how the
other copy differs.

## Model

| member | source | states |
|---|---|---|
| Catalog.InitialPrices | caffeine_crash/simulation/models.py:36-43 | the initial prices cover exactly the tradable resources, the currency has no price, and every price is at or above the floor of 5 (the same holds for namma_market/simulation/models.py:33-40's map) |
| Catalog.IndexOf | caffeine_crash/simulation/models.py:12-19 | a resource sits at position `i` of its copy's enum exactly when its index is `i` |
| Catalog.ResourcesEnumerateTradable | caffeine_crash/simulation/models.py:49-51 | iterating the enum and skipping INR visits exactly the tradable resources, each once |
| Calendar.NextDay | caffeine_crash/simulation/engine.py:151 | the next day is a valid date after the given one with no valid date in between, in the same month or the next |
| Calendar.LeapDay | caffeine_crash/simulation/engine.py:151 | 28 February is followed by 29 February exactly in Gregorian leap years |
| Climate.SeasonOf | caffeine_crash/simulation/engine.py:37-43 | the season is a total function of the month: March–May Summer, June–September Monsoon, October–December Post-Monsoon, every other month Winter, each as an if-and-only-if |
| Climate.Weighted | caffeine_crash/simulation/engine.py:52-58 | a weighted pick list has the summed length and contains a tag exactly when its weight is positive |
| Climate.WeatherChoices | caffeine_crash/simulation/engine.py:50-58 | every season's pick list has exactly 100 entries, Drought is on it exactly in Summer, and Sunny and Rainy are on every list |
| Climate.DrawWeather | caffeine_crash/simulation/engine.py:60 | the drawn weather is on the season's list, and a drought is drawn only in Summer |
| Climate.ClimateHeadline | caffeine_crash/simulation/engine.py:45-66 | a newly started drought sets the drought alert and rain outside the Monsoon sets the rain headline; either alert replaces a different headline only under its own condition; with neither condition the headline is the new season's announcement on a season change and the old headline otherwise |
| Pricing.Clamp | caffeine_crash/simulation/engine.py:138 | the floored price equals the input when the input is at or above 5, and is exactly 5 otherwise |
| Pricing.Scaled | caffeine_crash/simulation/engine.py:137-138 | a scaled price equals price × factor whenever that product is at or above 5, and is exactly 5 otherwise |
| Pricing.ScaledWithin | caffeine_crash/simulation/engine.py:137-138 | scaling a price at or above 5 by a factor in [0.88, 1.17] lands at or above 0.88 × the price, and at most 1.17 × the price unless the floor lifts it |
| Pricing.IdliTarget | caffeine_crash/simulation/engine.py:81-82 | with rice and coffee at or above 5 the Idli target is at least 21.6 |
| Pricing.IdliCostPush | caffeine_crash/simulation/engine.py:81-82 | dearer rice or coffee never lowers the Idli target, and dearer rice strictly raises it |
| Pricing.SmoothIdli | caffeine_crash/simulation/engine.py:80-84 | the new Idli price closes exactly 20% of the gap to 1.2 × (1.5 × rice + 0.1 × coffee + 10) and lies between the old price and that target (same rule at namma_market/simulation/engine.py:77-82) |
| Pricing.IdliStaysAboveFloor | caffeine_crash/simulation/engine.py:80-84 | with Idli, rice and coffee at or above 5 the target is at least 21.6, so the never-clamped Idli price stays at or above 5 |
| Pricing.ArtisanFactor | caffeine_crash/simulation/engine.py:96-114 | the artisan-coffee nudges keep the factor within [noise − 0.035, noise + 0.015]; rent above 3000 drags it at least 0.005 below the noise; low rent and a price under the ceiling lift it at least 0.005 above |
| Pricing.RentDrag | caffeine_crash/simulation/engine.py:105-111 | the rent nudge is −0.015 above 3000, −0.005 above 2500 up to 3000 and +0.005 otherwise, so it is negative exactly when rent is above 2500 |
| Pricing.ArtisanRentSqueeze | caffeine_crash/simulation/engine.py:105-111 | a higher rent never raises the artisan-coffee factor |
| Pricing.ArtisanCostPush | caffeine_crash/simulation/engine.py:98-101 | raw beans above 260 raise the artisan-coffee factor by exactly 0.01 over any bean price at or below 260, all else equal |
| Pricing.ArtisanBase | caffeine_crash/simulation/engine.py:96-114 | with raw beans at or below 260 and the own price at or below 500, the artisan-coffee factor is exactly the noise plus `RentDrag(rent)` (−0.015, −0.005 or +0.005 by rent tier); with `ArtisanCostPush` and `ArtisanCeiling` this fixes the factor on every input |
| Pricing.ArtisanCeiling | caffeine_crash/simulation/engine.py:114 | an artisan-coffee price above 500 lowers the factor by exactly 0.02 against any price at or below 500, all else equal |
| Pricing.FlowersFactor | namma_market/simulation/engine.py:94-106 | with the fresh Idli price above 60 the factor is noise − 0.05 with no boost; otherwise it is the noise plus exactly the drawn boost (in [0.05, 0.15]) in Post-Monsoon, and the noise alone in other seasons |
| Pricing.CoffeeFactor | namma_market/simulation/engine.py:109-114 | a drought adds at least 0.03 to the raw-coffee factor (0.03 here, 0.04 at caffeine_crash/simulation/engine.py:117-120); otherwise the factor is the noise, less 0.01 in the simpler copy's Winter |
| Pricing.CoffeeNudge | namma_market/simulation/engine.py:109-114 | the raw-coffee factor is the noise plus exactly 0.03 under drought (0.04 at caffeine_crash/simulation/engine.py:117-120), minus exactly 0.01 in the simpler copy's Winter without drought, and the noise otherwise |
| Pricing.StapleFactor | caffeine_crash/simulation/engine.py:123-125 | the ragi and rice factor exceeds the noise exactly under drought, and then by exactly 0.05 |
| Pricing.CodeFactor | caffeine_crash/simulation/engine.py:128-135 | without a shock the Code factor is the noise plus the richer copy's 0.001 drift; a shock adds exactly ±0.05 (±0.1 at namma_market/simulation/engine.py:122-127) |
| Pricing.CodeShift | caffeine_crash/simulation/engine.py:128-135 | a fired shock makes the Code factor exactly the noise plus the drift plus the drawn shift |
| Pricing.CodeNewsMatchesShift | namma_market/simulation/engine.py:122-127 | in the simpler copy a fired Code shock is announced as a boom exactly when it lifts the factor above the noise and as a recession exactly when it lowers it |
| Pricing.FactorBand | caffeine_crash/simulation/engine.py:90-135 | with a valid draw every resource's factor stays within 0.1 below and 0.15 above the noise, hence within [0.88, 1.17] |
| Pricing.FactorDispatch | caffeine_crash/simulation/engine.py:90-135 | Ragi and Rice take the staple nudge, raw coffee the weather and season nudge, artisan coffee the rent nudge, Flowers the Idli nudge and Code the shock; INR and the Idli set take the noise alone |
| Pricing.FactorIgnoresBeans | caffeine_crash/simulation/engine.py:96-100 | only the artisan-coffee factor reads the raw-bean price |
| Pricing.News | namma_market/simulation/engine.py:91-127 | a resource emits a headline candidate only when its random test fires; a fired Code shock in the simpler copy emits Boom for an upward shift and Recession for a downward one; the richer copy's Code emits none |
| Pricing.NewsConditions | namma_market/simulation/engine.py:91-127 | each candidate is emitted exactly when its test fires under its condition: a staple shortage or crop failure in a drought, low footfall (caffeine_crash/simulation/engine.py:105-107) with rent above 3000, a flower slump with Idli above 60; INR and the Idli set never emit |
| Pricing.Candidates | namma_market/simulation/engine.py:84-127 | the loop yields at most one candidate per enum member and none from the Idli set or INR, so at most 5, and none when no resource's random test fired |
| Pricing.TickNews | caffeine_crash/simulation/engine.py:69-76 | a rent hike in the richer copy makes the rent-hike headline the first candidate; an update has at most 6 candidates |
| Pricing.NextPrices | caffeine_crash/simulation/engine.py:78-139 | one update prices exactly the resources that had prices |
| Pricing.NextPricesShape | caffeine_crash/simulation/engine.py:80-138 | after an update the Idli price is the smoothed one and every other price is at or above 5 |
| Pricing.PriceMoveBounded | caffeine_crash/simulation/engine.py:80-139 | one update moves no price other than Idli's below 0.88 × or above 1.17 × its old value, except where the floor lifts it |
| Pricing.NextPriceAt | caffeine_crash/simulation/engine.py:96-100 | the loop's price for a resource is the closed-form new price; artisan coffee must read the raw-bean price already rewritten in this update |
| Pricing.NewPriceRule | caffeine_crash/simulation/engine.py:80-139 | the Idli set gets the smoothed price and no floor; artisan coffee is scaled by a factor that reads the raw-bean price of this same update; every other resource is scaled by its own factor; every price but Idli's is at least 5 |
| Pricing.Visit | caffeine_crash/simulation/engine.py:86-139 | one loop pass rewrites only the visited resource's price, to a value at or above 5 |
| Pricing.VisitAdvances | caffeine_crash/simulation/engine.py:86-139 | the visit to the `i`-th enum member moves the prices from "first `i` members updated" to "first `i + 1` members updated" |
| Pricing.StagedAdvances | caffeine_crash/simulation/engine.py:137 | writing the `i`-th member's new price advances the staged price map by one member |
| Pricing.VisitReads | caffeine_crash/simulation/engine.py:86-139 | the visit to the `i`-th member reads the smoothed Idli price, writes the member's new price and adds the member's candidate, if any, to the list |
| Pricing.SkipKeeps | caffeine_crash/simulation/engine.py:87-88 | passing INR or the Idli set in the loop changes neither prices nor series |
| Pricing.SeriesAdvances | caffeine_crash/simulation/engine.py:139 | a visit appends the new price to the visited resource's series and to no other |
| Pricing.StagedComplete | caffeine_crash/simulation/engine.py:86-139 | after the whole enum, the loop's prices are exactly the closed-form price map |
| Pricing.SeriesComplete | caffeine_crash/simulation/engine.py:139-142 | the loop's appends plus the Idli append after the loop extend every series by exactly its new price |
| Pricing.PricesStayAboveFloor | caffeine_crash/simulation/engine.py:137-138 | if every price is at or above 5 before an update, every price, Idli included, is at or above 5 after it |
| Pricing.DroughtRaisesStaples | caffeine_crash/simulation/engine.py:117-125 | under drought the ragi, rice and raw-coffee prices strictly rise |
| Market.PriceBookAppended | caffeine_crash/simulation/engine.py:137-142 | new prices on the same resources, all at or above 5 and appended to their series, keep every series one entry per update plus the seed and ending in the current price |
| Market.RentTrailExtends | caffeine_crash/simulation/engine.py:145 | appending a rent that does not fall keeps the rent history in step with the ticks, starting at 2000, non-decreasing and ending in the current rent |
| Market.MarketState.constructor | caffeine_crash/simulation/models.py:27-51 | a fresh state is 2025-01-01, Winter, Sunny, rent 2000, at the initial prices, with rent history [2000] in the richer copy and [] in the simpler one, and one single-entry series per tradable resource holding its initial price; INR has neither a price nor a series |
| Market.MarketState.PostInit | caffeine_crash/simulation/models.py:47-51 | the loop over the enum seeds exactly the non-INR resources, each with `[prices.get(r, 0)]`, and records the rent in the richer copy only (namma_market/simulation/models.py:43-46 has no rent) |
| Market.MarketState.Commit | caffeine_crash/simulation/engine.py:137-148 | storing one update's outcome leaves the state consistent one tick later |
| Agents.InitialBooks | caffeine_crash/simulation/agents.py:18-82 | every kind starts with the inventory entries its policy indexes, positive cash and no negative stock |
| Agents.FarmerYield | caffeine_crash/simulation/agents.py:25-27 | the harvest is positive: 10 exactly in Sunny weather, 1 exactly in a drought, 5 otherwise |
| Agents.Harvest | caffeine_crash/simulation/agents.py:29 | the harvest adds the yield to the crop entry, creating it if absent, and changes nothing else |
| Agents.EatRagi | caffeine_crash/simulation/agents.py:31-39 | one ragi is eaten when any is held; otherwise one is bought exactly when the cash covers its price, leaving the cash non-negative; other entries are untouched |
| Agents.Surplus | caffeine_crash/simulation/agents.py:42 | the surplus is non-negative and positive exactly when the crop exceeds the buffer of 2 |
| Agents.SellSurplus | caffeine_crash/simulation/agents.py:41-46 | after the sale the crop entry is min(stock, 2), the cash rises by exactly surplus × price, and nothing else changes |
| Agents.FarmerDay | namma_market/simulation/agents.py:23-49 | the farmer's log reports the weather's yield for its crop; only the simpler copy reports a sale, and it reports exactly the stock after harvest and the ragi meal (one unit less for a ragi farmer) minus the buffer of 2, when that is positive |
| Agents.FarmerStock | caffeine_crash/simulation/agents.py:20-46 | a planter ends with min(old + yield, 2) coffee and eats one ragi from stock or buys one when affordable; a ragi farmer ends with min(old + yield − 1, 2) ragi |
| Agents.FarmerCash | caffeine_crash/simulation/agents.py:36-46 | a planter's cash moves by minus the ragi it buys plus the price of every unit above the buffer; a ragi farmer buys nothing and is paid for every unit above the buffer left after eating one |
| Agents.FarmerSolvent | caffeine_crash/simulation/agents.py:36-46 | a farmer starting with non-negative cash never ends the day in debt |
| Agents.Restock | caffeine_crash/simulation/agents.py:57-67 | a restock changes the holdings exactly when the stock is under the threshold and the cash covers the cost, and then adds the batch and deducts the cost |
| Agents.Cook | caffeine_crash/simulation/agents.py:69-74 | the recipe runs exactly when rice ≥ 1 and coffee ≥ 0.2, consuming exactly 1 and 0.2 and adding 5 Idli sets, and otherwise changes nothing |
| Agents.DarshiniDay | caffeine_crash/simulation/agents.py:55-76 | a darshini never goes into debt from non-negative cash and never gains cash; it produces 0 or 5 Idli sets, 5 whenever its stock already allows the recipe, with Idli stock growing by exactly the amount produced; rice rises only when under 5 and affordable, coffee only when under 2 |
| Agents.TechieDay | caffeine_crash/simulation/agents.py:84-118 | a techie's cash is old + wage − rent (richer copy only) − the Idli price if it ate − the luxury price if it treated itself; it eats exactly when it can pay; it buys the luxury exactly when it ate and has more than the savings target and at least the price left; in the simpler copy cash stays non-negative (namma_market/simulation/agents.py:85-117) |
| Agents.RentCanOverdraw | caffeine_crash/simulation/agents.py:89-91 | the unconditional rent can leave a techie with negative cash, having bought nothing |
| Agents.DarshiniStarved | caffeine_crash/simulation/agents.py:57-76 | a darshini short of both inputs that cannot afford either restock cooks nothing and keeps its holdings |
| Agents.Day | caffeine_crash/simulation/agents.py:13-16 | one day of any agent runs its kind's policy: the agent keeps the entries its policy reads, and its log line carries its name and is a harvest, cooking or spending line exactly for a farmer, darshini owner or techie |
| Agents.Agent.InitFarmer | caffeine_crash/simulation/agents.py:19-21 | a new farmer holds none of its crop, 10 ragi and 500 in cash; for a ragi farmer the two entries are one, holding 10 ragi |
| Agents.Agent.InitDarshini | caffeine_crash/simulation/agents.py:52-53 | a new darshini is in Bengaluru with 10 rice, 5 coffee, no Idli and 2000 in cash |
| Agents.Agent.InitTechie | caffeine_crash/simulation/agents.py:79-82 | a new techie is in Bengaluru with nothing in stock and 40000 in cash (5000 at namma_market/simulation/agents.py:82-83) |
| Agents.Agent.Act | caffeine_crash/simulation/agents.py:13-16 | an agent's act is one day of its kind's policy, and it keeps the entries its policy needs |
| Agents.Agent.ActAsFarmer | caffeine_crash/simulation/agents.py:23-49 | the farmer's statements compute exactly `FarmerDay` |
| Agents.Agent.Reap | caffeine_crash/simulation/agents.py:29 | the statement computes exactly `Harvest` |
| Agents.Agent.EatOrBuyRagi | caffeine_crash/simulation/agents.py:31-39 | the statements compute exactly `EatRagi` |
| Agents.Agent.SellExcess | caffeine_crash/simulation/agents.py:41-46 | the statements sell exactly the surplus and compute `SellSurplus` |
| Agents.Agent.ActAsDarshini | caffeine_crash/simulation/agents.py:55-76 | the darshini's statements compute exactly `DarshiniDay` |
| Agents.Agent.RestockIfLow | caffeine_crash/simulation/agents.py:57-61 | the guarded purchase computes exactly `Restock` |
| Agents.Agent.CookIdli | caffeine_crash/simulation/agents.py:69-74 | the recipe statements compute exactly `Cook` and report 5 or 0 |
| Agents.Agent.ActAsTechie | caffeine_crash/simulation/agents.py:84-118 | the techie's statements compute exactly `TechieDay` |
| Engine.RosterKind | caffeine_crash/simulation/engine.py:13-31 | slots 0–7 are farmers (ragi for 0–4, coffee for 5–7), slots 8–12 techies and the rest darshini owners |
| Engine.Sentiment | caffeine_crash/simulation/engine.py:171-177 | the ratio test of the average cash to the rent classifies the mood as `MoodOf`: Panic below 5 days of rent, Anxious below 15, Optimistic otherwise |
| Engine.RatioBelow | caffeine_crash/simulation/engine.py:171-172 | comparing cash / rent with a bound is comparing the cash with bound × rent, for positive rent |
| Engine.MoodMonotone | caffeine_crash/simulation/engine.py:171-177 | a richer average never worsens the mood |
| Engine.Roll | caffeine_crash/simulation/engine.py:179-180 | the new window is the day's lines followed by the old window, cut to 50 entries |
| Engine.ReplayFills | caffeine_crash/simulation/engine.py:179-180 | with 16 lines a day, after `n` days the window holds min(16n, 50) lines, newest day first |
| Engine.TechieTally | caffeine_crash/simulation/engine.py:159-164 | the running techie count and cash over the first `n` slots cover exactly the techie slots 8–12 among them |
| Engine.RosterTechies | caffeine_crash/simulation/engine.py:159-168 | the roster has exactly 5 techies, and their cash is the cash of slots 8–12 |
| Engine.InitAgents | caffeine_crash/simulation/engine.py:13-31 | the roster is 16 distinct new agents, each of its slot's kind, name and region and at its starting holdings |
| Engine.Hire | caffeine_crash/simulation/engine.py:16-29 | a group loop appends `count` new distinct agents for the next slots and keeps those already hired |
| Engine.Recruit | caffeine_crash/simulation/engine.py:17-29 | a new agent is made for its slot's kind, name and region |
| Engine.MarketEngine.constructor | caffeine_crash/simulation/engine.py:8-11 | a fresh engine has a fresh state at the initial prices and rent, the roster at its starting holdings, and no logs |
| Engine.MarketEngine.Step | caffeine_crash/simulation/engine.py:150-180 | one day: the market fields move as `Moved` states (next date, season, drawn weather, rent, closed-form prices, appended series, one more tick, first news or the climate headline); every agent acts as its roster member on the new state; the window gains the 16 lines in roster order in front and keeps 50; the richer copy records the techie average and mood (namma_market/simulation/engine.py:142-153 without the last part) |
| Engine.MarketEngine.Advance | caffeine_crash/simulation/engine.py:151-153 | the date, season, weather and price updates together perform `Moved` and touch no agent |
| Engine.MarketEngine.Settle | caffeine_crash/simulation/engine.py:155-180 | the agent pass, the techie survey and the log update together perform `Settled` and leave the market fields alone |
| Engine.MarketEngine.Trade | caffeine_crash/simulation/engine.py:159-180 | every agent acts on the current weather, prices and rent, and its lines head the window |
| Engine.MarketEngine.Survey | caffeine_crash/simulation/engine.py:166-177 | the richer copy records the techies' average cash (slots 8–12, divided by 5) and its mood; the simpler copy changes neither |
| Engine.MarketEngine.Record | caffeine_crash/simulation/engine.py:179-180 | the window becomes the day's lines followed by the old lines, cut to 50 |
| Engine.MarketEngine.Gauge | caffeine_crash/simulation/engine.py:167-177 | the average is total / count when there are techies and is otherwise kept; the mood is the average's mood against the rent |
| Engine.MarketEngine.AgentsAct | caffeine_crash/simulation/engine.py:159-161 | the agent loop runs every agent once, in roster order, from its holdings before the loop |
| Engine.MarketEngine.ActOne | caffeine_crash/simulation/engine.py:160 | one agent acts as its roster member does and no other agent changes |
| Engine.MarketEngine.Tally | caffeine_crash/simulation/engine.py:155-164 | the loop sums the techies' cash and counts them |
| Engine.MarketEngine.UpdateSeasonAndWeather | caffeine_crash/simulation/engine.py:33-66 | the season is the month's, the weather is the pick from the season's list, and the headline is `ClimateHeadline` of the old and new season and weather |
| Engine.MarketEngine.UpdatePrices | caffeine_crash/simulation/engine.py:68-148 | one update raises the rent by the hike (richer copy only), sets the closed-form prices, appends each to its series and the rent to its history, keeps the state consistent one tick later, and makes the first candidate, if any, the headline |
| Engine.MarketEngine.Update | caffeine_crash/simulation/engine.py:73-148 | the update on the fields' values keeps prices at or above 5, the series in step and the rent history monotone |
| Engine.MarketEngine.BooksAdvance | caffeine_crash/simulation/engine.py:137-145 | one update with a rent that does not fall keeps the price book (all prices at least 5, every series one entry longer ending in the new price) and the rent trail consistent |
| Engine.MarketEngine.CloseTick | caffeine_crash/simulation/engine.py:145-148 | the rent is appended in the richer copy only, and the first candidate, if any, becomes the headline |
| Engine.MarketEngine.Reprice | caffeine_crash/simulation/engine.py:78-142 | the Idli step, the loop and the Idli append produce the closed-form prices, one new entry per series, and the candidates in loop order |
| Engine.MarketEngine.ShockRent | caffeine_crash/simulation/engine.py:73-76 | a positive hike raises the rent and yields the rent-hike headline with the new rent; otherwise nothing happens |
| Engine.MarketEngine.ResourcePass | caffeine_crash/simulation/engine.py:86-139 | the loop over the enum produces the closed-form prices, appends one entry per visited series and collects the candidates in order |
| Engine.MarketEngine.PassOne | caffeine_crash/simulation/engine.py:86-139 | one iteration skips INR and the Idli set and otherwise advances prices, series and candidates by one member |
| Engine.MarketEngine.AdjustPrice | caffeine_crash/simulation/engine.py:90-139 | one resource is scaled by its factor, floored at 5 and appended to its series, and its headline candidate is returned |
| Engine.MarketEngine.Floored | caffeine_crash/simulation/engine.py:137-138 | the price times the change, raised to 5 when it falls below 5 (equal to `Clamp`) |

## Left out

- Randomness. Every `random.choice`, `random.uniform` and `random.random`
  draw is a parameter of `Step`: the weather index `pick`, the rent `hike` (0
  when the 2% shock does not fire), and one `ResourceDraw` per resource. The
  preconditions bound each draw's range. Distributions and probabilities are
  not modelled.
- Floating point. Prices and cash are exact reals, so IEEE-754 rounding is
  not modelled. This includes the accumulating error of the 0.2 coffee
  deductions.
- Wording. Headlines, log lines and mood strings are tags. Their wording and
  the f-string number formatting are not modelled, but their count, order and
  which candidate wins are.
- Names. An agent name is a group prefix plus a number, `Name(Raitha, 0)` for
  "Raitha-0", rather than a string.
- Dates. A date is only a (year, month, day) triple with a Gregorian
  successor. The `datetime` time of day and its formatting are not modelled.
- Agent classes. `Agent`, `Farmer`, `DarshiniOwner` and `Techie` are one
  class with a `kind` field instead of a class hierarchy, and `act`
  dispatches on the kind. `Region` is stored but never read.
- Engine.MarketEngine.Step: the richer copy sums the techies' cash inside
  the agent loop. The model sums it after the loop with `Tally`. Every agent
  changes only its own cash, so the sums agree.
- Engine.MarketEngine.Step: the richer copy writes the mood before the log
  window, and the model writes the window first. The two writes touch
  disjoint fields.
- Engine.MarketEngine.UpdatePrices: the source updates the `prices` dict and
  the `history` lists entry by entry. The model runs the same loop on values
  and stores the outcome with `MarketState.Commit`. Nothing else holds these
  containers during an update, so no intermediate state is observable.
- Rent, mood and average cash in the simpler copy. `namma_market`'s market
  state has no rent, rent history, mood or average techie cash. The model
  shares one `MarketState` between the copies, and in the simpler copy it
  holds a constant rent of 2000, an empty rent history, and a mood and an
  average that never change.
- The user interface, `caffeine_crash/ui/app.py` and
  `namma_market/ui/app.py`, is not part of this model. This includes the
  pause flag, the timers and the charts.
