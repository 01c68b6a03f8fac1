// `MarketEngine`: owns the market state, the fixed roster of sixteen agents
// and the rolling log window, and advances the world one day per `Step`.
// The random draws of a day (the weather pick, the rent shock, one draw per
// resource) are parameters of `Step`, so every step is a deterministic
// function of the state before it and of those draws.

module Engine {

  import opened Catalog
  import opened Calendar
  import opened Climate
  import opened Pricing
  import opened Market
  import opened Agents

  /** How many log lines the engine keeps. */
  const LogCap: nat := 50

  /** Size of the roster: 5 farmers, 3 planters, 5 techies, 3 darshinis. */
  const RosterSize: nat := 16

  /** The kind of agent `i` in roster order: ragi farmers, then coffee
      planters, then techies, then darshini owners. */
  function RosterKind(i: nat): (k: AgentKind)
    requires i < RosterSize
    ensures k == Techie <==> 8 <= i < 13
    ensures k.Farmer? <==> i < 8
    ensures k.Farmer? ==> k.crop == (if i < 5 then Ragi else Coffee)
  {
    if i < 5 then Farmer(Ragi)
    else if i < 8 then Farmer(Coffee)
    else if i < 13 then Techie
    else DarshiniOwner
  }

  /** The name of agent `i`: its group's prefix and its index within the
      group, as in "Raitha-0" or "Darshini-2". */
  function RosterName(i: nat): Name
    requires i < RosterSize
  {
    if i < 5 then Name(Raitha, i)
    else if i < 8 then Name(Planter, i - 5)
    else if i < 13 then Name(Dev, i - 8)
    else Name(Darshini, i - 13)
  }

  /** The region of agent `i`: farmers in Mandya, planters in Coorg, and
      everyone else in Bengaluru. */
  function RosterRegion(i: nat): Region
    requires i < RosterSize
  {
    if i < 5 then Mandya else if i < 8 then Coorg else Bengaluru
  }

  /** The market mood, from the techies' average cash measured in days of
      rent: under 5 days is panic, under 15 anxiety, otherwise optimism. */
  function MoodOf(avgCash: real, rent: real): Mood {
    if avgCash < 5.0 * rent then Panic else if avgCash < 15.0 * rent then Anxious else Optimistic
  }

  /** The techies' average cash and the mood it sets against `rent`. */
  function Outlook(avgCash: real, rent: real): (real, Mood) {
    (avgCash, MoodOf(avgCash, rent))
  }

  /** The mood as a step computes it, through the ratio of the average cash
      to the rent. */
  method Sentiment(avgCash: real, rent: real) returns (m: Mood)
    requires rent > 0.0
    ensures m == MoodOf(avgCash, rent)
  {
    var ratio := avgCash / rent;
    RatioBelow(avgCash, rent, 5.0);
    RatioBelow(avgCash, rent, 15.0);
    if ratio < 5.0 {
      m := Panic;
    } else if ratio < 15.0 {
      m := Anxious;
    } else {
      m := Optimistic;
    }
  }

  /** Dividing by a positive rent preserves comparisons. */
  lemma RatioBelow(a: real, rent: real, k: real)
    requires rent > 0.0
    ensures a / rent < k <==> a < k * rent
  {
    var q := a / rent;
    assert q * rent == a;
    assert q < k ==> q * rent < k * rent;
    assert q >= k ==> q * rent >= k * rent;
  }

  /** A richer average never worsens the mood. */
  lemma MoodMonotone(a1: real, a2: real, rent: real)
    requires rent > 0.0 && a1 <= a2
    ensures MoodOf(a1, rent) == Optimistic ==> MoodOf(a2, rent) == Optimistic
    ensures MoodOf(a2, rent) == Panic ==> MoodOf(a1, rent) == Panic
  {
  }

  /** The log window after a day: the day's lines in agent order, then the
      older lines, cut to the newest 50. */
  function Roll(daily: seq<LogLine>, logs: seq<LogLine>): (r: seq<LogLine>)
    ensures |r| == if |daily| + |logs| <= LogCap then |daily| + |logs| else LogCap
    ensures forall j :: 0 <= j < |r| && j < |daily| ==> r[j] == daily[j]
    ensures forall j :: |daily| <= j < |r| ==> r[j] == logs[j - |daily|]
  {
    var all := daily + logs;
    if |all| <= LogCap then all else all[..LogCap]
  }

  /** The log window after a run of days, oldest day first. */
  function Replay(days: seq<seq<LogLine>>): seq<LogLine> {
    if days == [] then [] else Roll(days[|days| - 1], Replay(days[..|days| - 1]))
  }

  /** With one line per agent per day, after `n` days the window holds
      min(16n, 50) lines, and the newest day's lines come first. */
  lemma {:induction false} ReplayFills(days: seq<seq<LogLine>>)
    requires forall k :: 0 <= k < |days| ==> |days[k]| == RosterSize
    ensures |Replay(days)| == if RosterSize * |days| <= LogCap then RosterSize * |days| else LogCap
    ensures days != [] ==> Replay(days)[..RosterSize] == days[|days| - 1]
  {
    if days != [] {
      ReplayFills(days[..|days| - 1]);
      var r := Replay(days);
      assert |r| >= RosterSize;
      assert forall j :: 0 <= j < RosterSize ==> r[j] == days[|days| - 1][j];
    }
  }

  /** What roster member `j` of copy `v` does in a day, starting from
      `before`, in weather `w` at `prices` and `rent`. */
  function Today(v: Variant, j: nat, before: Holdings, w: Weather, prices: map<Resource, real>,
                 rent: real): AgentDay
    requires j < RosterSize && Stocked(v, RosterKind(j), before.inventory) && Tradable(v) <= prices.Keys
  {
    Day(v, RosterKind(j), RosterName(j), before, w, prices, rent)
  }

  /** The techies' summed cash among the first `n` holdings of `hs`, in
      roster order. */
  function TechieCash(hs: seq<Holdings>, n: nat): real
    requires n <= |hs| && n <= RosterSize
  {
    if n == 0 then 0.0 else TechieCash(hs, n - 1) + (if RosterKind(n - 1) == Techie then hs[n - 1].cash else 0.0)
  }

  /** The number of techies among the first `n` roster slots. */
  function TechieCount(hs: seq<Holdings>, n: nat): nat
    requires n <= |hs| && n <= RosterSize
  {
    if n == 0 then 0 else TechieCount(hs, n - 1) + (if RosterKind(n - 1) == Techie then 1 else 0)
  }

  /** The summed cash of holdings `lo` to `hi - 1` of `hs`. */
  function CashSum(hs: seq<Holdings>, lo: nat, hi: nat): real
    requires lo <= hi <= |hs|
    decreases hi - lo
  {
    if lo == hi then 0.0 else CashSum(hs, lo, hi - 1) + hs[hi - 1].cash
  }

  /** The running techie tally over the first `n` slots: nothing before
      slot 8, then one techie per slot up to slot 12. */
  lemma {:induction false} TechieTally(hs: seq<Holdings>, n: nat)
    requires |hs| == RosterSize && n <= RosterSize
    ensures TechieCount(hs, n) == if n <= 8 then 0 else if n <= 13 then n - 8 else 5
    ensures TechieCash(hs, n) == CashSum(hs, 8, if n <= 8 then 8 else if n <= 13 then n else 13)
  {
    if n > 0 {
      TechieTally(hs, n - 1);
    }
  }

  /** The roster holds five techies, in slots 8 to 12, so the techie tally
      counts five and sums the cash of those five. */
  lemma RosterTechies(hs: seq<Holdings>)
    requires |hs| == RosterSize
    ensures TechieCount(hs, RosterSize) == 5 && TechieCash(hs, RosterSize) == CashSum(hs, 8, 13)
  {
    TechieTally(hs, RosterSize);
  }

  /** `_init_agents`: the roster, built group by group. */
  method InitAgents(v: Variant) returns (agents: seq<Agent>)
    ensures |agents| == RosterSize
    ensures forall j :: 0 <= j < RosterSize ==> fresh(agents[j]) && Staffed(v, agents[j], j)
    ensures forall i, j :: 0 <= i < j < RosterSize ==> agents[i] != agents[j]
  {
    agents := Hire(v, [], 5);      // Mandya ragi farmers
    ghost var farmers := agents;
    agents := Hire(v, agents, 3);  // Coorg coffee planters
    assert forall j :: 0 <= j < 5 ==> agents[j] == farmers[j];
    ghost var growers := agents;
    agents := Hire(v, agents, 5);  // Bengaluru techies
    assert forall j :: 0 <= j < 8 ==> agents[j] == growers[j];
    ghost var working := agents;
    agents := Hire(v, agents, 3);  // darshini owners
    assert forall j :: 0 <= j < 13 ==> agents[j] == working[j];
  }

  /** One group of the roster: `count` new agents for the slots after
      those already filled. */
  method Hire(v: Variant, agents: seq<Agent>, count: nat) returns (more: seq<Agent>)
    requires |agents| + count <= RosterSize
    requires forall j :: 0 <= j < |agents| ==> Staffed(v, agents[j], j)
    requires forall i, j :: 0 <= i < j < |agents| ==> agents[i] != agents[j]
    ensures |more| == |agents| + count && more[..|agents|] == agents
    ensures forall j :: |agents| <= j < |more| ==> fresh(more[j])
    ensures forall j :: 0 <= j < |more| ==> Staffed(v, more[j], j)
    ensures forall i, j :: 0 <= i < j < |more| ==> more[i] != more[j]
  {
    more := agents;
    for i := 0 to count
      invariant |more| == |agents| + i && more[..|agents|] == agents
      invariant forall j :: |agents| <= j < |more| ==> fresh(more[j])
      invariant forall j :: 0 <= j < |more| ==> Staffed(v, more[j], j)
      invariant forall k, j :: 0 <= k < j < |more| ==> more[k] != more[j]
    {
      var a := Recruit(v, |agents| + i);
      more := more + [a];
    }
  }

  /** A new agent for roster slot `j`: a ragi farmer in Mandya, a coffee
      planter in Coorg, a techie or a darshini owner. */
  method Recruit(v: Variant, j: nat) returns (a: Agent)
    requires j < RosterSize
    ensures fresh(a) && Staffed(v, a, j)
  {
    var kind := RosterKind(j);
    if kind.Farmer? {
      a := new Agent.InitFarmer(v, RosterName(j), RosterRegion(j), kind.crop);
    } else if kind == Techie {
      a := new Agent.InitTechie(v, RosterName(j));
    } else {
      a := new Agent.InitDarshini(v, RosterName(j));
    }
  }

  /** Agent `a` is roster member `j` of copy `v`, as first made. */
  ghost predicate Staffed(v: Variant, a: Agent, j: nat)
    reads a
  {
    && j < RosterSize && a.variant == v && a.kind == RosterKind(j) && a.name == RosterName(j)
    && a.region == RosterRegion(j) && a.WellFormed() && a.Books() == InitialBooks(v, RosterKind(j))
  }

  class MarketEngine {
    const variant: Variant
    const state: MarketState
    const agents: seq<Agent>
    var logs: seq<LogLine>

    /** The state is valid, the roster is the fixed sixteen distinct agents
        of this copy, each holding the entries its policy needs, and the log
        window holds at most 50 lines. */
    ghost predicate Valid()
      reads this`logs, state`rent, state`prices, state`history, state`rentHistory, state`ticks, agents
    {
      // Bound to a name so the verifier checks the conjunction as one fact rather than one goal per conjunct.
      var ok := state.variant == variant && state.Valid() && Roster() && Stocks() && |logs| <= LogCap
        && (state as object) !in agents;
      ok
    }

    /** The roster: sixteen distinct agents of this copy, agent `j` of the
        kind and name of slot `j`. */
    ghost predicate Roster() {
      && |agents| == RosterSize
      && (forall j :: 0 <= j < RosterSize ==>
            agents[j].variant == variant && agents[j].kind == RosterKind(j) && agents[j].name == RosterName(j))
      && (forall i, j :: 0 <= i < j < RosterSize ==> agents[i] != agents[j])
    }

    /** Every agent holds the inventory entries its policy needs. */
    ghost predicate Stocks()
      reads agents
    {
      forall j :: 0 <= j < |agents| ==> agents[j].WellFormed()
    }

    /** A fresh market, the roster at its starting holdings and no logs. */
    constructor (v: Variant)
      ensures Valid() && variant == v && logs == []
      ensures fresh(state) && state.ticks == 0 && state.date == Epoch
      ensures state.prices == InitialPrices(v) && state.rent == InitialRent
      ensures forall j :: 0 <= j < RosterSize ==>
                fresh(agents[j]) && agents[j].Books() == InitialBooks(v, RosterKind(j))
    {
      var roster := InitAgents(v);
      variant := v;
      state := new MarketState(v);
      agents := roster;
      logs := [];
    }

    /** `step`: one day. The date advances, the season and weather follow,
        the prices update, then every agent acts in roster order on the new
        state; in the richer copy the techies' average cash and the mood
        follow. The day's log lines, in roster order, go in front of the
        window, which keeps the newest 50. */
    method Step(pick: int, hike: real, draws: map<Resource, ResourceDraw>)
      requires Valid()
      requires 0 <= pick < 100 && ValidHike(hike) && ValidDraws(variant, draws)
      modifies this`logs, state`date, state`season, state`weather, state`headline, state`rent, state`prices,
               state`history, state`rentHistory, state`ticks, state`mood, state`avgTechieCash, agents
      ensures Valid()
      ensures Moved(old(state.Quoted()), state.Quoted(), pick, hike, draws)
      ensures Settled(old(Ledger(RosterSize)), old(logs), old(state.avgTechieCash), old(state.mood))
    {
      ghost var before, window, avgCash, mood := Ledger(RosterSize), logs, state.avgTechieCash, state.mood;
      Advance(pick, hike, draws);
      Settle(before, window, avgCash, mood);
    }

    /** The market half of a step, from the fields `q` to the fields `r`:
        the next day, its season and the weather drawn by `pick`, the rent
        raised by `hike` in the copy that has rent, every price moved once
        by `draws` and appended to its series, the rent appended to its
        series in the copy that has rent, one more tick, and as headline
        the first news of the price update or, without any, the climate's. */
    ghost predicate Moved(q: Quote, r: Quote, pick: int, hike: real, draws: map<Resource, ResourceDraw>) {
      // Bound to a name so the verifier checks the conjunction as one fact rather than one goal per conjunct.
      var ok :=
        && ValidDate(q.date) && 0 <= pick < 100 && ValidDraws(variant, draws)
        && q.prices.Keys == q.history.Keys == Tradable(variant)
        && r.ticks == q.ticks + 1
        && r.date == NextDay(q.date)
        && r.season == SeasonOf(r.date.month) && r.weather == DrawWeather(r.season, pick)
        && r.rent == q.rent + (if HasRent(variant) then hike else 0.0)
        && r.prices == NextPrices(variant, q.prices, r.weather, r.season, r.rent, draws)
        && r.history == Appended(q.history, r.prices)
        && r.rentHistory == q.rentHistory + (if HasRent(variant) then [r.rent] else [])
        && var news := TickNews(variant, hike, r.rent, draws, r.weather, r.season, r.prices[IdliSet]);
           r.headline == if news == [] then ClimateHeadline(q.season, r.season, q.weather, r.weather, q.headline)
                         else news[0];
      ok
    }

    /** The agent half of a step, from agents holding `before`, the log
        window `window` and the techie figures `avgCash` and `mood`: every
        agent acted as its roster member does on the state as it now stands,
        its line heads the log window, which keeps its newest 50 lines, and
        the copy with rent holds the techies' new average cash and the mood
        it sets. */
    ghost predicate Settled(before: seq<Holdings>, window: seq<LogLine>, avgCash: real, mood: Mood)
      reads this`logs, state`weather, state`prices, state`rent, state`avgTechieCash, state`mood, agents
    {
      // Bound to a name so the verifier checks the conjunction as one fact rather than one goal per conjunct.
      var ok :=
        && |agents| == RosterSize
        && |logs| == (if RosterSize + |window| <= LogCap then RosterSize + |window| else LogCap)
        && (forall j :: RosterSize <= j < |logs| ==> logs[j] == window[j - RosterSize])
        && Acted(before, Ledger(RosterSize), logs[..RosterSize], state.weather, state.prices, state.rent)
        && (state.avgTechieCash, state.mood) ==
             if HasRent(variant) then Outlook(CashSum(Ledger(RosterSize), 8, 13) / 5.0, state.rent)
             else (avgCash, mood);
      ok
    }

    /** The market half of a step: the date, the season and weather, and
        the prices. */
    method Advance(pick: int, hike: real, draws: map<Resource, ResourceDraw>)
      requires Valid()
      requires 0 <= pick < 100 && ValidHike(hike) && ValidDraws(variant, draws)
      modifies state`date, state`season, state`weather, state`headline, state`rent, state`prices,
               state`history, state`rentHistory, state`ticks
      ensures Valid()
      ensures Moved(old(state.Quoted()), state.Quoted(), pick, hike, draws) && unchanged(agents)
    {
      state.date := NextDay(state.date);
      UpdateSeasonAndWeather(pick);
      UpdatePrices(hike, draws);
    }

    /** The agent half of a step: every agent acts on the state as it now
        stands, the richer copy takes the techies' average and the mood, and
        the day's lines join the log window. */
    method Settle(ghost before: seq<Holdings>, ghost window: seq<LogLine>, ghost avgCash: real, ghost mood: Mood)
      requires Valid()
      requires |before| == RosterSize && forall j :: 0 <= j < RosterSize ==> agents[j].Books() == before[j]
      requires window == logs && avgCash == state.avgTechieCash && mood == state.mood
      modifies this`logs, state`mood, state`avgTechieCash, agents
      ensures Valid()
      ensures Settled(before, window, avgCash, mood)
      ensures state.Quoted() == old(state.Quoted())
    {
      Trade(before);
      Survey();
    }

    /** Every agent acts in roster order on the state as it now stands, and
        the day's lines join the log window. */
    method Trade(ghost before: seq<Holdings>)
      requires Valid()
      requires |before| == RosterSize && forall j :: 0 <= j < RosterSize ==> agents[j].Books() == before[j]
      modifies this`logs, agents
      ensures Valid()
      ensures |logs| == if RosterSize + |old(logs)| <= LogCap then RosterSize + |old(logs)| else LogCap
      ensures forall j :: RosterSize <= j < |logs| ==> logs[j] == old(logs)[j - RosterSize]
      ensures Acted(before, Ledger(RosterSize), logs[..RosterSize], state.weather, state.prices, state.rent)
      ensures state.Quoted() == old(state.Quoted())
    {
      var daily := AgentsAct(state.weather, state.prices, state.rent, before);
      Record(daily);
      assert logs[..RosterSize] == daily;
    }

    /** Take the techies' average cash and the mood it sets, in the
        variant that tracks them. */
    method Survey()
      requires Valid()
      modifies state`avgTechieCash, state`mood
      ensures Valid()
      ensures (state.avgTechieCash, state.mood) ==
              if HasRent(variant) then Outlook(CashSum(Ledger(RosterSize), 8, 13) / 5.0, state.rent)
              else (old(state.avgTechieCash), old(state.mood))
      ensures state.Quoted() == old(state.Quoted()) && Ledger(RosterSize) == old(Ledger(RosterSize))
    {
      var total, count := Tally();
      RosterTechies(Ledger(RosterSize));
      if HasRent(variant) {
        Gauge(total, count);
      }
    }

    /** Put the day's lines at the head of the log window. */
    method Record(daily: seq<LogLine>)
      requires Valid()
      modifies this`logs
      ensures Valid()
      ensures |logs| == if |daily| + |old(logs)| <= LogCap then |daily| + |old(logs)| else LogCap
      ensures |daily| <= |logs| ==> logs[..|daily|] == daily
      ensures forall j :: |daily| <= j < |logs| ==> logs[j] == old(logs)[j - |daily|]
    {
      logs := Roll(daily, logs);
    }

    /** Record the techies' average cash, when there were techies to
        average, and the mood it sets against the rent. */
    method Gauge(total: real, count: int)
      requires Valid()
      modifies state`avgTechieCash, state`mood
      ensures Valid()
      ensures state.avgTechieCash == if count > 0 then total / count as real else old(state.avgTechieCash)
      ensures state.mood == MoodOf(state.avgTechieCash, state.rent)
      ensures Ledger(RosterSize) == old(Ledger(RosterSize))
    {
      if count > 0 {
        state.avgTechieCash := total / count as real;
      }
      state.mood := Sentiment(state.avgTechieCash, state.rent);
    }

    /** Every agent, starting from its entry in `before`, ended its day as
        its roster member does in weather `w` at `prices` and `rent`: with
        its entry in `after`, having written its line of `lines`. */
    ghost predicate Acted(before: seq<Holdings>, after: seq<Holdings>, lines: seq<LogLine>,
                          w: Weather, prices: map<Resource, real>, rent: real)
    {
      // Bound to a name so the verifier checks the conjunction as one fact rather than one goal per conjunct.
      var ok :=
        && |before| == |after| == |lines| == RosterSize && Tradable(variant) <= prices.Keys
        && (forall j :: 0 <= j < RosterSize ==> Stocked(variant, RosterKind(j), before[j].inventory))
        && forall j {:trigger Today(variant, j, before[j], w, prices, rent)} :: 0 <= j < RosterSize ==>
             AgentDay(after[j], lines[j]) == Today(variant, j, before[j], w, prices, rent);
      ok
    }

    /** The agents' holdings, in roster order, for the first `n`. */
    ghost function Ledger(n: nat): (hs: seq<Holdings>)
      requires n <= |agents|
      reads agents
      ensures |hs| == n && forall j :: 0 <= j < n ==> hs[j] == agents[j].Books()
    {
      if n == 0 then [] else Ledger(n - 1) + [agents[n - 1].Books()]
    }

    /** The agent loop of a step: every agent acts in roster order on
        weather `w`, `prices` and `rent`, and its log line is collected. */
    method AgentsAct(w: Weather, prices: map<Resource, real>, rent: real, ghost before: seq<Holdings>)
      returns (daily: seq<LogLine>)
      requires Valid() && Tradable(variant) <= prices.Keys
      requires |before| == RosterSize && forall j :: 0 <= j < RosterSize ==> agents[j].Books() == before[j]
      modifies agents
      ensures Valid() && |daily| == RosterSize
      ensures Acted(before, Ledger(RosterSize), daily, w, prices, rent)
    {
      daily := [];
      for i := 0 to RosterSize
        invariant Stocks() && |daily| == i
        invariant forall j {:trigger Today(variant, j, before[j], w, prices, rent)} :: 0 <= j < i ==>
                    AgentDay(agents[j].Books(), daily[j]) == Today(variant, j, before[j], w, prices, rent)
        invariant forall j :: i <= j < RosterSize ==> agents[j].Books() == before[j]
      {
        var log := ActOne(i, w, prices, rent, before);
        daily := daily + [log];
      }
    }

    /** Agent `i` acts, starting from its entry in `before`, and ends as
        roster member `i` does; no other agent changes. */
    method ActOne(i: nat, w: Weather, prices: map<Resource, real>, rent: real, ghost before: seq<Holdings>)
      returns (log: LogLine)
      requires Roster() && Stocks() && i < RosterSize == |before| && Tradable(variant) <= prices.Keys
      requires agents[i].Books() == before[i]
      modifies agents[i]
      ensures Stocks() && AgentDay(agents[i].Books(), log) == Today(variant, i, before[i], w, prices, rent)
      ensures forall j :: 0 <= j < RosterSize && j != i ==> agents[j].Books() == old(agents[j].Books())
    {
      log := agents[i].Act(w, prices, rent);
    }

    /** The techies' cash and number, summed over the roster. */
    method Tally() returns (total: real, count: nat)
      requires Roster()
      ensures total == TechieCash(Ledger(RosterSize), RosterSize) && count == TechieCount(Ledger(RosterSize), RosterSize)
    {
      ghost var hs := Ledger(RosterSize);
      total, count := 0.0, 0;
      for i := 0 to RosterSize
        invariant total == TechieCash(hs, i) && count == TechieCount(hs, i)
      {
        if agents[i].kind == Techie {
          total := total + agents[i].cash;
          count := count + 1;
        }
      }
    }

    /** `update_season_and_weather`: the season follows the month, the
        weather is drawn from the season's pick list at index `pick`, and
        the headline records a season change, a new drought or rain outside
        the Monsoon. */
    method UpdateSeasonAndWeather(pick: int)
      requires 0 <= pick < 100
      modifies state`season, state`weather, state`headline
      ensures state.season == SeasonOf(state.date.month)
      ensures state.weather == DrawWeather(state.season, pick)
      ensures state.headline == ClimateHeadline(old(state.season), state.season,
                                                old(state.weather), state.weather, old(state.headline))
    {
      var month := state.date.month;
      var newSeason := Winter;
      if 3 <= month <= 5 {
        newSeason := Summer;
      } else if 6 <= month <= 9 {
        newSeason := Monsoon;
      } else if 10 <= month <= 12 {
        newSeason := PostMonsoon;
      }
      if newSeason != state.season {
        state.season := newSeason;
        state.headline := SeasonChange(newSeason);
      }
      var weights := WeatherChoices(state.season);
      var newWeather := weights[pick];
      if newWeather != state.weather && newWeather == Drought {
        state.headline := DroughtAlert;
      } else if newWeather == Rainy && state.season != Monsoon {
        state.headline := UnexpectedRain;
      }
      state.weather := newWeather;
    }
  
    /** `update_prices`: the rent shock (richer copy only), the Idli
        cost-push step, then one pass over the resources in enum order that
        scales and floors each price, appends it to its series and collects
        headline candidates; the Idli series and the rent history are
        appended last, and the first candidate, if any, becomes the
        headline. `hike` is 0 when the shock does not fire. */
    method UpdatePrices(hike: real, draws: map<Resource, ResourceDraw>)
      requires state.variant == variant && state.Valid()
      requires ValidHike(hike) && ValidDraws(variant, draws)
      modifies state`rent, state`prices, state`history, state`rentHistory, state`headline, state`ticks
      ensures state.Valid() && state.ticks == old(state.ticks) + 1
      ensures state.rent == old(state.rent) + (if HasRent(variant) then hike else 0.0)
      ensures state.prices == NextPrices(variant, old(state.prices), state.weather, state.season, state.rent, draws)
      ensures state.history == Appended(old(state.history), state.prices)
      ensures state.rentHistory == old(state.rentHistory) + (if HasRent(variant) then [state.rent] else [])
      ensures var news := TickNews(variant, hike, state.rent, draws, state.weather, state.season, state.prices[IdliSet]);
              state.headline == if news == [] then old(state.headline) else news[0]
    {
      var rent, prices, history, rentHistory, headline :=
        Update(hike, draws, state.ticks, state.weather, state.season, state.rent, state.prices, state.history,
               state.rentHistory, state.headline);
      state.Commit(rent, prices, history, rentHistory, headline);
    }

    /** The update on the values of the state's fields: the rent shock, the
        prices and their series, the rent series and the headline. A state
        consistent after `t` updates comes out consistent after `t + 1`. */
    method Update(hike: real, draws: map<Resource, ResourceDraw>, ghost t: nat, weather: Weather, season: Season,
                  rent: real, prices: map<Resource, real>, history: map<Resource, seq<real>>,
                  rentHistory: seq<real>, headline: Headline)
      returns (rent': real, prices': map<Resource, real>, history': map<Resource, seq<real>>,
               rentHistory': seq<real>, headline': Headline)
      requires PriceBook(variant, prices, history, t) && RentTrail(variant, rent, rentHistory, t)
      requires ValidHike(hike) && ValidDraws(variant, draws)
      ensures PriceBook(variant, prices', history', t + 1) && RentTrail(variant, rent', rentHistory', t + 1)
      ensures rent' == rent + (if HasRent(variant) then hike else 0.0)
      ensures prices' == NextPrices(variant, prices, weather, season, rent', draws)
      ensures history' == Appended(history, prices')
      ensures rentHistory' == rentHistory + (if HasRent(variant) then [rent'] else [])
      ensures var news := TickNews(variant, hike, rent', draws, weather, season, prices'[IdliSet]);
              headline' == if news == [] then headline else news[0]
    {
      var shock;
      rent', shock := ShockRent(hike, rent);
      var candidates;
      prices', history', candidates := Reprice(draws, weather, season, rent', prices, history);
      BooksAdvance(variant, prices, history, rent, rentHistory, t, weather, season, rent', draws);
      assert shock + candidates == TickNews(variant, hike, rent', draws, weather, season, prices'[IdliSet]);
      rentHistory', headline' := CloseTick(shock + candidates, rent', rentHistory, headline);
    }

    /** One update keeps the price book and the rent trail consistent. */
    static lemma BooksAdvance(v: Variant, prices: map<Resource, real>, history: map<Resource, seq<real>>,
                              rent: real, rentHistory: seq<real>, t: nat, weather: Weather, season: Season,
                              rent': real, draws: map<Resource, ResourceDraw>)
      requires PriceBook(v, prices, history, t) && RentTrail(v, rent, rentHistory, t)
      requires ValidDraws(v, draws) && rent' >= rent && (!HasRent(v) ==> rent' == rent)
      ensures var q := NextPrices(v, prices, weather, season, rent', draws);
              PriceBook(v, q, Appended(history, q), t + 1)
      ensures RentTrail(v, rent', rentHistory + (if HasRent(v) then [rent'] else []), t + 1)
    {
      PricesStayAboveFloor(v, prices, weather, season, rent', draws);
      PriceBookAppended(v, prices, history, t, NextPrices(v, prices, weather, season, rent', draws));
      RentTrailExtends(v, rent, rentHistory, t, rent');
    }

    /** The bookkeeping at the end of an update: the rent series gains the
        current rent (richer copy only) and the first headline candidate, if
        any, replaces the headline. */
    method CloseTick(headlines: seq<Headline>, rent: real, rentHistory: seq<real>, headline: Headline)
      returns (rentHistory': seq<real>, headline': Headline)
      ensures rentHistory' == rentHistory + (if HasRent(variant) then [rent] else [])
      ensures headline' == if headlines == [] then headline else headlines[0]
    {
      rentHistory' := rentHistory;
      if HasRent(variant) {
        rentHistory' := rentHistory' + [rent];
      }
      headline' := headline;
      if headlines != [] {
        headline' := headlines[0];
      }
    }

    /** The price part of an update: the Idli cost-push step, the resource
        loop and the Idli series append after it. The result is the
        closed-form price map, every series gains exactly its new price, and
        the headline candidates come out in the loop's order. */
    method Reprice(draws: map<Resource, ResourceDraw>, weather: Weather, season: Season, rent: real,
                   prices: map<Resource, real>, history: map<Resource, seq<real>>)
      returns (prices': map<Resource, real>, history': map<Resource, seq<real>>, headlines: seq<Headline>)
      requires prices.Keys == Tradable(variant) && history.Keys == Tradable(variant) && ValidDraws(variant, draws)
      ensures prices' == NextPrices(variant, prices, weather, season, rent, draws)
      ensures history' == Appended(history, prices')
      ensures headlines == Candidates(variant, draws, weather, season, rent, prices'[IdliSet], |Resources(variant)|)
    {
      var coffeeCost := prices[Coffee];
      var costBasis := prices[Rice] * 1.5 + coffeeCost * 0.1 + 10.0;
      var target := costBasis * 1.2;
      var current := prices[IdliSet];
      var smoothed := prices[IdliSet := current + (target - current) * 0.2];
      assert smoothed == AfterIdli(prices);
      prices', history', headlines := ResourcePass(draws, weather, season, rent, prices, smoothed, history);
      SeriesComplete(variant, history, prices');
      history' := history'[IdliSet := history'[IdliSet] + [prices'[IdliSet]]];
    }

    /** The rent shock: in the richer copy a positive `hike` raises the rent
        and yields the rent-hike headline; otherwise nothing happens. */
    method ShockRent(hike: real, rent: real) returns (rent': real, headlines: seq<Headline>)
      ensures rent' == rent + (if HasRent(variant) && hike > 0.0 then hike else 0.0)
      ensures headlines == if HasRent(variant) && hike > 0.0 then [RentHike(rent')] else []
    {
      rent', headlines := rent, [];
      if HasRent(variant) && hike > 0.0 {
        rent' := rent' + hike;
        headlines := headlines + [RentHike(rent')];
      }
    }

    /** The resource loop, over the enum in declaration order, skipping the
        currency and the Idli set. `p` is the price map before the Idli
        step. */
    method ResourcePass(draws: map<Resource, ResourceDraw>, weather: Weather, season: Season, rent: real,
                        ghost p: map<Resource, real>, prices: map<Resource, real>, history: map<Resource, seq<real>>)
      returns (prices': map<Resource, real>, history': map<Resource, seq<real>>, headlines: seq<Headline>)
      requires p.Keys == Tradable(variant) && ValidDraws(variant, draws)
      requires prices == AfterIdli(p) && history.Keys == Tradable(variant)
      ensures prices' == NextPrices(variant, p, weather, season, rent, draws)
      ensures history' == StagedSeries(history, prices', |Resources(variant)|)
      ensures headlines == Candidates(variant, draws, weather, season, rent, prices'[IdliSet], |Resources(variant)|)
    {
      ghost var next := NextPrices(variant, p, weather, season, rent, draws);
      prices', history' := prices, history;
      headlines := [];
      var rs := Resources(variant);
      for i := 0 to |rs|
        invariant prices' == Staged(prices, next, i)
        invariant history' == StagedSeries(history, next, i)
        invariant headlines == Candidates(variant, draws, weather, season, rent, prices[IdliSet], i)
      {
        prices', history', headlines := PassOne(i, draws, weather, season, rent, p, history, next,
                                                prices', history', headlines);
      }
      StagedComplete(variant, p, weather, season, rent, draws);
    }

    /** One iteration of the resource loop: skip the currency and the Idli
        set, otherwise adjust the resource and keep its candidate. */
    method PassOne(i: nat, draws: map<Resource, ResourceDraw>, weather: Weather, season: Season, rent: real,
                   ghost p: map<Resource, real>, ghost h0: map<Resource, seq<real>>, ghost next: map<Resource, real>,
                   prices: map<Resource, real>, history: map<Resource, seq<real>>, headlines: seq<Headline>)
      returns (prices': map<Resource, real>, history': map<Resource, seq<real>>, headlines': seq<Headline>)
      requires p.Keys == Tradable(variant) && h0.Keys == Tradable(variant) && ValidDraws(variant, draws)
      requires i < |Resources(variant)| && next == NextPrices(variant, p, weather, season, rent, draws)
      requires prices == Staged(AfterIdli(p), next, i) && history == StagedSeries(h0, next, i)
      requires headlines == Candidates(variant, draws, weather, season, rent, AfterIdli(p)[IdliSet], i)
      ensures prices' == Staged(AfterIdli(p), next, i + 1) && history' == StagedSeries(h0, next, i + 1)
      ensures headlines' == Candidates(variant, draws, weather, season, rent, AfterIdli(p)[IdliSet], i + 1)
    {
      var res := Resources(variant)[i];
      if res == Inr || res == IdliSet {
        SkipKeeps(variant, AfterIdli(p), h0, next, i);
        return prices, history, headlines;
      }
      VisitAdvances(variant, p, weather, season, rent, draws, i);
      SeriesAdvances(variant, h0, next, i);
      VisitReads(variant, p, weather, season, rent, draws, i);
      var news;
      prices', history', news := AdjustPrice(res, prices, history, draws, weather, season, rent);
      headlines' := headlines;
      if news.Some? {
        headlines' := headlines' + [news.value];
      }
    }

    /** One pass of the resource loop: the resource's factor, its headline
        candidate, the scaled and floored price, and the appended series
        entry. It reads the raw-bean and Idli prices as they stand, which the
        update has already rewritten when the loop reaches a resource that
        depends on them. */
    method AdjustPrice(res: Resource, prices: map<Resource, real>, history: map<Resource, seq<real>>,
                       draws: map<Resource, ResourceDraw>, weather: Weather, season: Season, rent: real)
      returns (prices': map<Resource, real>, history': map<Resource, seq<real>>, news: Option<Headline>)
      requires res in prices && res in history && res in draws && Coffee in prices && IdliSet in prices
      ensures prices' == Visit(variant, res, prices, weather, season, rent, draws)
      ensures history' == history[res := history[res] + [prices'[res]]]
      ensures news == News(variant, res, draws[res], weather, season, rent, prices[IdliSet])
    {
      var change := Factor(variant, res, draws[res], weather, season, rent,
                           prices[res], prices[Coffee], prices[IdliSet]);
      news := News(variant, res, draws[res], weather, season, rent, prices[IdliSet]);
      var price := Floored(prices[res] * change);
      assert price == Scaled(prices[res], change);
      prices' := prices[res := price];
      history' := history[res := history[res] + [price]];
    }

    /** `price *= change` has been applied; the floor of 5 is applied here. */
    static method Floored(x: real) returns (y: real)
      ensures y == Clamp(x)
    {
      y := x;
      if y < PriceFloor {
        y := PriceFloor;
      }
    }
  }
}
