// `MarketState`: the single mutable record the engine updates in place and
// the agents read. Its constructor is the dataclass defaults followed by
// `__post_init__`, which seeds the rent history and one price series per
// tradable resource.

module Market {

  import opened Catalog
  import opened Calendar

  predicate NonDecreasing(s: seq<real>) {
    forall i, j :: 0 <= i <= j < |s| ==> s[i] <= s[j]
  }

  /** No price below the floor. */
  predicate AboveFloor(prices: map<Resource, real>) {
    forall r :: r in prices ==> prices[r] >= PriceFloor
  }

  /** Every series holds one entry per update plus the seed and ends in the
      current price. */
  predicate Tracks(history: map<Resource, seq<real>>, prices: map<Resource, real>, ticks: nat) {
    forall r :: r in history ==> |history[r]| == ticks + 1 && r in prices && history[r][ticks] == prices[r]
  }

  /** In the richer copy the rent history has the same length, starts at
      2000, never decreases and ends in the current rent. The simpler copy
      has no rent, mood or average-cash fields at all; the model gives it a
      constant rent of 2000 and an empty rent history. */
  predicate RentTrail(v: Variant, rent: real, rentHistory: seq<real>, ticks: nat) {
    // Bound to a name so the verifier checks the conjunction as one fact rather than one goal per conjunct.
    var ok :=
    && rent >= InitialRent
    && (HasRent(v) ==>
          && |rentHistory| == ticks + 1
          && rentHistory[0] == InitialRent
          && rentHistory[ticks] == rent
          && NonDecreasing(rentHistory))
    && (!HasRent(v) ==> rentHistory == [] && rent == InitialRent);
    ok
  }

  /** Every series extended by the matching price. */
  function Appended(h: map<Resource, seq<real>>, q: map<Resource, real>): (g: map<Resource, seq<real>>)
    requires h.Keys <= q.Keys
    ensures g.Keys == h.Keys
    ensures forall r :: r in g ==> g[r] == h[r] + [q[r]]
  {
    map r | r in h :: h[r] + [q[r]]
  }

  /** A price and a series for every tradable resource and for nothing
      else, every price at or above the floor, and the series in step. */
  predicate PriceBook(v: Variant, prices: map<Resource, real>, history: map<Resource, seq<real>>, ticks: nat) {
    // Bound to a name so the verifier checks the conjunction as one fact rather than one goal per conjunct.
    var ok :=
      && prices.Keys == Tradable(v)
      && history.Keys == Tradable(v)
      && AboveFloor(prices)
      && Tracks(history, prices, ticks);
    ok
  }

  /** New prices on the same resources, all at or above the floor, appended
      to their series, keep the book consistent one update later. */
  lemma PriceBookAppended(v: Variant, prices: map<Resource, real>, history: map<Resource, seq<real>>,
                          ticks: nat, next: map<Resource, real>)
    requires PriceBook(v, prices, history, ticks)
    requires next.Keys == prices.Keys && AboveFloor(next)
    ensures PriceBook(v, next, Appended(history, next), ticks + 1)
  {
  }

  /** A rent that does not fall, appended to the trail in the richer copy,
      keeps the trail monotone and in step. */
  lemma RentTrailExtends(v: Variant, rent: real, rentHistory: seq<real>, ticks: nat, next: real)
    requires RentTrail(v, rent, rentHistory, ticks)
    requires next >= rent && (!HasRent(v) ==> next == rent)
    ensures RentTrail(v, next, rentHistory + (if HasRent(v) then [next] else []), ticks + 1)
  {
    if HasRent(v) {
      var s := rentHistory + [next];
      assert s == rentHistory + (if HasRent(v) then [next] else []);
      forall i, j | 0 <= i <= j < |s|
        ensures s[i] <= s[j]
      {
        if j == ticks + 1 && i <= ticks {
          assert s[i] <= s[ticks];
        }
      }
    } else {
      assert rentHistory + [] == rentHistory;
    }
  }

  /** The fields of a market state that a day's update sets, as a value. */
  datatype Quote = Quote(date: Date, season: Season, weather: Weather, headline: Headline, rent: real,
                         prices: map<Resource, real>, history: map<Resource, seq<real>>,
                         rentHistory: seq<real>, ticks: nat)

  class MarketState {
    const variant: Variant
    var date: CalendarDate
    var season: Season
    var weather: Weather
    var headline: Headline
    var mood: Mood
    var avgTechieCash: real
    var rent: real
    var prices: map<Resource, real>
    var history: map<Resource, seq<real>>
    var rentHistory: seq<real>
    /** Number of price updates so far. */
    ghost var ticks: nat

    /** The fields a day's update sets. */
    ghost function Quoted(): Quote
      reads this`date, this`season, this`weather, this`headline, this`rent, this`prices,
            this`history, this`rentHistory, this`ticks
    {
      Quote(date, season, weather, headline, rent, prices, history, rentHistory, ticks)
    }

    /** What holds between ticks: a price and a series for
        every tradable resource and for nothing else; every price at or above
        the floor; every series holding one entry per update plus the seed,
        ending in the current price; and, in the richer copy, a rent history
        of the same length that starts at 2000, never decreases and ends in
        the current rent. The simpler copy has no rent history. */
    ghost predicate Valid()
      reads this`rent, this`prices, this`history, this`rentHistory, this`ticks
    {
      && PriceBook(variant, prices, history, ticks)
      && RentTrail(variant, rent, rentHistory, ticks)
    }

    /** A fresh market: 2025-01-01 in Winter with Sunny weather, the initial
        prices, rent 2000, and every tradable resource's series holding
        exactly its initial price. The currency has neither a price nor a
        series. */
    constructor (v: Variant)
      ensures Valid() && variant == v && ticks == 0
      ensures date == Epoch && season == Winter && weather == Sunny
      ensures headline == MarketOpens && mood == Stable && avgTechieCash == 40000.0
      ensures rent == InitialRent
      ensures rentHistory == if HasRent(v) then [InitialRent] else []
      ensures prices == InitialPrices(v) && Inr !in prices && Inr !in history
      ensures history.Keys == Tradable(v)
      ensures forall r :: r in history ==> history[r] == [prices[r]]
    {
      variant := v;
      date := Epoch;
      season := Winter;
      weather := Sunny;
      headline := MarketOpens;
      mood := Stable;
      avgTechieCash := 40000.0;
      rent := InitialRent;
      prices := InitialPrices(v);
      history := map[];
      rentHistory := [];
      ticks := 0;
      new;
      PostInit();
    }

    /** `__post_init__`: record the initial rent (richer copy only) and seed
        one single-entry series per resource, skipping the currency. A
        resource without a price would be seeded with 0. */
    method PostInit()
      requires history == map[] && rentHistory == []
      modifies this`history, this`rentHistory
      ensures rentHistory == if HasRent(variant) then [rent] else []
      ensures history.Keys == Tradable(variant)
      ensures forall r :: r in history ==> history[r] == [Get(prices, r)]
    {
      if HasRent(variant) {
        rentHistory := rentHistory + [rent];
      }
      var rs := Resources(variant);
      for i := 0 to |rs|
        invariant forall r :: r in history <==> r in Tradable(variant) && Index(r) < i
        invariant forall r :: r in history ==> history[r] == [Get(prices, r)]
        modifies this`history
      {
        forall r | r in Tradable(variant) {
          IndexOf(variant, r, i);
        }
        if rs[i] != Inr {
          history := history[rs[i] := [Get(prices, rs[i])]];
        }
      }
    }

    /** Store the outcome of one price update: the fields the update
        changes, which must be consistent one update later. */
    method Commit(rent': real, prices': map<Resource, real>, history': map<Resource, seq<real>>,
                  rentHistory': seq<real>, headline': Headline)
      requires PriceBook(variant, prices', history', ticks + 1) && RentTrail(variant, rent', rentHistory', ticks + 1)
      modifies this`rent, this`prices, this`history, this`rentHistory, this`headline, this`ticks
      ensures Valid() && ticks == old(ticks) + 1
      ensures rent == rent' && prices == prices' && history == history' && rentHistory == rentHistory' && headline == headline'
    {
      rent, prices, history, rentHistory, headline, ticks := rent', prices', history', rentHistory', headline', ticks + 1;
    }
  }
}
