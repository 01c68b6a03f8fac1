// The closed catalogue shared by both copies of the simulation: which copy
// is running, the regions, the tradable resources, the seasons, the weather
// vocabulary, and the tags that stand for headline and mood strings.

module Catalog {

  datatype Option<+T> = None | Some(value: T)

  /** The two copies of the simulation: the richer one with rent, savings and
      mood, and the simpler original. */
  datatype Variant = CaffeineCrash | NammaMarket

  /** Informational only: attached to an agent, never read by a rule. */
  datatype Region = Bengaluru | Mandya | Coorg | Mysore

  /** The union of both copies' resource enums. `Coffee` is the raw bean
      (COMMERCIAL_COFFEE in one copy, COFFEE in the other); the luxury good is
      `ArtisanCoffee` in one copy and `Flowers` in the other. */
  datatype Resource = Ragi | Rice | Coffee | ArtisanCoffee | Flowers | Code | IdliSet | Inr

  datatype Season = Summer | Monsoon | PostMonsoon | Winter

  /** The weather tag: always one of four strings in the source. */
  datatype Weather = Sunny | Cloudy | Rainy | Drought

  datatype Mood = Stable | Panic | Anxious | Optimistic

  /** Headline strings, as tags; the wording is presentation. */
  datatype Headline =
    | MarketOpens
    | SeasonChange(season: Season)
    | DroughtAlert
    | UnexpectedRain
    | RentHike(rent: real)
    | LowFootfall
    | CropFailure
    | Shortage(staple: Resource)
    | TechBoom
    | TechRecession
    | FlowerSlump

  /** No price is ever left below this after an update. */
  const PriceFloor: real := 5.0

  /** Daily rent at the start of a run (richer copy only). */
  const InitialRent: real := 2000.0

  /** Only the richer copy has rent, a rent history and a mood. */
  predicate HasRent(v: Variant) {
    v == CaffeineCrash
  }

  /** The luxury good a techie buys when wealthy enough. */
  function Luxury(v: Variant): Resource {
    if v == CaffeineCrash then ArtisanCoffee else Flowers
  }

  /** Every resource that has a price: the whole enum except the currency. */
  function Tradable(v: Variant): set<Resource> {
    {Ragi, Rice, Coffee, Luxury(v), Code, IdliSet}
  }

  /** The resource enum of copy `v`, in declaration (iteration) order. */
  function Resources(v: Variant): (rs: seq<Resource>)
    ensures |rs| == 7 && rs[6] == Inr && rs[5] == IdliSet
  {
    [Ragi, Rice, Coffee, Luxury(v), Code, IdliSet, Inr]
  }

  /** The position of `r` in the enum of either copy; the two luxury
      goods share a position, since each copy has only one of them. */
  function Index(r: Resource): (n: nat)
    ensures n < 7
  {
    match r
    case Ragi => 0
    case Rice => 1
    case Coffee => 2
    case ArtisanCoffee => 3
    case Flowers => 3
    case Code => 4
    case IdliSet => 5
    case Inr => 6
  }

  /** `Index` and the enum order agree, in both directions. */
  lemma IndexOf(v: Variant, r: Resource, i: nat)
    requires i < |Resources(v)|
    requires r == Inr || r in Tradable(v)
    ensures Resources(v)[i] == r <==> Index(r) == i
  {
  }

  /** The tradable resources are the enum members other than the currency,
      and the enum lists each member once. */
  lemma ResourcesEnumerateTradable(v: Variant)
    ensures forall r :: r in Tradable(v) <==> r in Resources(v) && r != Inr
    ensures forall i, j :: 0 <= i < j < |Resources(v)| ==> Resources(v)[i] != Resources(v)[j]
  {
  }

  /** The price map a fresh market starts from. */
  function InitialPrices(v: Variant): (p: map<Resource, real>)
    ensures p.Keys == Tradable(v) && Inr !in p
    ensures forall r :: r in p ==> p[r] >= PriceFloor
  {
    map[Ragi := 35.0, Rice := 50.0, Coffee := 250.0,
        Luxury(v) := if v == CaffeineCrash then 300.0 else 80.0,
        Code := 1000.0, IdliSet := 40.0]
  }

  /** `d.get(k, 0)`: the value at `k`, or zero when `k` is absent. */
  function Get(m: map<Resource, real>, k: Resource): real {
    if k in m then m[k] else 0.0
  }

  function Min(a: real, b: real): real {
    if a <= b then a else b
  }

  function Max(a: real, b: real): real {
    if a <= b then b else a
  }
}
