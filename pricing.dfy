// The price rules of `MarketEngine.update_prices`, as functions of the
// prices before the update and of the random draws, passed in explicitly:
// the cost-push smoothing of the Idli price, the per-resource factor (noise
// plus weather, season, rent and shock nudges), the floor, and the headline
// candidates the update emits in order.

module Pricing {

  import opened Catalog
  import opened Market

  /** Half-width of the uniform noise band around 1. */
  const Volatility: real := 0.02

  /** The draws one resource consumes during one update:
      `noise` is `random.uniform(1 - v, 1 + v)`;
      `fires` is the outcome of the one `random.random() < p` test the
      resource makes (a headline chance, or the Code shock chance);
      `amount` is the Code shift `random.choice([-s, s])` or the Flowers
      festival boost `random.uniform(0.05, 0.15)`. */
  datatype ResourceDraw = ResourceDraw(noise: real, fires: bool, amount: real)

  /** Size of the symmetric Code shock. */
  function CodeShock(v: Variant): real {
    if v == CaffeineCrash then 0.05 else 0.1
  }

  predicate ValidDraw(v: Variant, r: Resource, d: ResourceDraw) {
    && 1.0 - Volatility <= d.noise <= 1.0 + Volatility
    && (r == Code ==> d.amount == CodeShock(v) || d.amount == -CodeShock(v))
    && (r == Flowers ==> 0.05 <= d.amount <= 0.15)
  }

  /** One valid draw for every resource the loop of the update visits. */
  predicate ValidDraws(v: Variant, draws: map<Resource, ResourceDraw>) {
    forall r :: r in Tradable(v) && r != IdliSet ==> r in draws && ValidDraw(v, r, draws[r])
  }

  /** The rent shock: 0 when `random.random() < 0.02` fails, otherwise the
      hike `random.choice([100, 200, 500])`. */
  predicate ValidHike(hike: real) {
    hike == 0.0 || hike == 100.0 || hike == 200.0 || hike == 500.0
  }

  /** `if price < 5: price = 5` */
  function Clamp(x: real): (y: real)
    ensures y >= PriceFloor && (x >= PriceFloor ==> y == x)
    ensures x < PriceFloor ==> y == PriceFloor
  {
    if x < PriceFloor then PriceFloor else x
  }

  /** `price *= change`, then the floor. */
  function Scaled(price: real, change: real): (y: real)
    ensures y >= PriceFloor && (price * change >= PriceFloor ==> y == price * change)
    ensures price * change < PriceFloor ==> y == PriceFloor
  {
    Clamp(price * change)
  }

  /** The cost-push target of an Idli set: a 20% margin over 1.5 units of
      rice, 0.1 unit of raw coffee and a fixed overhead of 10. */
  function IdliTarget(rice: real, coffee: real): (t: real)
    ensures rice >= PriceFloor && coffee >= PriceFloor ==> t >= 21.6
  {
    1.2 * (rice * 1.5 + coffee * 0.1 + 10.0)
  }

  /** Cost push: dearer rice or coffee never lowers the target, and dearer
      rice strictly raises it. */
  lemma IdliCostPush(rice1: real, coffee1: real, rice2: real, coffee2: real)
    requires rice1 <= rice2 && coffee1 <= coffee2
    ensures IdliTarget(rice1, coffee1) <= IdliTarget(rice2, coffee2)
    ensures rice1 < rice2 ==> IdliTarget(rice1, coffee1) < IdliTarget(rice2, coffee2)
  {
  }

  /** The smoothed Idli price: it closes 20% of the gap to the target, so it
      lies between the old price and the target and the remaining gap is
      80% of the old one. */
  function SmoothIdli(current: real, rice: real, coffee: real): (r: real)
    ensures r - IdliTarget(rice, coffee) == 0.8 * (current - IdliTarget(rice, coffee))
    ensures Min(current, IdliTarget(rice, coffee)) <= r <= Max(current, IdliTarget(rice, coffee))
  {
    current + (IdliTarget(rice, coffee) - current) * 0.2
  }

  /** The Idli price is never clamped, yet it never falls below the floor:
      with rice and coffee at or above the floor the target is at least
      21.6, and the smoothed price lies between two values above the floor. */
  lemma IdliStaysAboveFloor(current: real, rice: real, coffee: real)
    requires current >= PriceFloor && rice >= PriceFloor && coffee >= PriceFloor
    ensures IdliTarget(rice, coffee) >= 21.6
    ensures SmoothIdli(current, rice, coffee) >= PriceFloor
  {
  }

  /** The artisan-coffee demand nudge: a drag when rent is above 3000, a
      milder one above 2500, and growth otherwise. */
  function RentDrag(rent: real): (g: real)
    ensures g < 0.0 <==> rent > 2500.0
    ensures rent > 3000.0 ==> g == -0.015
    ensures 2500.0 < rent <= 3000.0 ==> g == -0.005
    ensures rent <= 2500.0 ==> g == 0.005
  {
    if rent > 3000.0 then -0.015 else if rent > 2500.0 then -0.005 else 0.005
  }

  /** Artisan coffee (richer copy): cost push when raw beans are above 260,
      the rent squeeze, and a ceiling correction above 500. The nudges add up
      to between -0.035 and +0.015. */
  function ArtisanFactor(d: ResourceDraw, rent: real, own: real, beans: real): (c: real)
    ensures d.noise - 0.035 <= c <= d.noise + 0.015
    ensures rent > 3000.0 ==> c <= d.noise - 0.005
    ensures rent <= 2500.0 && own <= 500.0 ==> c >= d.noise + 0.005
  {
    var change := d.noise + (if beans > 260.0 then 0.01 else 0.0);
    var change' := change + RentDrag(rent);
    if own > 500.0 then change' - 0.02 else change'
  }

  /** Higher rent never raises the artisan-coffee factor. */
  lemma ArtisanRentSqueeze(d: ResourceDraw, rent1: real, rent2: real, own: real, beans: real)
    requires rent1 <= rent2
    ensures ArtisanFactor(d, rent2, own, beans) <= ArtisanFactor(d, rent1, own, beans)
  {
  }

  /** Raw beans above 260 push the artisan-coffee factor up by exactly 0.01. */
  lemma ArtisanCostPush(d: ResourceDraw, rent: real, own: real, beans1: real, beans2: real)
    requires beans1 <= 260.0 < beans2
    ensures ArtisanFactor(d, rent, own, beans2) == ArtisanFactor(d, rent, own, beans1) + 0.01
  {
  }

  /** With raw beans at or below 260 and its own price at or below 500, the
      artisan-coffee factor is the noise plus the rent nudge alone; with
      `ArtisanCostPush` and `ArtisanCeiling` this fixes it on every input. */
  lemma ArtisanBase(d: ResourceDraw, rent: real, own: real, beans: real)
    requires beans <= 260.0 && own <= 500.0
    ensures ArtisanFactor(d, rent, own, beans) == d.noise + RentDrag(rent)
  {
  }

  /** An artisan-coffee price above 500 takes a ceiling correction of
      exactly 0.02. */
  lemma ArtisanCeiling(d: ResourceDraw, rent: real, own1: real, own2: real, beans: real)
    requires own1 <= 500.0 < own2
    ensures ArtisanFactor(d, rent, own2, beans) == ArtisanFactor(d, rent, own1, beans) - 0.02
  {
  }

  /** Flowers (simpler copy): when the fresh Idli price is above 60 the
      factor takes a -0.05 drag and no festival boost; otherwise it takes the
      boost in Post-Monsoon and nothing in other seasons. */
  function FlowersFactor(d: ResourceDraw, season: Season, idli: real): (c: real)
    ensures idli > 60.0 ==> c == d.noise - 0.05
    ensures idli <= 60.0 && season != PostMonsoon ==> c == d.noise
    ensures idli <= 60.0 && season == PostMonsoon && 0.05 <= d.amount <= 0.15 ==>
              d.noise + 0.05 <= c <= d.noise + 0.15
    ensures idli <= 60.0 && season == PostMonsoon ==> c == d.noise + d.amount
  {
    var boost := if season == PostMonsoon then d.amount else 0.0;
    if idli > 60.0 then d.noise + -0.05 else d.noise + boost
  }

  /** Raw coffee: a drought pushes the factor up (+0.04 in the richer copy,
      +0.03 in the simpler one); otherwise the simpler copy eases it by 0.01
      in Winter. */
  function CoffeeFactor(v: Variant, d: ResourceDraw, weather: Weather, season: Season): (c: real)
    ensures weather == Drought ==> c >= d.noise + 0.03
    ensures weather != Drought ==> d.noise - 0.01 <= c <= d.noise
    ensures v == CaffeineCrash && weather != Drought ==> c == d.noise
  {
    if v == CaffeineCrash then
      (if weather == Drought then d.noise + 0.04 else d.noise)
    else if weather == Drought then d.noise + 0.03
    else if season == Winter then d.noise - 0.01
    else d.noise
  }

  /** The raw-coffee nudge exactly: +0.04 (richer copy) or +0.03 (simpler
      copy) under drought, -0.01 in the simpler copy's Winter without
      drought, and nothing otherwise. */
  lemma CoffeeNudge(v: Variant, d: ResourceDraw, weather: Weather, season: Season)
    ensures CoffeeFactor(v, d, weather, season) - d.noise
         == if weather == Drought then (if v == CaffeineCrash then 0.04 else 0.03)
            else if v != CaffeineCrash && season == Winter then -0.01
            else 0.0
  {
  }

  /** Ragi and rice: +0.05 under drought, no nudge otherwise. */
  function StapleFactor(d: ResourceDraw, weather: Weather): (c: real)
    ensures weather == Drought <==> c > d.noise
    ensures c - d.noise == 0.0 || c - d.noise == 0.05
  {
    if weather == Drought then d.noise + 0.05 else d.noise
  }

  /** Code: the richer copy adds a growth drift of 0.001; both add the shock
      shift when the shock fires. */
  function CodeFactor(v: Variant, d: ResourceDraw): (c: real)
    ensures !d.fires ==> c - d.noise == (if v == CaffeineCrash then 0.001 else 0.0)
    ensures d.fires && ValidDraw(v, Code, d) ==> c - d.noise - (if v == CaffeineCrash then 0.001 else 0.0) in {CodeShock(v), -CodeShock(v)}
  {
    var change := if v == CaffeineCrash then d.noise + 0.001 else d.noise;
    if d.fires then change + d.amount else change
  }

  /** A fired shock adds exactly its drawn shift on top of the noise and the
      drift. */
  lemma CodeShift(v: Variant, d: ResourceDraw)
    requires d.fires
    ensures CodeFactor(v, d) == d.noise + (if v == CaffeineCrash then 0.001 else 0.0) + d.amount
  {
  }

  /** In the simpler copy a fired Code shock is announced as a boom exactly
      when it raises the Code factor above the noise, and as a recession
      exactly when it lowers it. */
  lemma CodeNewsMatchesShift(d: ResourceDraw, weather: Weather, season: Season, rent: real, idli: real)
    requires d.fires && ValidDraw(NammaMarket, Code, d)
    ensures News(NammaMarket, Code, d, weather, season, rent, idli) == Some(TechBoom) <==> CodeFactor(NammaMarket, d) > d.noise
    ensures News(NammaMarket, Code, d, weather, season, rent, idli) == Some(TechRecession) <==> CodeFactor(NammaMarket, d) < d.noise
  {
  }

  /** The adjusted factor of resource `r`, given what the loop sees when it
      reaches `r`: its own price, the raw-bean price and the Idli price. */
  function Factor(v: Variant, r: Resource, d: ResourceDraw, weather: Weather, season: Season,
                  rent: real, own: real, beans: real, idli: real): real
  {
    match r
    case ArtisanCoffee => ArtisanFactor(d, rent, own, beans)
    case Flowers => FlowersFactor(d, season, idli)
    case Coffee => CoffeeFactor(v, d, weather, season)
    case Ragi => StapleFactor(d, weather)
    case Rice => StapleFactor(d, weather)
    case Code => CodeFactor(v, d)
    case _ => d.noise
  }

  /** Which nudge goes with which resource: Ragi and Rice the staple one,
      raw coffee the weather and season one, artisan coffee the rent one,
      Flowers the Idli one, Code the shock, and INR and the Idli set the
      noise alone. */
  lemma FactorDispatch(v: Variant, r: Resource, d: ResourceDraw, weather: Weather, season: Season,
                       rent: real, own: real, beans: real, idli: real)
    ensures var c := Factor(v, r, d, weather, season, rent, own, beans, idli);
            && (r == Ragi || r == Rice ==> c == StapleFactor(d, weather))
            && (r == Coffee ==> c == CoffeeFactor(v, d, weather, season))
            && (r == ArtisanCoffee ==> c == ArtisanFactor(d, rent, own, beans))
            && (r == Flowers ==> c == FlowersFactor(d, season, idli))
            && (r == Code ==> c == CodeFactor(v, d))
            && (r == Inr || r == IdliSet ==> c == d.noise)
  {
  }

  /** Every nudge is bounded, so with a valid draw the factor stays within
      0.1 below and 0.15 above the noise, and within [0.88, 1.17]. */
  lemma FactorBand(v: Variant, r: Resource, d: ResourceDraw, weather: Weather, season: Season,
                   rent: real, own: real, beans: real, idli: real)
    requires ValidDraw(v, r, d)
    ensures var c := Factor(v, r, d, weather, season, rent, own, beans, idli);
            d.noise - 0.1 <= c <= d.noise + 0.15 && 0.88 <= c <= 1.17
  {
  }

  /** Only the artisan-coffee factor reads the raw-bean price. */
  lemma FactorIgnoresBeans(v: Variant, r: Resource, d: ResourceDraw, weather: Weather, season: Season,
                           rent: real, own: real, beans1: real, beans2: real, idli: real)
    requires r != ArtisanCoffee
    ensures Factor(v, r, d, weather, season, rent, own, beans1, idli)
         == Factor(v, r, d, weather, season, rent, own, beans2, idli)
  {
  }

  /** The headline candidate resource `r` emits, if any. Every candidate
      needs its random test to fire; a Code shock in the simpler copy always
      emits, a boom for an upward shift and a recession for a downward one. */
  function News(v: Variant, r: Resource, d: ResourceDraw, weather: Weather, season: Season,
                rent: real, idli: real): (h: Option<Headline>)
    ensures h.Some? ==> d.fires
    ensures r == Code && v == NammaMarket && d.fires ==>
              h == Some(if d.amount > 0.0 then TechBoom else TechRecession)
    ensures r == Code && v == CaffeineCrash ==> h == None
  {
    match r
    case ArtisanCoffee => if rent > 3000.0 && d.fires then Some(LowFootfall) else None
    case Flowers => if idli > 60.0 && d.fires then Some(FlowerSlump) else None
    case Coffee => if weather == Drought && d.fires then Some(CropFailure) else None
    case Ragi => if weather == Drought && d.fires then Some(Shortage(Ragi)) else None
    case Rice => if weather == Drought && d.fires then Some(Shortage(Rice)) else None
    case Code => if v == NammaMarket && d.fires then Some(if d.amount > 0.0 then TechBoom else TechRecession) else None
    case _ => None
  }

  /** Each candidate is emitted exactly under its condition: a staple
      shortage or a crop failure in a drought, low footfall when rent is
      above 3000, a flower slump when Idli costs more than 60, each only
      when its random test fires; the currency and the Idli set never emit. */
  lemma NewsConditions(v: Variant, r: Resource, d: ResourceDraw, weather: Weather, season: Season,
                       rent: real, idli: real)
    ensures var h := News(v, r, d, weather, season, rent, idli);
            && ((r == Ragi || r == Rice) && weather == Drought && d.fires ==> h == Some(Shortage(r)))
            && (r == Coffee && weather == Drought && d.fires ==> h == Some(CropFailure))
            && (r == ArtisanCoffee && rent > 3000.0 && d.fires ==> h == Some(LowFootfall))
            && (r == Flowers && idli > 60.0 && d.fires ==> h == Some(FlowerSlump))
            && (h.Some? && (r == Ragi || r == Rice || r == Coffee) ==> weather == Drought)
            && (h.Some? && r == ArtisanCoffee ==> rent > 3000.0)
            && (h.Some? && r == Flowers ==> idli > 60.0)
            && (r == IdliSet || r == Inr ==> h == None)
  {
  }

  /** The resources the loop adjusts: all but the currency and the Idli set. */
  predicate Visited(r: Resource) {
    r != Inr && r != IdliSet
  }

  /** The candidate list with `news` appended when there is one. */
  function Keep(headlines: seq<Headline>, news: Option<Headline>): (hs: seq<Headline>)
    ensures news.None? ==> hs == headlines
    ensures news.Some? ==> hs == headlines + [news.value]
  {
    match news
    case None => headlines
    case Some(h) => headlines + [h]
  }

  /** The headline candidates of the loop once it has passed the first `n`
      members of the enum, in order. At most one per member, none from the Idli
      set and the currency (the last two), and none unless some random test
      fired. */
  function Candidates(v: Variant, draws: map<Resource, ResourceDraw>, weather: Weather, season: Season,
                      rent: real, idli: real, n: nat): (hs: seq<Headline>)
    requires n <= |Resources(v)| && ValidDraws(v, draws)
    ensures |hs| <= (if n <= 5 then n else 5)
    ensures (forall r :: r in Tradable(v) && r != IdliSet ==> !draws[r].fires) ==> hs == []
  {
    if n == 0 then []
    else
      var r := Resources(v)[n - 1];
      var earlier := Candidates(v, draws, weather, season, rent, idli, n - 1);
      if Visited(r) then Keep(earlier, News(v, r, draws[r], weather, season, rent, idli)) else earlier
  }

  /** All headline candidates of one update: the rent hike first, then the
      resource loop's. */
  function TickNews(v: Variant, hike: real, rent: real, draws: map<Resource, ResourceDraw>,
                    weather: Weather, season: Season, idli: real): (hs: seq<Headline>)
    requires ValidDraws(v, draws)
    ensures HasRent(v) && hike > 0.0 ==> hs != [] && hs[0] == RentHike(rent)
    ensures |hs| <= 6
  {
    (if HasRent(v) && hike > 0.0 then [RentHike(rent)] else [])
    + Candidates(v, draws, weather, season, rent, idli, |Resources(v)|)
  }

  /** The prices after the cost-push step, before the resource loop. */
  function AfterIdli(p: map<Resource, real>): map<Resource, real>
    requires Rice in p && Coffee in p && IdliSet in p
  {
    p[IdliSet := SmoothIdli(p[IdliSet], p[Rice], p[Coffee])]
  }

  /** The price of `r` after one update: Idli smoothed toward its cost-push
      target, every other resource scaled by its factor and clamped to the
      floor. Artisan coffee sees the raw-bean price of this same update and
      Flowers see the fresh Idli price, because the loop visits them after
      those were written. `rent` is the rent after this update's shock. */
  function NewPrice(v: Variant, p: map<Resource, real>, r: Resource, weather: Weather, season: Season,
                    rent: real, draws: map<Resource, ResourceDraw>): (y: real)
    requires p.Keys == Tradable(v) && ValidDraws(v, draws) && r in p
    decreases if r == ArtisanCoffee then 1 else 0
  {
    var idli := SmoothIdli(p[IdliSet], p[Rice], p[Coffee]);
    if r == IdliSet then idli
    else
      var beans := if r == ArtisanCoffee then NewPrice(v, p, Coffee, weather, season, rent, draws) else p[Coffee];
      Scaled(p[r], Factor(v, r, draws[r], weather, season, rent, p[r], beans, idli))
  }

  /** The price rule of one update: the Idli set is smoothed and not
      floored; artisan coffee is scaled by a factor that reads the new
      raw-bean price; every other resource is scaled by its own factor; and
      every price but Idli's ends at or above the floor. */
  lemma NewPriceRule(v: Variant, p: map<Resource, real>, r: Resource, weather: Weather, season: Season,
                     rent: real, draws: map<Resource, ResourceDraw>)
    requires p.Keys == Tradable(v) && ValidDraws(v, draws) && r in p
    ensures var y := NewPrice(v, p, r, weather, season, rent, draws);
            var idli := SmoothIdli(p[IdliSet], p[Rice], p[Coffee]);
            && (r == IdliSet ==> y == idli)
            && (r == Ragi || r == Rice ==> y == Scaled(p[r], StapleFactor(draws[r], weather)))
            && (r == Coffee ==> y == Scaled(p[r], CoffeeFactor(v, draws[r], weather, season)))
            && (r == ArtisanCoffee ==>
                  y == Scaled(p[r], ArtisanFactor(draws[r], rent, p[r], NewPrice(v, p, Coffee, weather, season, rent, draws))))
            && (r == Flowers ==> y == Scaled(p[r], FlowersFactor(draws[r], season, idli)))
            && (r == Code ==> y == Scaled(p[r], CodeFactor(v, draws[r])))
            && (r != IdliSet ==> y >= PriceFloor)
  {
  }

  /** The price map after one update, on the same resources. */
  function NextPrices(v: Variant, p: map<Resource, real>, weather: Weather, season: Season,
                      rent: real, draws: map<Resource, ResourceDraw>): (q: map<Resource, real>)
    requires p.Keys == Tradable(v) && ValidDraws(v, draws)
    ensures q.Keys == p.Keys
  {
    map r | r in p :: NewPrice(v, p, r, weather, season, rent, draws)
  }

  /** The Idli price after an update is the smoothed one, and every other
      price is at or above the floor. */
  lemma NextPricesShape(v: Variant, p: map<Resource, real>, weather: Weather, season: Season,
                        rent: real, draws: map<Resource, ResourceDraw>)
    requires p.Keys == Tradable(v) && ValidDraws(v, draws)
    ensures var q := NextPrices(v, p, weather, season, rent, draws);
            && q[IdliSet] == SmoothIdli(p[IdliSet], p[Rice], p[Coffee])
            && forall r :: r in q && r != IdliSet ==> q[r] >= PriceFloor
  {
  }

  /** The new price of one visited resource, as the loop computes it when
      it reaches that resource: any raw-bean price will do except for artisan
      coffee, which must be given the new one. */
  lemma NextPriceAt(v: Variant, p: map<Resource, real>, weather: Weather, season: Season,
                    rent: real, draws: map<Resource, ResourceDraw>, r: Resource, beans: real)
    requires p.Keys == Tradable(v) && ValidDraws(v, draws)
    requires r in Tradable(v) && r != IdliSet
    requires r == ArtisanCoffee ==> beans == NextPrices(v, p, weather, season, rent, draws)[Coffee]
    ensures NextPrices(v, p, weather, season, rent, draws)[r]
         == Scaled(p[r], Factor(v, r, draws[r], weather, season, rent, p[r], beans,
                                SmoothIdli(p[IdliSet], p[Rice], p[Coffee])))
  {
    var idli := SmoothIdli(p[IdliSet], p[Rice], p[Coffee]);
    if r != ArtisanCoffee {
      FactorIgnoresBeans(v, r, draws[r], weather, season, rent, p[r], beans, p[Coffee], idli);
    }
  }

  /** One pass of the resource loop over `r`: its price scaled by its factor
      and floored, reading the raw-bean and Idli prices as they stand. */
  function Visit(v: Variant, r: Resource, p: map<Resource, real>, weather: Weather, season: Season,
                 rent: real, draws: map<Resource, ResourceDraw>): (q: map<Resource, real>)
    requires r in p && Coffee in p && IdliSet in p && r in draws
    ensures q.Keys == p.Keys && q[r] >= PriceFloor
    ensures forall k :: k in p && k != r ==> q[k] == p[k]
  {
    p[r := Scaled(p[r], Factor(v, r, draws[r], weather, season, rent, p[r], p[Coffee], p[IdliSet]))]
  }

  /** The prices once the loop has passed the first `n` members of the enum:
      each adjusted resource among them holds its new price, every other
      resource its price from before the loop. */
  function Staged(before: map<Resource, real>, next: map<Resource, real>, n: nat): (q: map<Resource, real>)
    requires before.Keys <= next.Keys
    ensures q.Keys == before.Keys
  {
    map r | r in before :: if Visited(r) && Index(r) < n then next[r] else before[r]
  }

  /** The series once the loop has passed the first `n` members of the enum:
      each adjusted resource's series has gained its new price. */
  function StagedSeries(h: map<Resource, seq<real>>, next: map<Resource, real>, n: nat): (g: map<Resource, seq<real>>)
    requires h.Keys <= next.Keys
    ensures g.Keys == h.Keys
  {
    map r | r in h :: if Visited(r) && Index(r) < n then h[r] + [next[r]] else h[r]
  }

  /** The loop's visit to the `i`-th member of the enum writes that
      resource's closed-form price and nothing else: resources before raw
      coffee see the old raw-bean price and ignore it, artisan coffee sees
      the new one, and every visit sees the smoothed Idli price. */
  lemma VisitAdvances(v: Variant, p: map<Resource, real>, weather: Weather, season: Season,
                      rent: real, draws: map<Resource, ResourceDraw>, i: nat)
    requires p.Keys == Tradable(v) && ValidDraws(v, draws)
    requires i < |Resources(v)| && Visited(Resources(v)[i])
    ensures var next := NextPrices(v, p, weather, season, rent, draws);
            var cur := Staged(AfterIdli(p), next, i);
            Visit(v, Resources(v)[i], cur, weather, season, rent, draws) == Staged(AfterIdli(p), next, i + 1)
  {
    var p1 := AfterIdli(p);
    var next := NextPrices(v, p, weather, season, rent, draws);
    var cur := Staged(p1, next, i);
    var r := Resources(v)[i];
    IndexOf(v, r, i);
    IndexOf(v, Coffee, 2);
    NextPriceAt(v, p, weather, season, rent, draws, r, cur[Coffee]);
    StagedAdvances(v, p1, next, i);
  }

  /** Writing the `i`-th member's new price moves the prices one member on. */
  lemma StagedAdvances(v: Variant, p: map<Resource, real>, next: map<Resource, real>, i: nat)
    requires p.Keys == Tradable(v) && p.Keys <= next.Keys
    requires i < |Resources(v)| && Visited(Resources(v)[i])
    ensures var r := Resources(v)[i];
            Staged(p, next, i)[r := next[r]] == Staged(p, next, i + 1)
  {
    var r := Resources(v)[i];
    forall k | k in p
      ensures Staged(p, next, i)[r := next[r]][k] == Staged(p, next, i + 1)[k]
    {
      IndexOf(v, k, i);
    }
  }

  /** What one visit of the `i`-th member reads and writes: the Idli price
      the loop sees is the smoothed one, the member's staged price is its
      new price, and the candidate list gains the member's news, if any. */
  lemma VisitReads(v: Variant, p: map<Resource, real>, weather: Weather, season: Season,
                   rent: real, draws: map<Resource, ResourceDraw>, i: nat)
    requires p.Keys == Tradable(v) && ValidDraws(v, draws)
    requires i < |Resources(v)| && Visited(Resources(v)[i])
    ensures var p1 := AfterIdli(p);
            var next := NextPrices(v, p, weather, season, rent, draws);
            var r := Resources(v)[i];
            && Staged(p1, next, i)[IdliSet] == p1[IdliSet]
            && Staged(p1, next, i + 1)[r] == next[r]
            && Candidates(v, draws, weather, season, rent, p1[IdliSet], i + 1)
               == Keep(Candidates(v, draws, weather, season, rent, p1[IdliSet], i),
                       News(v, r, draws[r], weather, season, rent, p1[IdliSet]))
  {
    IndexOf(v, Resources(v)[i], i);
  }

  /** Passing a member the loop skips changes nothing. */
  lemma SkipKeeps(v: Variant, p: map<Resource, real>, h: map<Resource, seq<real>>,
                  next: map<Resource, real>, i: nat)
    requires p.Keys <= Tradable(v) && h.Keys <= Tradable(v) && p.Keys <= next.Keys && h.Keys <= next.Keys
    requires i < |Resources(v)| && !Visited(Resources(v)[i])
    ensures Staged(p, next, i + 1) == Staged(p, next, i)
    ensures StagedSeries(h, next, i + 1) == StagedSeries(h, next, i)
  {
    forall k | k in Tradable(v) {
      IndexOf(v, k, i);
    }
  }

  /** Visiting the `i`-th member appends its new price to its series and to
      no other. */
  lemma SeriesAdvances(v: Variant, h: map<Resource, seq<real>>, next: map<Resource, real>, i: nat)
    requires h.Keys == Tradable(v) && h.Keys <= next.Keys
    requires i < |Resources(v)| && Visited(Resources(v)[i])
    ensures var g := StagedSeries(h, next, i);
            var r := Resources(v)[i];
            g[r := g[r] + [next[r]]] == StagedSeries(h, next, i + 1)
  {
    var r := Resources(v)[i];
    IndexOf(v, r, i);
    forall k | k in h && Index(k) == i
      ensures k == r
    {
      IndexOf(v, k, i);
    }
    SeriesStep(h, next, r);
  }

  /** The series step for one resource whose position no other key shares. */
  lemma SeriesStep(h: map<Resource, seq<real>>, next: map<Resource, real>, r: Resource)
    requires h.Keys <= next.Keys && r in h && Visited(r)
    requires forall k :: k in h && Index(k) == Index(r) ==> k == r
    ensures var g := StagedSeries(h, next, Index(r));
            g[r := g[r] + [next[r]]] == StagedSeries(h, next, Index(r) + 1)
  {
    var g, g' := StagedSeries(h, next, Index(r)), StagedSeries(h, next, Index(r) + 1);
    forall k | k in h
      ensures g[r := g[r] + [next[r]]][k] == g'[k]
    {
    }
  }

  /** Once the loop has passed the whole enum, the prices are exactly the
      closed-form price map. */
  lemma StagedComplete(v: Variant, p: map<Resource, real>, weather: Weather, season: Season,
                       rent: real, draws: map<Resource, ResourceDraw>)
    requires p.Keys == Tradable(v) && ValidDraws(v, draws)
    ensures var next := NextPrices(v, p, weather, season, rent, draws);
            Staged(AfterIdli(p), next, |Resources(v)|) == next
  {
    NextPricesShape(v, p, weather, season, rent, draws);
  }

  /** The loop's appends, followed by the Idli append after the loop, extend
      every tradable series by exactly its new price. */
  lemma SeriesComplete(v: Variant, h: map<Resource, seq<real>>, q: map<Resource, real>)
    requires h.Keys == Tradable(v) && h.Keys <= q.Keys
    ensures var g := StagedSeries(h, q, |Resources(v)|);
            g[IdliSet := g[IdliSet] + [q[IdliSet]]] == Appended(h, q)
  {
  }

  /** Every price, Idli included, stays at or above the floor. */
  lemma PricesStayAboveFloor(v: Variant, p: map<Resource, real>, weather: Weather, season: Season,
                             rent: real, draws: map<Resource, ResourceDraw>)
    requires p.Keys == Tradable(v) && ValidDraws(v, draws)
    requires AboveFloor(p)
    ensures AboveFloor(NextPrices(v, p, weather, season, rent, draws))
  {
    IdliStaysAboveFloor(p[IdliSet], p[Rice], p[Coffee]);
    NextPricesShape(v, p, weather, season, rent, draws);
  }

  /** No price other than Idli's moves by more than 12% down or 17% up in
      one update, unless the floor lifts it. */
  lemma PriceMoveBounded(v: Variant, p: map<Resource, real>, weather: Weather, season: Season,
                         rent: real, draws: map<Resource, ResourceDraw>, r: Resource)
    requires p.Keys == Tradable(v) && ValidDraws(v, draws) && r in p && r != IdliSet
    requires p[r] >= PriceFloor
    ensures var y := NextPrices(v, p, weather, season, rent, draws)[r];
            0.88 * p[r] <= y && (y <= 1.17 * p[r] || y == PriceFloor)
  {
    var beans := NextPrices(v, p, weather, season, rent, draws)[Coffee];
    NextPriceAt(v, p, weather, season, rent, draws, r, beans);
    assert ValidDraw(v, r, draws[r]);
    FactorBand(v, r, draws[r], weather, season, rent, p[r], beans, SmoothIdli(p[IdliSet], p[Rice], p[Coffee]));
    ScaledWithin(p[r], Factor(v, r, draws[r], weather, season, rent, p[r], beans,
                              SmoothIdli(p[IdliSet], p[Rice], p[Coffee])));
  }

  /** Scaling by a factor in [0.88, 1.17] keeps a price within that band
      of its old value, unless the floor lifts it. */
  lemma ScaledWithin(x: real, c: real)
    requires x >= PriceFloor && 0.88 <= c <= 1.17
    ensures 0.88 * x <= Scaled(x, c) && (Scaled(x, c) <= 1.17 * x || Scaled(x, c) == PriceFloor)
  {
    assert x * c - 0.88 * x == x * (c - 0.88) >= 0.0;
    assert 1.17 * x - x * c == x * (1.17 - c) >= 0.0;
  }

  /** Scaling a price above the floor by a factor above 1 raises it. */
  lemma ScaledRises(x: real, c: real)
    requires x >= PriceFloor && c > 1.0
    ensures Scaled(x, c) > x
  {
    var y := x * c;
    assert y - x == x * (c - 1.0) > 0.0;
    assert y > x;
    assert Clamp(y) == y;
    assert Scaled(x, c) == Clamp(y);
    assert Scaled(x, c) > x;
  }

  /** Under drought the ragi, rice and raw-coffee factors exceed 1, so those
      prices strictly rise. */
  lemma DroughtRaisesStaples(v: Variant, p: map<Resource, real>, season: Season,
                             rent: real, draws: map<Resource, ResourceDraw>)
    requires p.Keys == Tradable(v) && ValidDraws(v, draws)
    requires forall r :: r in p ==> p[r] >= PriceFloor
    ensures var q := NextPrices(v, p, Drought, season, rent, draws);
            q[Ragi] > p[Ragi] && q[Rice] > p[Rice] && q[Coffee] > p[Coffee]
  {
    ScaledRises(p[Ragi], StapleFactor(draws[Ragi], Drought));
    ScaledRises(p[Rice], StapleFactor(draws[Rice], Drought));
    ScaledRises(p[Coffee], CoffeeFactor(v, draws[Coffee], Drought, season));
  }
}
