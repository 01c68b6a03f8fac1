// The three hand-written agent policies. Each agent owns an inventory map
// and a cash balance and, once per tick, reads the shared weather, prices and
// rent and updates its own holdings. The functions `FarmerDay`,
// `DarshiniDay` and `TechieDay` are closed-form reference definitions of one
// tick of each policy; the `Act...` methods of class `Agent` follow the
// source's statements and are proved equal to them.

module Agents {

  import opened Catalog

  datatype AgentKind = Farmer(crop: Resource) | DarshiniOwner | Techie

  datatype Holdings = Holdings(inventory: map<Resource, real>, cash: real)

  /** The log line an agent returns, as a tag; the wording is presentation. */
  datatype LogLine =
    | Harvested(name: Name, yieldAmount: real, crop: Resource, sold: Option<real>)
    | Cooked(name: Name, produced: real)
    | Spent(name: Name, boughtLuxury: bool)

  /** An agent's name: the prefix of its group and its number within the
      group, "Raitha-0" when written out. */
  datatype Name = Name(prefix: Prefix, number: nat)

  datatype Prefix = Raitha | Planter | Dev | Darshini

  datatype AgentDay = AgentDay(after: Holdings, log: LogLine)

  /** Harvest size: 10 in Sunny weather, 1 in a drought, 5 otherwise. */
  function FarmerYield(w: Weather): (y: real)
    ensures y > 0.0
    ensures y == 10.0 <==> w == Sunny
    ensures y == 1.0 <==> w == Drought
    ensures w != Sunny && w != Drought ==> y == 5.0
  {
    if w == Drought then 1.0 else if w == Sunny then 10.0 else 5.0
  }

  /** Farmers keep this much of their crop and sell the rest. */
  const CropBuffer: real := 2.0

  /** Daily wage of a techie. */
  function Wage(v: Variant): real {
    if v == CaffeineCrash then 3000.0 else 2000.0
  }

  /** A techie buys the luxury good only with more cash than this. */
  function SavingsTarget(v: Variant): real {
    if v == CaffeineCrash then 50000.0 else 5000.0
  }

  /** Cash a techie starts with. */
  function TechieStartCash(v: Variant): real {
    if v == CaffeineCrash then 40000.0 else 5000.0
  }

  /** What an agent of `kind` starts with. A farmer holds none of its crop,
      10 ragi and 500 in cash (for a ragi farmer the two entries are one,
      holding 10); a darshini 10 rice, 5 coffee, no Idli and 2000; a techie
      nothing in stock and its safety net of cash. */
  function InitialBooks(v: Variant, kind: AgentKind): (h: Holdings)
    ensures Stocked(v, kind, h.inventory) && h.cash > 0.0
    ensures forall k :: k in h.inventory ==> h.inventory[k] >= 0.0
  {
    match kind
    case Farmer(crop) => Holdings(map[crop := 0.0, Ragi := 10.0], 500.0)
    case DarshiniOwner => Holdings(map[IdliSet := 0.0, Rice := 10.0, Coffee := 5.0], 2000.0)
    case Techie => Holdings(map[Code := 0.0, IdliSet := 0.0, Luxury(v) := 0.0], TechieStartCash(v))
  }

  /** The inventory entries a policy indexes without a default. */
  predicate Stocked(v: Variant, kind: AgentKind, inventory: map<Resource, real>) {
    match kind
    case Farmer(crop) => crop in inventory && Ragi in inventory
    case DarshiniOwner => Rice in inventory && Coffee in inventory && IdliSet in inventory
    case Techie => IdliSet in inventory && Luxury(v) in inventory
  }

  /** The prices a policy looks up. */
  predicate Priced(v: Variant, kind: AgentKind, prices: map<Resource, real>) {
    Tradable(v) <= prices.Keys && (kind.Farmer? ==> kind.crop in prices)
  }

  /** Harvest: add the day's yield to the crop entry, creating it if absent. */
  function Harvest(h: Holdings, crop: Resource, y: real): (g: Holdings)
    ensures g.inventory.Keys == h.inventory.Keys + {crop} && g.cash == h.cash
    ensures g.inventory[crop] == Get(h.inventory, crop) + y
  {
    Holdings(h.inventory[crop := Get(h.inventory, crop) + y], h.cash)
  }

  /** Eat one ragi when any is in stock; otherwise buy one, when the cash
      covers its price, and keep it. */
  function EatRagi(h: Holdings, cost: real): (g: Holdings)
    ensures h.inventory.Keys <= g.inventory.Keys <= h.inventory.Keys + {Ragi}
    ensures forall k :: k in h.inventory && k != Ragi ==> g.inventory[k] == h.inventory[k]
    ensures Get(h.inventory, Ragi) > 0.0 ==> g == Holdings(h.inventory[Ragi := h.inventory[Ragi] - 1.0], h.cash)
    ensures Get(h.inventory, Ragi) <= 0.0 && h.cash < cost ==> g == h
    ensures Get(h.inventory, Ragi) <= 0.0 && h.cash >= cost ==>
              Ragi in g.inventory && g.inventory[Ragi] == Get(h.inventory, Ragi) + 1.0 && g.cash == h.cash - cost && g.cash >= 0.0
  {
    if Get(h.inventory, Ragi) > 0.0 then Holdings(h.inventory[Ragi := h.inventory[Ragi] - 1.0], h.cash)
    else if h.cash >= cost then Holdings(h.inventory[Ragi := Get(h.inventory, Ragi) + 1.0], h.cash - cost)
    else h
  }

  /** The part of the crop above the buffer. */
  function Surplus(h: Holdings, crop: Resource): (q: real)
    requires crop in h.inventory
    ensures q >= 0.0 && (q > 0.0 <==> h.inventory[crop] > CropBuffer)
  {
    Max(0.0, h.inventory[crop] - CropBuffer)
  }

  /** What `q` units fetch at `price` each. */
  function Revenue(q: real, price: real): (m: real)
    ensures q >= 0.0 && price >= 0.0 ==> m >= 0.0
  {
    q * price
  }

  /** Sell the whole surplus at `price`; the crop entry ends at the buffer
      when there was a surplus and is untouched otherwise. */
  function SellSurplus(h: Holdings, crop: Resource, price: real): (g: Holdings)
    requires crop in h.inventory
    ensures g.inventory.Keys == h.inventory.Keys
    ensures forall k :: k in h.inventory && k != crop ==> g.inventory[k] == h.inventory[k]
    ensures g.inventory[crop] == Min(h.inventory[crop], CropBuffer)
    ensures g.cash == h.cash + Revenue(Surplus(h, crop), price)
    ensures price >= 0.0 ==> g.cash >= h.cash
  {
    var toSell := Surplus(h, crop);
    if toSell > 0.0 then Holdings(h.inventory[crop := h.inventory[crop] - toSell], h.cash + Revenue(toSell, price))
    else h
  }

  /** One tick of a farmer: harvest, eat one ragi (or buy one if there is
      none and it is affordable), then sell all of the crop above a buffer
      of 2 at the market price. A ragi farmer eats out of the crop it just
      harvested. Only the simpler copy's log reports the quantity sold. */
  function FarmerDay(v: Variant, name: Name, crop: Resource, h: Holdings, w: Weather,
                     prices: map<Resource, real>): (d: AgentDay)
    requires Ragi in prices && crop in prices
    ensures crop in d.after.inventory && (Ragi in h.inventory ==> Ragi in d.after.inventory)
    ensures forall k :: k in h.inventory && k != crop && k != Ragi ==>
              k in d.after.inventory && d.after.inventory[k] == h.inventory[k]
    ensures d.log.Harvested? && d.log.yieldAmount == FarmerYield(w) && d.log.crop == crop
    ensures d.log.sold.Some? ==> v == NammaMarket && d.log.sold.value > 0.0
    ensures v == NammaMarket && crop != Ragi ==>
              (d.log.sold.Some? <==> Get(h.inventory, crop) + FarmerYield(w) > CropBuffer)
    ensures crop != Ragi || Get(h.inventory, Ragi) >= 0.0 ==>
              var stock := Get(h.inventory, crop) + FarmerYield(w) - (if crop == Ragi then 1.0 else 0.0);
              d.log.sold == (if v == NammaMarket && stock > CropBuffer then Some(stock - CropBuffer) else None)
  {
    var y := FarmerYield(w);
    var fed := EatRagi(Harvest(h, crop, y), prices[Ragi]);
    var toSell := Surplus(fed, crop);
    var sold := if v == NammaMarket && toSell > 0.0 then Some(toSell) else None;
    AgentDay(SellSurplus(fed, crop, prices[crop]), Harvested(name, y, crop, sold))
  }

  /** What a farmer holds after a tick: its crop ends at the buffer of 2
      or below; a ragi farmer eats out of the harvest, so its one entry ends
      at min(old + yield - 1, 2); any other farmer eats one ragi from stock,
      or buys one when it has none and can pay. */
  lemma FarmerStock(v: Variant, name: Name, crop: Resource, h: Holdings, w: Weather,
                    prices: map<Resource, real>)
    requires Ragi in prices && crop in prices
    ensures var after := FarmerDay(v, name, crop, h, w, prices).after.inventory;
            && (crop != Ragi ==> after[crop] == Min(Get(h.inventory, crop) + FarmerYield(w), CropBuffer))
            && (crop == Ragi && Get(h.inventory, Ragi) >= 0.0 ==>
                  after[Ragi] == Min(Get(h.inventory, Ragi) + FarmerYield(w) - 1.0, CropBuffer))
            && (crop != Ragi && Get(h.inventory, Ragi) > 0.0 ==> after[Ragi] == h.inventory[Ragi] - 1.0)
            && (crop != Ragi && Get(h.inventory, Ragi) <= 0.0 ==>
                  Get(after, Ragi) == Get(h.inventory, Ragi) + (if h.cash >= prices[Ragi] then 1.0 else 0.0))
  {
  }

  /** A farmer's cash moves by the ragi it buys and the crop it sells: it
      is paid the market price for every unit above the buffer. A ragi
      farmer eats one unit of its own harvest and buys nothing. */
  lemma FarmerCash(v: Variant, name: Name, crop: Resource, h: Holdings, w: Weather,
                   prices: map<Resource, real>)
    requires Ragi in prices && crop in prices
    ensures crop != Ragi ==>
              FarmerDay(v, name, crop, h, w, prices).after.cash == h.cash
                - (if Get(h.inventory, Ragi) <= 0.0 && h.cash >= prices[Ragi] then prices[Ragi] else 0.0)
                + Revenue(Max(0.0, Get(h.inventory, crop) + FarmerYield(w) - CropBuffer), prices[crop])
    ensures crop == Ragi && Get(h.inventory, Ragi) >= 0.0 ==>
              FarmerDay(v, name, crop, h, w, prices).after.cash == h.cash
                + Revenue(Max(0.0, Get(h.inventory, Ragi) + FarmerYield(w) - 1.0 - CropBuffer), prices[Ragi])
  {
    var fed := EatRagi(Harvest(h, crop, FarmerYield(w)), prices[Ragi]);
    if crop != Ragi {
      assert Surplus(fed, crop) == Max(0.0, Get(h.inventory, crop) + FarmerYield(w) - CropBuffer);
    } else if Get(h.inventory, Ragi) >= 0.0 {
      assert Surplus(fed, crop) == Max(0.0, Get(h.inventory, Ragi) + FarmerYield(w) - 1.0 - CropBuffer);
    }
  }

  /** A farmer never spends more than it has: starting with non-negative
      cash, and with a non-negative crop price, it ends non-negative. */
  lemma FarmerSolvent(v: Variant, name: Name, crop: Resource, h: Holdings, w: Weather,
                      prices: map<Resource, real>)
    requires Ragi in prices && crop in prices
    requires h.cash >= 0.0 && prices[crop] >= 0.0
    ensures FarmerDay(v, name, crop, h, w, prices).after.cash >= 0.0
  {
    var fed := EatRagi(Harvest(h, crop, FarmerYield(w)), prices[Ragi]);
    assert fed.cash >= 0.0;
  }

  /** Restock `item` with `batch` units when its stock is under `low` and
      the cash covers `cost`. */
  function Restock(h: Holdings, item: Resource, low: real, batch: real, cost: real): (g: Holdings)
    requires item in h.inventory
    ensures g.inventory.Keys == h.inventory.Keys
    ensures forall k :: k in h.inventory && k != item ==> g.inventory[k] == h.inventory[k]
    ensures g != h <==> h.inventory[item] < low && h.cash >= cost && (batch != 0.0 || cost != 0.0)
    ensures g != h ==> g.inventory[item] == h.inventory[item] + batch && g.cash == h.cash - cost
  {
    if h.inventory[item] < low && h.cash >= cost then
      Holdings(h.inventory[item := h.inventory[item] + batch], h.cash - cost)
    else h
  }

  /** Whether the recipe's inputs are in stock. */
  predicate CanCook(h: Holdings)
    requires Rice in h.inventory && Coffee in h.inventory
  {
    h.inventory[Rice] >= 1.0 && h.inventory[Coffee] >= 0.2
  }

  /** Cook 5 Idli sets from 1 rice and 0.2 coffee, when both are in stock. */
  function Cook(h: Holdings): (g: Holdings)
    requires Rice in h.inventory && Coffee in h.inventory && IdliSet in h.inventory
    ensures g.inventory.Keys == h.inventory.Keys && g.cash == h.cash
    ensures forall k :: k in h.inventory && k != Rice && k != Coffee && k != IdliSet ==>
              g.inventory[k] == h.inventory[k]
    ensures CanCook(h) ==> g.inventory[Rice] == h.inventory[Rice] - 1.0 && g.inventory[Rice] >= 0.0
                           && g.inventory[Coffee] == h.inventory[Coffee] - 0.2 && g.inventory[Coffee] >= 0.0
                           && g.inventory[IdliSet] == h.inventory[IdliSet] + 5.0
    ensures !CanCook(h) ==> g == h
  {
    if CanCook(h) then
      Holdings(h.inventory[Rice := h.inventory[Rice] - 1.0][Coffee := h.inventory[Coffee] - 0.2]
                          [IdliSet := h.inventory[IdliSet] + 5.0], h.cash)
    else h
  }

  /** The stock after both restocking steps. */
  function Restocked(h: Holdings, prices: map<Resource, real>): (g: Holdings)
    requires Rice in h.inventory && Coffee in h.inventory
    requires Rice in prices && Coffee in prices
    ensures g.inventory.Keys == h.inventory.Keys
  {
    Restock(Restock(h, Rice, 5.0, 10.0, prices[Rice] * 10.0), Coffee, 2.0, 5.0, prices[Coffee] * 5.0)
  }

  /** One tick of a darshini owner: restock 10 rice when under 5 units and
      affordable, then 5 coffee when under 2 units and affordable with what
      is left, then cook 5 Idli sets from 1 rice and 0.2 coffee when both are
      in stock. Every purchase is guarded, so the owner only ever spends
      cash it has, and Idli stock never shrinks. */
  function DarshiniDay(name: Name, h: Holdings, prices: map<Resource, real>): (d: AgentDay)
    requires Rice in h.inventory && Coffee in h.inventory && IdliSet in h.inventory
    requires Rice in prices && Coffee in prices
    ensures d.after.inventory.Keys == h.inventory.Keys
    ensures forall k :: k in h.inventory && k != Rice && k != Coffee && k != IdliSet ==>
              d.after.inventory[k] == h.inventory[k]
    ensures h.cash >= 0.0 ==> d.after.cash >= 0.0
    ensures d.after.cash <= h.cash || prices[Rice] < 0.0 || prices[Coffee] < 0.0
    ensures d.log.Cooked? && (d.log.produced == 0.0 || d.log.produced == 5.0)
    ensures d.after.inventory[IdliSet] == h.inventory[IdliSet] + d.log.produced
    ensures d.after.inventory[Rice] > h.inventory[Rice] ==>
              h.inventory[Rice] < 5.0 && h.cash >= prices[Rice] * 10.0
    ensures d.after.inventory[Coffee] > h.inventory[Coffee] ==> h.inventory[Coffee] < 2.0
    ensures h.inventory[Rice] >= 1.0 && h.inventory[Coffee] >= 0.2 ==> d.log.produced == 5.0
    ensures d.log.produced == 5.0 ==> d.after.inventory[Rice] >= 0.0 && d.after.inventory[Coffee] >= 0.0
    ensures d.log.produced == 0.0 ==> d.after.inventory[Rice] < 1.0 || d.after.inventory[Coffee] < 0.2
  {
    var stocked := Restocked(h, prices);
    var produced := if CanCook(stocked) then 5.0 else 0.0;
    AgentDay(Cook(stocked), Cooked(name, produced))
  }

  /** One tick of a techie: earn the wage, pay the day's rent unconditionally
      (richer copy only, so cash can go negative), buy one Idli set if
      affordable, and only after eating, with more cash than the savings
      target and enough to pay, buy one unit of the luxury good. */
  function TechieDay(v: Variant, name: Name, h: Holdings, prices: map<Resource, real>,
                     rent: real): (d: AgentDay)
    requires IdliSet in h.inventory && Luxury(v) in h.inventory
    requires IdliSet in prices && Luxury(v) in prices
    ensures d.after.inventory.Keys == h.inventory.Keys
    ensures forall k :: k in h.inventory && k != IdliSet && k != Luxury(v) ==>
              d.after.inventory[k] == h.inventory[k]
    ensures var paid := h.cash + Wage(v) - (if HasRent(v) then rent else 0.0);
            var ate := d.after.inventory[IdliSet] == h.inventory[IdliSet] + 1.0;
            var treated := d.after.inventory[Luxury(v)] == h.inventory[Luxury(v)] + 1.0;
            && (ate <==> paid >= prices[IdliSet])
            && (!ate ==> d.after.inventory[IdliSet] == h.inventory[IdliSet])
            && (!treated ==> d.after.inventory[Luxury(v)] == h.inventory[Luxury(v)])
            && (treated <==> ate && paid - prices[IdliSet] > SavingsTarget(v)
                             && paid - prices[IdliSet] >= prices[Luxury(v)])
            && d.after.cash == paid - (if ate then prices[IdliSet] else 0.0)
                                    - (if treated then prices[Luxury(v)] else 0.0)
            && d.log == Spent(name, treated)
    ensures !HasRent(v) && h.cash >= 0.0 ==> d.after.cash >= 0.0
  {
    var earned := h.cash + Wage(v);
    var paid := if HasRent(v) then earned - rent else earned;
    var ate := paid >= prices[IdliSet];
    var cash1 := if ate then paid - prices[IdliSet] else paid;
    var treated := ate && cash1 > SavingsTarget(v) && cash1 >= prices[Luxury(v)];
    var cash2 := if treated then cash1 - prices[Luxury(v)] else cash1;
    var stock := h.inventory[IdliSet := if ate then h.inventory[IdliSet] + 1.0 else h.inventory[IdliSet]]
                            [Luxury(v) := if treated then h.inventory[Luxury(v)] + 1.0 else h.inventory[Luxury(v)]];
    AgentDay(Holdings(stock, cash2), Spent(name, treated))
  }

  /** One tick of an agent of any kind: the policy of its kind runs, the
      agent stays stocked with what its policy looks up, and the log line
      carries its name and the tag of its kind. */
  function Day(v: Variant, kind: AgentKind, name: Name, h: Holdings, w: Weather,
               prices: map<Resource, real>, rent: real): (d: AgentDay)
    requires Stocked(v, kind, h.inventory) && Priced(v, kind, prices)
    ensures Stocked(v, kind, d.after.inventory)
    ensures d.log.name == name
    ensures d.log.Harvested? <==> kind.Farmer?
    ensures d.log.Cooked? <==> kind.DarshiniOwner?
    ensures d.log.Spent? <==> kind.Techie?
  {
    match kind
    case Farmer(crop) => FarmerDay(v, name, crop, h, w, prices)
    case DarshiniOwner => DarshiniDay(name, h, prices)
    case Techie => TechieDay(v, name, h, prices, rent)
  }

  /** The richer copy's rent is charged before any affordability check: a
      techie with no cash facing a rent above the wage ends the day in
      debt, having bought nothing. */
  lemma RentCanOverdraw()
    ensures var d := TechieDay(CaffeineCrash, Name(Dev, 0),
                               Holdings(map[Code := 0.0, IdliSet := 0.0, ArtisanCoffee := 0.0], 0.0),
                               InitialPrices(CaffeineCrash), 3500.0);
            d.after.cash == -500.0 && d.log == Spent(Name(Dev, 0), false)
  {
  }

  /** A darshini owner that is short of both inputs and cannot afford to
      restock either cooks nothing and keeps its cash. */
  lemma DarshiniStarved(name: Name, h: Holdings, prices: map<Resource, real>)
    requires Rice in h.inventory && Coffee in h.inventory && IdliSet in h.inventory
    requires Rice in prices && Coffee in prices
    requires h.inventory[Rice] < 1.0 && h.inventory[Coffee] < 0.2
    requires h.cash < prices[Rice] * 10.0 && h.cash < prices[Coffee] * 5.0
    ensures DarshiniDay(name, h, prices).log == Cooked(name, 0.0)
    ensures DarshiniDay(name, h, prices).after == h
  {
  }

  class Agent {
    const variant: Variant
    const kind: AgentKind
    const name: Name
    const region: Region
    var inventory: map<Resource, real>
    var cash: real

    ghost predicate WellFormed()
      reads this`inventory
    {
      Stocked(variant, kind, inventory)
    }

    /** The agent's inventory and cash, as a value. */
    function Books(): Holdings
      reads this
    {
      Holdings(inventory, cash)
    }

    constructor InitFarmer(v: Variant, name: Name, region: Region, crop: Resource)
      ensures WellFormed() && variant == v && kind == Farmer(crop)
      ensures this.name == name && this.region == region
      ensures Books() == InitialBooks(v, kind)
    {
      variant := v;
      kind := Farmer(crop);
      this.name := name;
      this.region := region;
      inventory := map[crop := 0.0, Ragi := 10.0];
      cash := 500.0;
    }

    /** Darshinis are in Bengaluru. */
    constructor InitDarshini(v: Variant, name: Name)
      ensures WellFormed() && variant == v && kind == DarshiniOwner
      ensures this.name == name && region == Bengaluru
      ensures Books() == InitialBooks(v, kind)
    {
      variant := v;
      kind := DarshiniOwner;
      this.name := name;
      region := Bengaluru;
      inventory := map[IdliSet := 0.0, Rice := 10.0, Coffee := 5.0];
      cash := 2000.0;
    }

    /** Techies are in Bengaluru. */
    constructor InitTechie(v: Variant, name: Name)
      ensures WellFormed() && variant == v && kind == Techie
      ensures this.name == name && region == Bengaluru
      ensures Books() == InitialBooks(v, kind)
    {
      variant := v;
      kind := Techie;
      this.name := name;
      region := Bengaluru;
      inventory := map[Code := 0.0, IdliSet := 0.0, Luxury(v) := 0.0];
      cash := TechieStartCash(v);
    }

    /** `act`: one tick of this agent's policy. */
    method Act(weather: Weather, prices: map<Resource, real>, rent: real) returns (log: LogLine)
      requires WellFormed() && Priced(variant, kind, prices)
      modifies this
      ensures WellFormed()
      ensures AgentDay(Books(), log) == Day(variant, kind, name, old(Books()), weather, prices, rent)
    {
      match kind
      case Farmer(crop) =>
        log := ActAsFarmer(crop, weather, prices);
      case DarshiniOwner =>
        log := ActAsDarshini(prices);
      case Techie =>
        log := ActAsTechie(prices, rent);
    }

    method ActAsFarmer(crop: Resource, weather: Weather, prices: map<Resource, real>) returns (log: LogLine)
      requires Ragi in prices && crop in prices
      modifies this
      ensures AgentDay(Books(), log) == FarmerDay(variant, name, crop, old(Books()), weather, prices)
    {
      var yieldAmount := if weather == Sunny then 10.0 else 5.0;
      if weather == Drought {
        yieldAmount := 1.0;
      }
      Reap(crop, yieldAmount);
      EatOrBuyRagi(prices[Ragi]);
      var toSell := SellExcess(crop, prices[crop]);
      if toSell > 0.0 {
        log := Harvested(name, yieldAmount, crop, if variant == NammaMarket then Some(toSell) else None);
      } else {
        log := Harvested(name, yieldAmount, crop, None);
      }
    }

    /** Production: the harvest goes into the crop entry. */
    method Reap(crop: Resource, yieldAmount: real)
      modifies this`inventory
      ensures Books() == Harvest(old(Books()), crop, yieldAmount)
    {
      inventory := inventory[crop := Get(inventory, crop) + yieldAmount];
    }

    /** Consumption: eat one ragi, or buy one when there is none. */
    method EatOrBuyRagi(cost: real)
      modifies this
      ensures Books() == EatRagi(old(Books()), cost)
    {
      if Get(inventory, Ragi) > 0.0 {
        inventory := inventory[Ragi := inventory[Ragi] - 1.0];
      } else {
        if cash >= cost {
          cash := cash - cost;
          inventory := inventory[Ragi := Get(inventory, Ragi) + 1.0];
        }
      }
    }

    /** Sale: the crop above the buffer is sold at `price`. */
    method SellExcess(crop: Resource, price: real) returns (toSell: real)
      requires crop in inventory
      modifies this
      ensures toSell == Surplus(old(Books()), crop)
      ensures Books() == SellSurplus(old(Books()), crop, price)
    {
      toSell := Max(0.0, inventory[crop] - CropBuffer);
      if toSell > 0.0 {
        var revenue := Revenue(toSell, price);
        cash := cash + revenue;
        inventory := inventory[crop := inventory[crop] - toSell];
      }
    }

    method ActAsDarshini(prices: map<Resource, real>) returns (log: LogLine)
      requires Rice in inventory && Coffee in inventory && IdliSet in inventory
      requires Rice in prices && Coffee in prices
      modifies this
      ensures AgentDay(Books(), log) == DarshiniDay(name, old(Books()), prices)
    {
      RestockIfLow(Rice, 5.0, 10.0, prices[Rice] * 10.0);
      RestockIfLow(Coffee, 2.0, 5.0, prices[Coffee] * 5.0);
      assert Books() == Restocked(old(Books()), prices);
      var produced := CookIdli();
      log := Cooked(name, produced);
    }

    /** Buy `batch` units of `item` at total `cost` when under `low`. */
    method RestockIfLow(item: Resource, low: real, batch: real, cost: real)
      requires item in inventory
      modifies this
      ensures Books() == Restock(old(Books()), item, low, batch, cost)
    {
      if inventory[item] < low {
        if cash >= cost {
          cash := cash - cost;
          inventory := inventory[item := inventory[item] + batch];
        }
      }
    }

    /** The recipe: 1 rice and 0.2 coffee make 5 Idli sets. */
    method CookIdli() returns (produced: real)
      requires Rice in inventory && Coffee in inventory && IdliSet in inventory
      modifies this`inventory
      ensures produced == if CanCook(old(Books())) then 5.0 else 0.0
      ensures Books() == Cook(old(Books()))
    {
      produced := 0.0;
      if inventory[Rice] >= 1.0 && inventory[Coffee] >= 0.2 {
        inventory := inventory[Rice := inventory[Rice] - 1.0];
        inventory := inventory[Coffee := inventory[Coffee] - 0.2];
        produced := 5.0;
        inventory := inventory[IdliSet := inventory[IdliSet] + produced];
      }
    }

    method ActAsTechie(prices: map<Resource, real>, rent: real) returns (log: LogLine)
      requires IdliSet in inventory && Luxury(variant) in inventory
      requires IdliSet in prices && Luxury(variant) in prices
      modifies this
      ensures AgentDay(Books(), log) == TechieDay(variant, name, old(Books()), prices, rent)
    {
      cash := cash + Wage(variant);
      if HasRent(variant) {
        cash := cash - rent;
      }

      var idliPrice := prices[IdliSet];
      var boughtFood := false;
      if cash >= idliPrice {
        cash := cash - idliPrice;
        inventory := inventory[IdliSet := inventory[IdliSet] + 1.0];
        boughtFood := true;
      }

      var luxuryPrice := prices[Luxury(variant)];
      var boughtLuxury := false;
      if boughtFood && cash > SavingsTarget(variant) && cash >= luxuryPrice {
        cash := cash - luxuryPrice;
        inventory := inventory[Luxury(variant) := inventory[Luxury(variant)] + 1.0];
        boughtLuxury := true;
      }
      log := Spent(name, boughtLuxury);
    }
  }
}
