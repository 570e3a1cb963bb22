/**
 * The three per-tick resource systems: generation, factory production and factory
 * consumption. Each runs once over a registry view; the view is passed in as the
 * sequence of matching entities, and Interval() (the simulated time per tick) as
 * `interval`. The comparison `market_stockpile > resource_stockpile` is passed in as
 * `greater`, because the operator's definition is not part of this model.
 */
module ResourceSystems {
  import opened Entities
  import opened Resource
  import opened Registry
  import opened Seqs

  /** The quantities after two scalings, as in `rates * productivity * Interval()`. */
  lemma ScaledAmounts(m: ResourceMap, p: real, k: real)
    ensures forall g :: Amount(Scale(Scale(m, p), k), g) == Amount(m, g) * p * k
  {
    forall g ensures Amount(Scale(Scale(m, p), k), g) == Amount(m, g) * p * k {
      assert Amount(Scale(Scale(m, p), k), g) == Amount(Scale(m, p), g) * k;
    }
  }

  // ---------------------------------------------------------------------------
  // SysResourceGen

  /** What SysResourceGen adds to the stockpile of `e`: generator * productivity * Interval(). */
  function GenerationCredit(c: Catalog, e: Entity, interval: real): (r: ResourceMap)
    requires e in c.generators
    ensures forall g :: Amount(r, g) == Amount(c.generators[e], g) * Productivity(c, e) * interval
  {
    ScaledAmounts(c.generators[e], Productivity(c, e), interval);
    Scale(Scale(c.generators[e], Productivity(c, e)), interval)
  }

  /** The registry after SysResourceGen: every entity with a generator and a stockpile is credited. */
  function Generate(c: Catalog, l: Ledger, interval: real): (r: Ledger)
    ensures r.stockpiles.Keys == l.stockpiles.Keys && r.production == l.production
  {
    Ledger(
      map e | e in l.stockpiles ::
        if e in c.generators then Add(l.stockpiles[e], GenerationCredit(c, e, interval))
        else l.stockpiles[e],
      l.production)
  }

  /** The credit of every generator, keyed by entity. */
  ghost function GenerationCredits(c: Catalog, interval: real): (r: map<Entity, ResourceMap>)
    ensures r.Keys == c.generators.Keys
  {
    map e | e in c.generators :: GenerationCredit(c, e, interval)
  }

  /**
   * The stockpiles part way through a crediting loop: every entity already visited (in
   * `done`) that has a credit has received it, and every other stockpile is as it was.
   */
  ghost function CreditedOn(s: map<Entity, ResourceMap>, credits: map<Entity, ResourceMap>, done: seq<Entity>): (r: map<Entity, ResourceMap>)
    ensures r.Keys == s.Keys
  {
    map e | e in s :: if e in credits && e in done then Add(s[e], credits[e]) else s[e]
  }

  /** Visiting one more entity of a view without repeats credits that entity, and only it. */
  lemma CreditStep(s: map<Entity, ResourceMap>, credits: map<Entity, ResourceMap>, view: seq<Entity>, i: nat)
    requires i < |view| && view[i] in s && view[i] in credits
    requires forall a, b | 0 <= a < b < |view| :: view[a] != view[b]
    ensures CreditedOn(s, credits, view[..i])[view[i]] == s[view[i]]
    ensures CreditedOn(s, credits, view[..i + 1])
         == CreditedOn(s, credits, view[..i])[view[i] := Add(s[view[i]], credits[view[i]])]
  {
    var x := view[i];
    var before, after := CreditedOn(s, credits, view[..i]), CreditedOn(s, credits, view[..i + 1]);
    assert x !in view[..i];
    TakeOneMore(view, i);
    forall e | e in s
      ensures after[e] == before[x := Add(s[x], credits[x])][e]
    {
      assert (e in view[..i] + [x]) <==> (e in view[..i] || e == x);
    }
  }

  method SysResourceGen(u: Universe, view: seq<Entity>, interval: real)
    requires Enumerates(view, u.generators.Keys * u.stockpiles.Keys)
    modifies u`stockpiles
    ensures u.AsLedger() == Generate(u.AsCatalog(), old(u.AsLedger()), interval)
  {
    ghost var c := u.AsCatalog();
    ghost var before := u.stockpiles;
    ghost var credits := GenerationCredits(c, interval);
    for i := 0 to |view|
      invariant u.stockpiles == CreditedOn(before, credits, view[..i])
    {
      var entity := view[i];
      assert entity in view;
      var productivity := 1.0;
      if entity in u.productivities {
        productivity := u.productivities[entity];
      }
      assert productivity == Productivity(c, entity);
      var credit := Scale(Scale(u.generators[entity], productivity), interval);
      assert credit == credits[entity];
      CreditStep(before, credits, view, i);
      u.stockpiles := u.stockpiles[entity := Add(u.stockpiles[entity], credit)];
    }
    assert view[..|view|] == view;
    GenerateCredits(c, old(u.AsLedger()), view, interval);
  }

  /** Crediting every generator that has a stockpile is Generate. */
  lemma GenerateCredits(c: Catalog, l: Ledger, view: seq<Entity>, interval: real)
    requires forall e | e in l.stockpiles && e in c.generators :: e in view
    ensures CreditedOn(l.stockpiles, GenerationCredits(c, interval), view) == Generate(c, l, interval).stockpiles
  {
  }

  // ---------------------------------------------------------------------------
  // SysFactoryResourceProduction

  /** Every tagged factory's recipe resolves (the registry lookup of line 44 succeeds). */
  predicate RecipesResolve(c: Catalog, l: Ledger)
  {
    forall e | e in l.production && e in c.converters && e in l.stockpiles :: c.converters[e] in c.recipes
  }

  /** What production adds to the stockpile of `e`: recipe.output * productivity * Interval(). */
  function ProductionCredit(c: Catalog, e: Entity, interval: real): (r: ResourceMap)
    requires e in c.converters && c.converters[e] in c.recipes
    ensures forall g :: Amount(r, g) == Amount(c.recipes[c.converters[e]].output, g) * Productivity(c, e) * interval
  {
    ScaledAmounts(c.recipes[c.converters[e]].output, Productivity(c, e), interval);
    Scale(Scale(c.recipes[c.converters[e]].output, Productivity(c, e)), interval)
  }

  /** The registry after SysFactoryResourceProduction: each tagged factory with a stockpile is credited. */
  function Produce(c: Catalog, l: Ledger, interval: real): (r: Ledger)
    requires RecipesResolve(c, l)
    ensures r.stockpiles.Keys == l.stockpiles.Keys && r.production == l.production
  {
    Ledger(
      map e | e in l.stockpiles ::
        if e in l.production && e in c.converters then Add(l.stockpiles[e], ProductionCredit(c, e, interval))
        else l.stockpiles[e],
      l.production)
  }

  /** The credit of every tagged converter whose recipe resolves, keyed by entity. */
  ghost function ProductionCredits(c: Catalog, tagged: set<Entity>, interval: real): (r: map<Entity, ResourceMap>)
    ensures r.Keys == set e | e in tagged && e in c.converters && c.converters[e] in c.recipes
  {
    map e | e in tagged && e in c.converters && c.converters[e] in c.recipes :: ProductionCredit(c, e, interval)
  }

  method SysFactoryResourceProduction(u: Universe, view: seq<Entity>, interval: real)
    requires Enumerates(view, u.production * u.converters.Keys * u.stockpiles.Keys)
    requires RecipesResolve(u.AsCatalog(), u.AsLedger())
    modifies u`stockpiles
    ensures u.AsLedger() == Produce(u.AsCatalog(), old(u.AsLedger()), interval)
  {
    ghost var c := u.AsCatalog();
    ghost var before := u.stockpiles;
    ghost var credits := ProductionCredits(c, u.production, interval);
    for i := 0 to |view|
      invariant u.stockpiles == CreditedOn(before, credits, view[..i])
    {
      var entity := view[i];
      assert entity in view;
      var recipe := u.recipes[u.converters[entity]];
      var productivity := 1.0;
      if entity in u.productivities {
        productivity := u.productivities[entity];
      }
      assert productivity == Productivity(c, entity);
      var credit := Scale(Scale(recipe.output, productivity), interval);
      assert credit == credits[entity];
      CreditStep(before, credits, view, i);
      u.stockpiles := u.stockpiles[entity := Add(u.stockpiles[entity], credit)];
    }
    assert view[..|view|] == view;
    ProduceCredits(c, old(u.AsLedger()), view, interval);
  }

  /** Crediting every tagged converter that has a stockpile is Produce. */
  lemma ProduceCredits(c: Catalog, l: Ledger, view: seq<Entity>, interval: real)
    requires RecipesResolve(c, l)
    requires forall e | e in l.stockpiles && e in l.production && e in c.converters :: e in view
    ensures CreditedOn(l.stockpiles, ProductionCredits(c, l.production, interval), view) == Produce(c, l, interval).stockpiles
  {
  }

  // ---------------------------------------------------------------------------
  // SysFactoryResourceConsumption

  /** The lookups of lines 64-77 succeed for `e`: converter, recipe, stockpile, market and its stockpile. */
  predicate CanConsume(c: Catalog, stockpiles: map<Entity, ResourceMap>, e: Entity)
  {
    && e in stockpiles
    && e in c.converters && c.converters[e] in c.recipes
    && e in c.participants && c.participants[e] in stockpiles
  }

  /** What a successful gate takes from the market: recipe.input * productivity * Interval(). */
  function ConsumptionDebit(c: Catalog, e: Entity, interval: real): (r: ResourceMap)
    requires e in c.converters && c.converters[e] in c.recipes
    ensures forall g :: Amount(r, g) == Amount(c.recipes[c.converters[e]].input, g) * Productivity(c, e) * interval
  {
    ScaledAmounts(c.recipes[c.converters[e]].input, Productivity(c, e), interval);
    Scale(Scale(c.recipes[c.converters[e]].input, Productivity(c, e)), interval)
  }

  /** One iteration of the consumption loop, for entity `e`. */
  function ConsumeOne(c: Catalog, l: Ledger, e: Entity, interval: real,
                      greater: (ResourceMap, ResourceMap) -> bool): (r: Ledger)
    requires CanConsume(c, l.stockpiles, e)
    ensures r.stockpiles.Keys == l.stockpiles.Keys
    ensures r.production == l.production || r.production == l.production + {e}
  {
    var market := c.participants[e];
    if greater(l.stockpiles[market], l.stockpiles[e]) then
      Ledger(l.stockpiles[market := Sub(l.stockpiles[market], ConsumptionDebit(c, e, interval))],
             l.production + {e})
    else
      l
  }

  /** No consumer in `view` buys from market `x`. */
  predicate NotAMarketOf(c: Catalog, view: seq<Entity>, x: Entity)
  {
    forall e | e in view && e in c.participants :: c.participants[e] != x
  }

  /**
   * The registry after the consumption loop has visited `view` in order: later
   * entities see the debits of earlier ones on a shared market.
   */
  function Consume(c: Catalog, l: Ledger, view: seq<Entity>, interval: real,
                   greater: (ResourceMap, ResourceMap) -> bool): (r: Ledger)
    requires forall e | e in view :: CanConsume(c, l.stockpiles, e)
    ensures r.stockpiles.Keys == l.stockpiles.Keys
    ensures l.production <= r.production
    ensures forall x | x in r.production :: x in l.production || x in view
    ensures forall x | x in l.stockpiles && NotAMarketOf(c, view, x) :: r.stockpiles[x] == l.stockpiles[x]
    decreases |view|
  {
    if view == [] then l
    else
      var prefix := view[..|view| - 1];
      assert forall e | e in prefix :: e in view;
      var last := view[|view| - 1];
      assert last in view;
      var before := Consume(c, l, prefix, interval, greater);
      assert CanConsume(c, l.stockpiles, last);
      assert last in before.stockpiles.Keys && c.participants[last] in before.stockpiles.Keys;
      ConsumeOne(c, before, last, interval, greater)
  }

  /** The pass over `view[..i + 1]` is the pass over `view[..i]` followed by the turn of `view[i]`. */
  lemma ConsumeStep(c: Catalog, l: Ledger, view: seq<Entity>, interval: real,
                    greater: (ResourceMap, ResourceMap) -> bool, i: nat)
    requires forall e | e in view :: CanConsume(c, l.stockpiles, e)
    requires i < |view|
    ensures forall e | e in view[..i] :: CanConsume(c, l.stockpiles, e)
    ensures CanConsume(c, Consume(c, l, view[..i], interval, greater).stockpiles, view[i])
    ensures Consume(c, l, view[..i + 1], interval, greater)
         == ConsumeOne(c, Consume(c, l, view[..i], interval, greater), view[i], interval, greater)
  {
    assert view[i] in view;
    assert view[..i + 1][..i] == view[..i];
    assert forall e | e in view[..i + 1] :: e in view;
  }

  /** The turn of `view[i]` adds no tag but its own and removes none. */
  lemma ConsumeStepKeepsTags(c: Catalog, l: Ledger, view: seq<Entity>, interval: real,
                             greater: (ResourceMap, ResourceMap) -> bool, i: nat, x: Entity)
    requires forall e | e in view :: CanConsume(c, l.stockpiles, e)
    requires i < |view| && x != view[i]
    ensures forall e | e in view[..i] :: CanConsume(c, l.stockpiles, e)
    ensures forall e | e in view[..i + 1] :: CanConsume(c, l.stockpiles, e)
    ensures (x in Consume(c, l, view[..i + 1], interval, greater).production)
        <==> (x in Consume(c, l, view[..i], interval, greater).production)
  {
    ConsumeStep(c, l, view, interval, greater, i);
    assert forall e | e in view[..i + 1] :: e in view;
  }

  method SysFactoryResourceConsumption(u: Universe, view: seq<Entity>, interval: real,
                                       greater: (ResourceMap, ResourceMap) -> bool)
    requires Enumerates(view, u.converters.Keys * u.stockpiles.Keys * u.participants.Keys)
    requires forall e | e in view :: CanConsume(u.AsCatalog(), u.stockpiles, e)
    modifies u`stockpiles, u`production
    ensures u.AsLedger() == Consume(u.AsCatalog(), old(u.AsLedger()), view, interval, greater)
  {
    ghost var c := u.AsCatalog();
    ghost var before := u.AsLedger();
    for i := 0 to |view|
      invariant u.stockpiles.Keys == before.stockpiles.Keys
      invariant u.AsLedger() == Consume(c, before, view[..i], interval, greater)
    {
      var entity := view[i];
      ConsumeStep(c, before, view, interval, greater, i);
      var recipe := u.recipes[u.converters[entity]];
      var productivity := 1.0;
      if entity in u.productivities {
        productivity := u.productivities[entity];
      }
      var market := u.participants[entity];
      if greater(u.stockpiles[market], u.stockpiles[entity]) {
        u.production := u.production + {entity};
        u.stockpiles := u.stockpiles[market := Sub(u.stockpiles[market], Scale(Scale(recipe.input, productivity), interval))];
      }
    }
    assert view[..|view|] == view;
  }
}
