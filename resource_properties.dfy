/**
 * What the resource systems promise, stated over the specification functions that the
 * system methods are proved to implement.
 */
module ResourceProperties {
  import opened Entities
  import opened Resource
  import opened Registry
  import opened ResourceSystems

  /** The generation credit of `e`, read at one good. */
  lemma GenerationCreditAt(c: Catalog, e: Entity, interval: real, g: Good)
    requires e in c.generators
    ensures Amount(GenerationCredit(c, e, interval), g)
              == Amount(c.generators[e], g) * Productivity(c, e) * interval
  {
  }

  /** The production credit of `e`, read at one good. */
  lemma ProductionCreditAt(c: Catalog, e: Entity, interval: real, g: Good)
    requires e in c.converters && c.converters[e] in c.recipes
    ensures Amount(ProductionCredit(c, e, interval), g)
              == Amount(c.recipes[c.converters[e]].output, g) * Productivity(c, e) * interval
  {
  }

  /** The consumption debit of `e`, read at one good. */
  lemma DebitAt(c: Catalog, e: Entity, interval: real, g: Good)
    requires e in c.converters && c.converters[e] in c.recipes
    ensures Amount(ConsumptionDebit(c, e, interval), g)
              == Amount(c.recipes[c.converters[e]].input, g) * Productivity(c, e) * interval
  {
  }

  /** Generation credits exactly generator * productivity * Interval() per good, with no cap. */
  lemma GenerationExact(c: Catalog, l: Ledger, interval: real, e: Entity, g: Good)
    requires e in l.stockpiles
    ensures e in Generate(c, l, interval).stockpiles
    ensures e in c.generators ==>
      Amount(Generate(c, l, interval).stockpiles[e], g)
        == Amount(l.stockpiles[e], g) + Amount(c.generators[e], g) * Productivity(c, e) * interval
    ensures e !in c.generators ==> Generate(c, l, interval).stockpiles[e] == l.stockpiles[e]
  {
    if e in c.generators {
      var credit := GenerationCredit(c, e, interval);
      assert Amount(credit, g) == Amount(c.generators[e], g) * Productivity(c, e) * interval by {
        GenerationCreditAt(c, e, interval, g);
      }
      assert Generate(c, l, interval).stockpiles[e] == Add(l.stockpiles[e], credit);
      assert Amount(Add(l.stockpiles[e], credit), g) == Amount(l.stockpiles[e], g) + Amount(credit, g);
    }
  }

  /** Without a FactoryProductivity component every system applies the factor 1. */
  lemma MissingProductivityIsOne(c: Catalog, e: Entity, interval: real)
    requires e !in c.productivities
    ensures e in c.generators ==> GenerationCredit(c, e, interval) == Scale(c.generators[e], interval)
    ensures e in c.converters && c.converters[e] in c.recipes ==>
      && ProductionCredit(c, e, interval) == Scale(c.recipes[c.converters[e]].output, interval)
      && ConsumptionDebit(c, e, interval) == Scale(c.recipes[c.converters[e]].input, interval)
  {
    forall m: ResourceMap ensures Scale(Scale(m, 1.0), interval) == Scale(m, interval) {
      var once := Scale(m, 1.0);
      var twice := Scale(once, interval);
      var direct := Scale(m, interval);
      assert twice.Keys == direct.Keys;
      forall g | g in twice ensures twice[g] == direct[g] {
        assert Amount(once, g) == Amount(m, g) * 1.0;
        assert Amount(twice, g) == Amount(once, g) * interval;
        assert Amount(direct, g) == Amount(m, g) * interval;
      }
    }
  }

  /** The registry after `n` consecutive generation passes. */
  function GenerateTicks(c: Catalog, l: Ledger, interval: real, n: nat): (r: Ledger)
    ensures r.stockpiles.Keys == l.stockpiles.Keys
    decreases n
  {
    if n == 0 then l else Generate(c, GenerateTicks(c, l, interval, n - 1), interval)
  }

  /** Generator rates, productivities and the interval are all non-negative. */
  predicate NonNegativeRates(c: Catalog, interval: real)
  {
    && interval >= 0.0
    && (forall e | e in c.productivities :: c.productivities[e] >= 0.0)
    && (forall e, g | e in c.generators && g in c.generators[e] :: c.generators[e][g] >= 0.0)
  }

  lemma ProductNonNegative(a: real, b: real, k: real)
    requires a >= 0.0 && b >= 0.0 && k >= 0.0
    ensures a * b * k >= 0.0
  {
    assert a * b >= 0.0;
  }

  /** With non-negative rates, one generation pass never decreases any good of any stockpile. */
  lemma GenerationStepMonotone(c: Catalog, l: Ledger, interval: real, e: Entity, g: Good)
    requires NonNegativeRates(c, interval)
    requires e in l.stockpiles
    ensures e in Generate(c, l, interval).stockpiles
    ensures Amount(Generate(c, l, interval).stockpiles[e], g) >= Amount(l.stockpiles[e], g)
  {
    GenerationExact(c, l, interval, e, g);
    if e in c.generators {
      var rate, p := Amount(c.generators[e], g), Productivity(c, e);
      assert rate >= 0.0 by {
        if g in c.generators[e] {
          assert c.generators[e][g] >= 0.0;
        }
      }
      assert p >= 0.0;
      ProductNonNegative(rate, p, interval);
    }
  }

  /** With non-negative rates, repeated generation never decreases any good of any stockpile. */
  lemma {:induction false} GenerationMonotone(c: Catalog, l: Ledger, interval: real, n: nat, e: Entity, g: Good)
    requires NonNegativeRates(c, interval)
    requires e in l.stockpiles
    ensures e in GenerateTicks(c, l, interval, n).stockpiles
    ensures Amount(GenerateTicks(c, l, interval, n).stockpiles[e], g) >= Amount(l.stockpiles[e], g)
    decreases n
  {
    if n > 0 {
      GenerationMonotone(c, l, interval, n - 1, e, g);
      GenerationStepMonotone(c, GenerateTicks(c, l, interval, n - 1), interval, e, g);
    }
  }

  /** Production credits a tagged factory by exactly recipe.output * productivity * Interval(), and no one else. */
  lemma ProductionExact(c: Catalog, l: Ledger, interval: real, e: Entity, g: Good)
    requires RecipesResolve(c, l)
    requires e in l.stockpiles
    ensures e in Produce(c, l, interval).stockpiles
    ensures e in l.production && e in c.converters ==>
      Amount(Produce(c, l, interval).stockpiles[e], g)
        == Amount(l.stockpiles[e], g) + Amount(c.recipes[c.converters[e]].output, g) * Productivity(c, e) * interval
    ensures !(e in l.production && e in c.converters) ==> Produce(c, l, interval).stockpiles[e] == l.stockpiles[e]
  {
    if e in l.production && e in c.converters {
      var credit := ProductionCredit(c, e, interval);
      assert Amount(credit, g) == Amount(c.recipes[c.converters[e]].output, g) * Productivity(c, e) * interval by {
        ProductionCreditAt(c, e, interval, g);
      }
      assert Produce(c, l, interval).stockpiles[e] == Add(l.stockpiles[e], credit);
      assert Amount(Add(l.stockpiles[e], credit), g) == Amount(l.stockpiles[e], g) + Amount(credit, g);
    }
  }

  /**
   * The gate of one consumption step: when the market compares greater, the entity is tagged
   * (whether or not it was before) and only the market's stockpile changes, falling by exactly
   * recipe.input * productivity * Interval(); otherwise nothing changes, and a tag already
   * present stays.
   */
  lemma ConsumptionGate(c: Catalog, l: Ledger, e: Entity, interval: real,
                        greater: (ResourceMap, ResourceMap) -> bool, g: Good)
    requires CanConsume(c, l.stockpiles, e)
    ensures var market := c.participants[e];
            var r := ConsumeOne(c, l, e, interval, greater);
            if greater(l.stockpiles[market], l.stockpiles[e]) then
              && r.production == l.production + {e}
              && Amount(r.stockpiles[market], g)
                   == Amount(l.stockpiles[market], g) - Amount(c.recipes[c.converters[e]].input, g) * Productivity(c, e) * interval
              && (forall x | x in l.stockpiles && x != market :: r.stockpiles[x] == l.stockpiles[x])
            else
              r == l
  {
    var market := c.participants[e];
    if greater(l.stockpiles[market], l.stockpiles[e]) {
      var r := ConsumeOne(c, l, e, interval, greater);
      var debit := ConsumptionDebit(c, e, interval);
      var after := Sub(l.stockpiles[market], debit);
      assert r.stockpiles == l.stockpiles[market := after];
      assert Amount(after, g) == Amount(l.stockpiles[market], g) - Amount(debit, g);
      assert Amount(debit, g) == Amount(c.recipes[c.converters[e]].input, g) * Productivity(c, e) * interval by {
        DebitAt(c, e, interval, g);
      }
    }
  }

  /**
   * The gate compares the market against the consumer's own stockpile, not against the
   * debit: with `>` read as StrictlyGreater, a market holding 1 unit passes the gate of a
   * consumer holding none, pays a recipe input of 10, and is left at -9.
   */
  lemma GateAdmitsOverdraw()
    ensures var c := Catalog(map[], map[1 := 7], map[7 := Recipe(map[0 := 10.0], map[])], map[], map[1 := 2]);
            var l := Ledger(map[1 := map[0 := 0.0], 2 := map[0 := 1.0]], {});
            && CanConsume(c, l.stockpiles, 1)
            && StrictlyGreater(l.stockpiles[2], l.stockpiles[1])
            && 1 in ConsumeOne(c, l, 1, 1.0, StrictlyGreater).production
            && Amount(ConsumeOne(c, l, 1, 1.0, StrictlyGreater).stockpiles[2], 0) < 0.0
  {
    var c := Catalog(map[], map[1 := 7], map[7 := Recipe(map[0 := 10.0], map[])], map[], map[1 := 2]);
    var l := Ledger(map[1 := map[0 := 0.0], 2 := map[0 := 1.0]], {});
    assert StrictlyGreater(l.stockpiles[2], l.stockpiles[1]) by {
      assert l.stockpiles[2].Keys + l.stockpiles[1].Keys == {0};
    }
    var debit := ConsumptionDebit(c, 1, 1.0);
    assert Amount(debit, 0) == 10.0 * 1.0 * 1.0;
  }

  /** Later steps of the consumption loop never remove a tag and never tag anyone but themselves. */
  lemma {:induction false} TagAfterTurn(c: Catalog, l: Ledger, view: seq<Entity>, interval: real,
                                        greater: (ResourceMap, ResourceMap) -> bool, k: nat, j: nat)
    requires forall e | e in view :: CanConsume(c, l.stockpiles, e)
    requires forall i, i' | 0 <= i < i' < |view| :: view[i] != view[i']
    requires k < j <= |view|
    ensures (view[k] in Consume(c, l, view[..j], interval, greater).production)
        <==> (view[k] in Consume(c, l, view[..k + 1], interval, greater).production)
    decreases j
  {
    if j > k + 1 {
      var i := j - 1;
      TagAfterTurn(c, l, view, interval, greater, k, i);
      ConsumeStepKeepsTags(c, l, view, interval, greater, i, view[k]);
      assert i + 1 == j;
    }
  }

  /**
   * An untagged consumer ends the pass tagged exactly when the gate held at its own turn,
   * that is, against the stockpiles left by the consumers before it.
   */
  lemma ConsumptionTagIff(c: Catalog, l: Ledger, view: seq<Entity>, interval: real,
                          greater: (ResourceMap, ResourceMap) -> bool, k: nat)
    requires forall e | e in view :: CanConsume(c, l.stockpiles, e)
    requires forall i, i' | 0 <= i < i' < |view| :: view[i] != view[i']
    requires k < |view| && view[k] !in l.production
    ensures CanConsume(c, Consume(c, l, view[..k], interval, greater).stockpiles, view[k])
    ensures var before := Consume(c, l, view[..k], interval, greater);
            (view[k] in Consume(c, l, view, interval, greater).production)
              <==> greater(before.stockpiles[c.participants[view[k]]], before.stockpiles[view[k]])
  {
    var before := Consume(c, l, view[..k], interval, greater);
    assert view[k] in view;
    assert view[..k + 1][..k] == view[..k];
    assert view[k] !in before.production;
    TagAfterTurn(c, l, view, interval, greater, k, |view|);
    assert view[..|view|] == view;
  }

  /** One simulation tick: generation, then production, then consumption. */
  function Tick(c: Catalog, l: Ledger, consumers: seq<Entity>, interval: real,
                greater: (ResourceMap, ResourceMap) -> bool): (r: Ledger)
    requires RecipesResolve(c, l)
    requires forall e | e in consumers :: CanConsume(c, l.stockpiles, e)
    ensures r.stockpiles.Keys == l.stockpiles.Keys
    ensures RecipesResolve(c, r)
  {
    var produced := Produce(c, Generate(c, l, interval), interval);
    assert forall e | e in consumers :: CanConsume(c, produced.stockpiles, e) by {
      forall e | e in consumers ensures CanConsume(c, produced.stockpiles, e) {
        assert CanConsume(c, l.stockpiles, e);
      }
    }
    Consume(c, produced, consumers, interval, greater)
  }

  /**
   * The Production tag, set by consumption and read by the next tick's production: a
   * factory that is untagged when a tick starts gets no output in that tick; if the tick's
   * consumption tagged it, the next tick credits it with exactly recipe.output *
   * productivity * Interval(). The factory has no generator and is nobody's market, so
   * nothing else touches its stockpile.
   */
  lemma TwoTickLatency(c: Catalog, l: Ledger, consumers: seq<Entity>, interval: real,
                       greater: (ResourceMap, ResourceMap) -> bool, e: Entity)
    requires RecipesResolve(c, l)
    requires forall x | x in consumers :: CanConsume(c, l.stockpiles, x)
    requires e in consumers && e !in l.production && e !in c.generators
    requires NotAMarketOf(c, consumers, e)
    ensures var l1 := Tick(c, l, consumers, interval, greater);
            && l1.stockpiles[e] == l.stockpiles[e]
            && (e in l1.production ==>
                  Tick(c, l1, consumers, interval, greater).stockpiles[e]
                    == Add(l.stockpiles[e], ProductionCredit(c, e, interval)))
  {
    var l1 := Tick(c, l, consumers, interval, greater);
    assert CanConsume(c, l.stockpiles, e);
    var p1 := Produce(c, Generate(c, l1, interval), interval);
    assert forall x | x in consumers :: CanConsume(c, p1.stockpiles, x) by {
      forall x | x in consumers ensures CanConsume(c, p1.stockpiles, x) {
        assert CanConsume(c, l.stockpiles, x);
      }
    }
  }
}
