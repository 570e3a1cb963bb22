/**
 * The part of the entity registry (the Universe) that the resource systems use: one
 * table per component type, keyed by entity.
 */
module Registry {
  import opened Entities
  import opened Resource

  /** A Recipe component: what running a factory consumes and what it yields. */
  datatype Recipe = Recipe(input: ResourceMap, output: ResourceMap)

  /** The component tables that the resource systems read but never write. */
  datatype Catalog = Catalog(
    generators: map<Entity, ResourceMap>,    // ResourceGenerator
    converters: map<Entity, Entity>,         // ResourceConverter: the recipe entity
    recipes: map<Entity, Recipe>,            // Recipe
    productivities: map<Entity, real>,       // FactoryProductivity
    participants: map<Entity, Entity>)       // MarketParticipant: the market entity

  /** The component data the resource systems write: stockpiles and the Production tag. */
  datatype Ledger = Ledger(stockpiles: map<Entity, ResourceMap>, production: set<Entity>)

  class Universe {
    var stockpiles: map<Entity, ResourceMap>
    var generators: map<Entity, ResourceMap>
    var converters: map<Entity, Entity>
    var recipes: map<Entity, Recipe>
    var productivities: map<Entity, real>
    var participants: map<Entity, Entity>
    var production: set<Entity>

    function AsCatalog(): Catalog
      reads this`generators, this`converters, this`recipes, this`productivities, this`participants
    {
      Catalog(generators, converters, recipes, productivities, participants)
    }

    function AsLedger(): Ledger
      reads this`stockpiles, this`production
    {
      Ledger(stockpiles, production)
    }
  }

  /** The productivity the systems apply to `e`: its FactoryProductivity, or 1 without one. */
  function Productivity(c: Catalog, e: Entity): (p: real)
    ensures e in c.productivities ==> p == c.productivities[e]
    ensures e !in c.productivities ==> p == 1.0
  {
    if e in c.productivities then c.productivities[e] else 1.0
  }

  /** `view` lists every entity of `s` exactly once, in some order (entt's). */
  ghost predicate Enumerates(view: seq<Entity>, s: set<Entity>)
  {
    && (forall i, j | 0 <= i < j < |view| :: view[i] != view[j])
    && (forall e :: e in view <==> e in s)
  }
}
