/**
 * Resource maps: a quantity per good. The operators of common/components/resource.h
 * are not part of this model; they are written out here under the assumption that a
 * map behaves like a std::map read through operator[], so a missing good counts as 0.
 */
module Resource {
  import opened Entities

  type Good = Entity
  type ResourceMap = map<Good, real>

  /** The quantity of `g` in `m`; a good that is not present counts as 0. */
  function Amount(m: ResourceMap, g: Good): real
  {
    if g in m then m[g] else 0.0
  }

  /** `m += n`: every good of either map, quantities added. */
  function Add(m: ResourceMap, n: ResourceMap): (r: ResourceMap)
    ensures r.Keys == m.Keys + n.Keys
    ensures forall g :: Amount(r, g) == Amount(m, g) + Amount(n, g)
  {
    map g | g in m.Keys + n.Keys :: Amount(m, g) + Amount(n, g)
  }

  /** `m -= n`: every good of either map, quantities subtracted. */
  function Sub(m: ResourceMap, n: ResourceMap): (r: ResourceMap)
    ensures r.Keys == m.Keys + n.Keys
    ensures forall g :: Amount(r, g) == Amount(m, g) - Amount(n, g)
  {
    map g | g in m.Keys + n.Keys :: Amount(m, g) - Amount(n, g)
  }

  /** `m * k`: the same goods, every quantity multiplied by `k`. */
  function Scale(m: ResourceMap, k: real): (r: ResourceMap)
    ensures r.Keys == m.Keys
    ensures forall g :: Amount(r, g) == Amount(m, g) * k
  {
    map g | g in m :: m[g] * k
  }

  /**
   * One reading of `m > n`, the element-wise one: strictly more of every good that either
   * map mentions. The consumption system takes `>` as a parameter; this definition is used
   * only to state what the gate admits.
   */
  predicate StrictlyGreater(m: ResourceMap, n: ResourceMap)
  {
    forall g | g in m.Keys + n.Keys :: Amount(m, g) > Amount(n, g)
  }
}
