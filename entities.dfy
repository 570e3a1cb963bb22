/** Entity identifiers of the entt registry, and an optional value. */
module Entities {
  /** An entt entity. Goods, recipes and markets are entities too. */
  type Entity = nat

  datatype Option<T> = None | Some(value: T)
}
