/** The two glm vector types the core uses, with float components read as reals. */
module Glm {
  /** glm::vec3. */
  datatype Vec3 = Vec3(x: real, y: real, z: real)

  /** glm::vec2. */
  datatype Vec2 = Vec2(x: real, y: real)

  /** `a + b` on glm::vec3: component by component. */
  function Plus(a: Vec3, b: Vec3): (r: Vec3)
    ensures r.x == a.x + b.x && r.y == a.y + b.y && r.z == a.z + b.z
  {
    Vec3(a.x + b.x, a.y + b.y, a.z + b.z)
  }
}
