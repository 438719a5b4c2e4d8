/**
 The slice of a scene-graph node that the demos read and write: a local
 position and a local Euler rotation, both as real-valued triples.
 */
module Geometry {

  datatype Vec3 = Vec3(x: real, y: real, z: real)

  /** Math.PI, idealised as a real. */
  const Pi: real := 3.141592653589793

  /** The zero vector: the origin, or the identity rotation. */
  const Zero := Vec3(0.0, 0.0, 0.0)

  /** Squared Euclidean length. */
  function NormSq(v: Vec3): real
  {
    v.x * v.x + v.y * v.y + v.z * v.z
  }

  /** A transform node: local offset from its parent and local rotation. */
  datatype Node = Node(position: Vec3, rotation: Vec3)

  /** Assigns `rotation.y` and leaves every other field as it was. */
  function SetRotationY(n: Node, angle: real): (r: Node)
    ensures r.position == n.position
    ensures r.rotation.x == n.rotation.x && r.rotation.z == n.rotation.z
    ensures r.rotation.y == angle
  {
    n.(rotation := n.rotation.(y := angle))
  }
}
