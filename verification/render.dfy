/** The THREE.js side: meshes with a pose, a material, shadow flags and the
    `userData.physicsBody` back-reference, made explicit as a body index. */
module Render {

  import opened Options
  import opened Geometry

  /** A Phong material by colour, or the basic material THREE substitutes
      when a mesh is built with `undefined` for its material. */
  datatype Material = Phong(color: nat) | DefaultBasic

  datatype MeshGeometry =
    | BoxGeometry(width: real, height: real, depth: real)
    | SphereGeometry(radius: real, widthSegments: nat, heightSegments: nat)

  datatype RenderObject = RenderObject(
    geometry: MeshGeometry,
    material: Material,
    position: Vec3,
    quaternion: Quat,
    physicsBody: Option<nat>,
    castShadow: bool,
    receiveShadow: bool)

  /** `new THREE.Mesh(geometry, material)` followed by `position.copy(pos)`
      and `quaternion.copy(quat)`: no body yet, no shadows. */
  function NewMesh(geometry: MeshGeometry, material: Material, pos: Vec3, quat: Quat): (o: RenderObject)
    ensures o.position == pos && o.quaternion == quat
    ensures o.physicsBody == None && !o.castShadow && !o.receiveShadow
  {
    RenderObject(geometry, material, pos, quat, None, false, false)
  }

  /** The render object after its pose has been overwritten with `t`. */
  function Posed(o: RenderObject, t: Transform): RenderObject
  {
    o.(position := t.origin, quaternion := t.rotation)
  }
}
