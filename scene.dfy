/** The scene objects the core creates and moves. Everything about them except their name,
    their geometry data and their `position.z` belongs to the rendering engine. */
module Scene {
  import opened RingPath

  /** Geometry data an object was built from: a plain group, an extrusion of a shape by a
      depth, or a line through a position array. */
  datatype Geometry = Group | Extruded(shape: seq<PathCmd>, depth: real) | Line(positions: seq<real>)

  class Obj {
    const name: string
    const geometry: Geometry
    var z: real

    constructor (name: string, geometry: Geometry, z: real)
      ensures this.name == name && this.geometry == geometry && this.z == z
    {
      this.name := name;
      this.geometry := geometry;
      this.z := z;
    }
  }
}
