/** A geometry provider, reduced to the interface `draw` consumes. Its buffers
    are not modelled: each bind request is recorded on the device, and the
    answers are the fixed `Geometry` it was built with. */
module Drawable {
  import opened Gl

  /** What a geometry provider answers: whether it has a position and a
      normal stream, its topology and its element count. */
  datatype Geometry = Geometry(hasPos: bool, hasNor: bool, mode: int, count: int)

  class Drawable {
    const geometry: Geometry

    constructor (geometry: Geometry)
      ensures this.geometry == geometry
    {
      this.geometry := geometry;
    }

    /** Make the position stream current; reports whether there is one. */
    method BindPos(dev: Device) returns (present: bool)
      requires dev.Valid()
      modifies dev
      ensures dev.Valid() && present == geometry.hasPos
      ensures dev.log == old(dev.log) + [BindStream(PositionStream)]
      ensures dev.enabled == old(dev.enabled) && dev.activeProgram == old(dev.activeProgram)
      ensures dev.nextHandle == old(dev.nextHandle)
    {
      dev.Send(BindStream(PositionStream));
      present := geometry.hasPos;
    }

    /** Make the normal stream current; reports whether there is one. */
    method BindNor(dev: Device) returns (present: bool)
      requires dev.Valid()
      modifies dev
      ensures dev.Valid() && present == geometry.hasNor
      ensures dev.log == old(dev.log) + [BindStream(NormalStream)]
      ensures dev.enabled == old(dev.enabled) && dev.activeProgram == old(dev.activeProgram)
      ensures dev.nextHandle == old(dev.nextHandle)
    {
      dev.Send(BindStream(NormalStream));
      present := geometry.hasNor;
    }

    /** Make the index stream current. */
    method BindIdx(dev: Device)
      requires dev.Valid()
      modifies dev
      ensures dev.Valid()
      ensures dev.log == old(dev.log) + [BindStream(IndexStream)]
      ensures dev.enabled == old(dev.enabled) && dev.activeProgram == old(dev.activeProgram)
      ensures dev.nextHandle == old(dev.nextHandle)
    {
      dev.Send(BindStream(IndexStream));
    }
  }
}
