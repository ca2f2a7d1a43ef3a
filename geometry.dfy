/**
  Positions and vehicle type classes shared by every component.

  The game works with single-precision vectors; here every coordinate is an exact `real`,
  so the constants 2.3, 0.95, 0.65 and 33.5 are exact. Orientation is reduced to a count of
  quarter turns about the vertical axis, and every translation the core performs is along
  the world x axis (+x toward the unload boundary, -x toward the dock).
*/
module Geometry {

  datatype Vec3 = Vec3(x: real, y: real, z: real)

  /** `p` translated by `dx` along the x axis. */
  function MoveX(p: Vec3, dx: real): Vec3
  {
    p.(x := p.x + dx)
  }

  /** The type class a vehicle reports through `GetVehicleType`. */
  datatype VehicleType = Car | Truck
}
