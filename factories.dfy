/**
  Factory buildings and the vehicle factories attached to them. A factory belongs to one of
  two families (cars or trucks); creating a vehicle dispatches on the family, places the
  vehicle below its building and binds it to the factory's ship.
*/
module Factories {
  import opened Geometry
  import opened Wrappers
  import opened Engine
  import opened Transport
  import CarFactory
  import TruckFactory

  /** The concrete `VehicleFactory` subclass: `CarFactory` or `TruckFactory`. */
  datatype Family = CarFamily | TruckFamily

  /** The type class of every vehicle a factory of `family` creates. */
  function KindOf(family: Family): VehicleType
  {
    match family
    case CarFamily => Car
    case TruckFamily => Truck
  }

  /** The template a factory of `family` resolves for `token` (the family's own `CreateVehicle` choice). */
  function TemplateFor(family: Family, token: string): string
  {
    match family
    case CarFamily => CarFactory.TemplateName(token)
    case TruckFamily => TruckFactory.TemplateName(token)
  }

  /** Height of a new vehicle below its building, before the type-class lift is added back. */
  const SpawnDrop: real := 2.0
  const CarSpawnLift: real := 0.4
  const TruckSpawnLift: real := 0.66

  /**
    `GetFactorySpawnPosition`: a new vehicle appears at its building's x and z, below the
    building, at a height that depends on its type class.
  */
  function SpawnPosition(building: Vec3, kind: VehicleType): (p: Vec3)
    ensures p.x == building.x && p.z == building.z
    ensures building.y - SpawnDrop < p.y < building.y
  {
    Vec3(building.x, building.y - SpawnDrop + (if kind == Car then CarSpawnLift else TruckSpawnLift), building.z)
  }

  /** Trucks appear 0.26 higher than cars, at y - 1.34 against y - 1.6. */
  lemma TrucksSpawnHigher(building: Vec3)
    ensures SpawnPosition(building, Car).y == building.y - 1.6
    ensures SpawnPosition(building, Truck).y == building.y - 1.34
    ensures SpawnPosition(building, Truck).y - SpawnPosition(building, Car).y == 0.26
  {
  }

  /**
    `v` is what a factory of `family` standing at `building` and bound to `ship` produces
    for `token`: the resolved template's vehicle of the family's type class, placed at
    the spawn position, bound to `ship`, not boarded.
  */
  ghost predicate Spawned(v: Vehicle, family: Family, building: Vec3, ship: ContainerShip?, token: string, resources: Resources)
    reads v
  {
    var name := TemplateFor(family, token);
    && name in resources
    && v.kind == KindOf(family)
    && v.movementSpeed == resources[name].movementSpeed
    && v.containerShip == ship
    && v.position == SpawnPosition(building, v.kind)
    && v.quarterTurns == 0 && !v.isOnContainerShip && !v.destroyed
  }

  /** A factory building, the game object a `VehicleFactory` is attached to. */
  class FactoryBuilding {
    const position: Vec3
    /** The attached `VehicleFactory` component, if any. */
    var factory: VehicleFactory?
    /** Whether the game object is active. */
    var active: bool

    /** A building as instantiated from its template: active, with no factory attached. */
    constructor (position: Vec3)
      ensures this.position == position && factory == null && active
    {
      this.position := position;
      factory := null;
      active := true;
    }
  }

  class VehicleFactory {
    const family: Family
    /** `factoryBuildingTransform` */
    var factoryBuilding: FactoryBuilding?
    /** `containerShipTransform` */
    var containerShip: ContainerShip?

    /** A factory component as added to a building, before it is bound. */
    constructor (family: Family)
      ensures this.family == family && factoryBuilding == null && containerShip == null
    {
      this.family := family;
      factoryBuilding := null;
      containerShip := null;
    }

    /**
      `CreateVehicleInstance`: asks the family's `CreateVehicle` for a vehicle with the token
      passed through unchanged, then binds it to this factory's ship and moves it to the spawn
      position. Fails, creating nothing, when the family's template cannot be resolved. Only
      the new vehicle is changed; the factory and everything else stay as they were.
    */
    method CreateVehicleInstance(token: string, resources: Resources) returns (r: Result<Vehicle, Error>)
      requires factoryBuilding != null
      ensures TemplateFor(family, token) !in resources ==> r == Failure(TemplateNotFound(TemplateFor(family, token)))
      ensures TemplateFor(family, token) in resources ==>
                r.Success? && fresh(r.value) && Spawned(r.value, family, factoryBuilding.position, containerShip, token, resources)
    {
      var created: Result<Vehicle, Error>;
      if family == CarFamily {
        created := CarFactory.CreateVehicle(token, resources);
      } else {
        created := TruckFactory.CreateVehicle(token, resources);
      }
      if created.Failure? {
        return Failure(created.error);
      }
      var vehicle := created.value;
      vehicle.containerShip := containerShip;
      vehicle.position := SpawnPosition(factoryBuilding.position, vehicle.kind);
      return Success(vehicle);
    }
  }
}
