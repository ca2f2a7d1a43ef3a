/**
  The orchestrator: a table of three building slots, each holding a factory building and
  the container ship paired with it. Assigning a factory family to a slot creates the pair on
  first use and swaps the factory component afterwards; the production tick asks every slot
  whose ship can take a vehicle to spawn one.
*/
module Orchestration {
  import opened Geometry
  import opened Wrappers
  import opened Engine
  import opened Transport
  import opened Factories

  const MaxNumberOfFactoryBuildings: nat := 3
  const FactoryBuildingTemplateName: string := "Factory"
  const ContainerShipTemplateName: string := "ContainerShip"
  /** Where new buildings stand: x and y; z depends on the slot. */
  const BuildingX: real := 16.0
  const BuildingY: real := 1.5
  /** Where new ships appear: x, and how far below their building. */
  const ShipX: real := 70.0
  const ShipDrop: real := 2.0

  /** The z at which the building of slot `buildingIndex` stands, or `None` for an invalid index. */
  function ZOffset(buildingIndex: int): (z: Option<int>)
    ensures z.Some? <==> 0 <= buildingIndex < MaxNumberOfFactoryBuildings
    ensures z.Some? ==> z.value == 48 - 14 * buildingIndex
  {
    match buildingIndex
    case 0 => Some(48)
    case 1 => Some(34)
    case 2 => Some(20)
    case _ => None
  }

  /** The factory family a caption names, or `None` when it names neither. */
  function FamilyOf(factoryType: string): (f: Option<Family>)
    ensures f == Some(CarFamily) <==> factoryType == "CarFactory"
    ensures f == Some(TruckFamily) <==> factoryType == "TruckFactory"
  {
    if factoryType == "CarFactory" then Some(CarFamily)
    else if factoryType == "TruckFactory" then Some(TruckFamily)
    else None
  }

  /** The speed token for a draw of `Random.Range(0, 2)`. */
  function SpeedToken(draw: int): (token: string)
    ensures token == "Fast" || token == "Slow"
    ensures token == "Fast" <==> draw == 0
  {
    if draw == 0 then "Fast" else "Slow"
  }

  class Client {
    /** `_factoryBuildings`: slot i's building, or null while the slot is unassigned. */
    const factoryBuildings: array<FactoryBuilding?>
    /** `_containerShips`: slot i's ship, or null. */
    const containerShips: array<ContainerShip?>

    /** The client at start: every slot empty. */
    constructor ()
      ensures Valid() && fresh(factoryBuildings) && fresh(containerShips)
      ensures forall i :: 0 <= i < MaxNumberOfFactoryBuildings ==> factoryBuildings[i] == null && containerShips[i] == null
    {
      factoryBuildings := new FactoryBuilding?[MaxNumberOfFactoryBuildings](_ => null);
      containerShips := new ContainerShip?[MaxNumberOfFactoryBuildings](_ => null);
    }

    ghost function Buildings(): set<FactoryBuilding>
      reads this, factoryBuildings
    {
      set i | 0 <= i < factoryBuildings.Length && factoryBuildings[i] != null :: factoryBuildings[i]
    }

    ghost function Ships(): set<ContainerShip>
      reads this, containerShips
    {
      set i | 0 <= i < containerShips.Length && containerShips[i] != null :: containerShips[i]
    }

    ghost function Factories(): set<VehicleFactory>
      reads this, factoryBuildings, Buildings()
    {
      set b | b in Buildings() && b.factory != null :: b.factory
    }

    /**
      The slot table's invariant: three slots; no building in two slots; a slot has a ship only
      if it has a building; each building stands at its slot's place; and an attached factory is
      bound to exactly its slot's building and ship.
    */
    ghost predicate Valid()
      reads this, factoryBuildings, containerShips, Buildings(), Factories()
    {
      && factoryBuildings.Length == MaxNumberOfFactoryBuildings
      && containerShips.Length == MaxNumberOfFactoryBuildings
      && (forall i, j :: 0 <= i < j < MaxNumberOfFactoryBuildings && factoryBuildings[i] != null ==>
            factoryBuildings[i] != factoryBuildings[j])
      && (forall i :: 0 <= i < MaxNumberOfFactoryBuildings && factoryBuildings[i] == null ==> containerShips[i] == null)
      && (forall i :: 0 <= i < MaxNumberOfFactoryBuildings && factoryBuildings[i] != null ==>
            factoryBuildings[i].position == Vec3(BuildingX, BuildingY, (48 - 14 * i) as real))
      && (forall i :: 0 <= i < MaxNumberOfFactoryBuildings && factoryBuildings[i] != null && factoryBuildings[i].factory != null ==>
            && factoryBuildings[i].factory.factoryBuilding == factoryBuildings[i]
            && factoryBuildings[i].factory.containerShip == containerShips[i])
    }

    /** Slot `i` has a factory and a ship, and that ship is docked and not full. */
    ghost predicate Eligible(i: int)
      requires 0 <= i < factoryBuildings.Length && i < containerShips.Length
      reads this, factoryBuildings, containerShips, Buildings(), Ships()
    {
      && factoryBuildings[i] != null && factoryBuildings[i].factory != null
      && containerShips[i] != null && containerShips[i].isDocked && !containerShips[i].IsFull()
    }

    /** The eligible slots below `n`. */
    ghost function EligibleSlots(n: nat): set<int>
      requires n <= factoryBuildings.Length && n <= containerShips.Length
      reads this, factoryBuildings, containerShips, Buildings(), Ships()
    {
      set i | 0 <= i < n && Eligible(i)
    }

    /**
      The production tick. Each slot, in order, spawns at most one vehicle, and only when it is
      eligible; the speed token for slot i comes from `draws[i]`. A template that cannot be
      resolved aborts the tick after the slots before it. Nothing that exists already changes:
      in particular, with no docked ship the tick spawns nothing and changes nothing.
    */
    method ProduceVehicles(draws: seq<int>, resources: Resources) returns (r: Outcome<Error>, spawned: map<int, Vehicle>)
      requires Valid()
      requires |draws| == MaxNumberOfFactoryBuildings
      ensures forall i :: i in spawned ==> 0 <= i < MaxNumberOfFactoryBuildings && Eligible(i)
      ensures r.Pass? ==> spawned.Keys == EligibleSlots(MaxNumberOfFactoryBuildings)
      ensures r.Fail? ==>
                exists k :: 0 <= k < MaxNumberOfFactoryBuildings && Eligible(k) && spawned.Keys == EligibleSlots(k)
                  && TemplateFor(factoryBuildings[k].factory.family, SpeedToken(draws[k])) !in resources
                  && r.error == TemplateNotFound(TemplateFor(factoryBuildings[k].factory.family, SpeedToken(draws[k])))
      ensures forall i :: i in spawned ==>
                && fresh(spawned[i])
                && Spawned(spawned[i], factoryBuildings[i].factory.family, factoryBuildings[i].position,
                           containerShips[i], SpeedToken(draws[i]), resources)
      ensures forall i, j :: i in spawned && j in spawned && i != j ==> spawned[i] != spawned[j]
    {
      r := Pass;
      spawned := map[];
      for i := 0 to MaxNumberOfFactoryBuildings
        invariant spawned.Keys == EligibleSlots(i)
        invariant forall j :: j in spawned ==>
                    && fresh(spawned[j])
                    && Spawned(spawned[j], factoryBuildings[j].factory.family, factoryBuildings[j].position,
                               containerShips[j], SpeedToken(draws[j]), resources)
        invariant forall j, k :: j in spawned && k in spawned && j != k ==> spawned[j] != spawned[k]
      {
        var building := factoryBuildings[i];
        if building == null {
          continue;
        }
        var factory := building.factory;
        if factory == null {
          continue;
        }
        var ship := containerShips[i];
        if ship == null || !ship.isDocked || ship.IsFull() {
          continue;
        }
        var token := SpeedToken(draws[i]);
        var created := factory.CreateVehicleInstance(token, resources);
        if created.Failure? {
          r := Fail(created.error);
          assert spawned.Keys == EligibleSlots(i);
          return;
        }
        spawned := spawned[i := created.value];
      }
    }

    /** `CreateFactoryBuilding`: a new building at (16, 1.5, z), or an error when its template is missing. */
    method CreateFactoryBuilding(z: int, resources: Resources) returns (r: Result<FactoryBuilding, Error>)
      ensures FactoryBuildingTemplateName !in resources ==> r == Failure(TemplateNotFound(FactoryBuildingTemplateName))
      ensures FactoryBuildingTemplateName in resources ==>
                && r.Success? && fresh(r.value)
                && r.value.position == Vec3(BuildingX, BuildingY, z as real)
                && r.value.factory == null && r.value.active
    {
      if FactoryBuildingTemplateName !in resources {
        return Failure(TemplateNotFound(FactoryBuildingTemplateName));
      }
      var building := new FactoryBuilding(Vec3(BuildingX, BuildingY, z as real));
      return Success(building);
    }

    /**
      `CreateContainerShip`: a new ship at x = 70, two units below `building`, at the building's
      z, turned a quarter; or an error when its template is missing.
    */
    method CreateContainerShip(building: FactoryBuilding, resources: Resources) returns (r: Result<ContainerShip, Error>)
      ensures ContainerShipTemplateName !in resources ==> r == Failure(TemplateNotFound(ContainerShipTemplateName))
      ensures ContainerShipTemplateName in resources ==>
                && r.Success? && fresh(r.value)
                && r.value.position == Vec3(ShipX, building.position.y - ShipDrop, building.position.z)
                && r.value.quarterTurns == 1
                && r.value.loaded == [] && !r.value.isDocked && r.value.Valid()
    {
      if ContainerShipTemplateName !in resources {
        return Failure(TemplateNotFound(ContainerShipTemplateName));
      }
      var p := building.position;
      var ship := new ContainerShip(Vec3(ShipX, p.y - ShipDrop, p.z), 0);
      ship.quarterTurns := ship.quarterTurns + 1;
      return Success(ship);
    }

    /**
      `AssignFactoryToBuilding`: installs a factory of the family `factoryType` names in slot
      `buildingIndex`. An invalid index fails before the table is touched. The slot's building
      and ship are created only if the slot has no building; otherwise they are reused. The old
      factory is removed (with the building deactivated) before the family is checked, so an
      invalid family leaves the slot inactive and without a factory. A new factory is bound to
      this slot's building and ship. No other slot changes.
    */
    method AssignFactoryToBuilding(buildingIndex: int, factoryType: string, resources: Resources) returns (r: Outcome<Error>)
      requires Valid()
      modifies factoryBuildings, containerShips, Buildings()
      ensures Valid()
      ensures ZOffset(buildingIndex).None? ==>
                r == Fail(InvalidBuildingIndex) && unchanged(factoryBuildings, containerShips) && unchanged(old(Buildings()))
      ensures forall j :: 0 <= j < MaxNumberOfFactoryBuildings && j != buildingIndex ==>
                && factoryBuildings[j] == old(factoryBuildings[j]) && containerShips[j] == old(containerShips[j])
                && (factoryBuildings[j] != null ==> unchanged(factoryBuildings[j]))
      ensures 0 <= buildingIndex < MaxNumberOfFactoryBuildings && old(factoryBuildings[buildingIndex]) != null ==>
                && factoryBuildings[buildingIndex] == old(factoryBuildings[buildingIndex])
                && containerShips[buildingIndex] == old(containerShips[buildingIndex])
      ensures 0 <= buildingIndex < MaxNumberOfFactoryBuildings && old(factoryBuildings[buildingIndex]) == null ==>
                if FactoryBuildingTemplateName !in resources then
                  && r == Fail(TemplateNotFound(FactoryBuildingTemplateName))
                  && factoryBuildings[buildingIndex] == null && containerShips[buildingIndex] == null
                else
                  && factoryBuildings[buildingIndex] != null && fresh(factoryBuildings[buildingIndex])
                  && factoryBuildings[buildingIndex].position == Vec3(BuildingX, BuildingY, (48 - 14 * buildingIndex) as real)
                  && if ContainerShipTemplateName !in resources then
                       && r == Fail(TemplateNotFound(ContainerShipTemplateName))
                       && containerShips[buildingIndex] == null
                       && factoryBuildings[buildingIndex].factory == null && factoryBuildings[buildingIndex].active
                     else
                       var ship := containerShips[buildingIndex];
                       && ship != null && fresh(ship)
                       && ship.position == Vec3(ShipX, BuildingY - ShipDrop, (48 - 14 * buildingIndex) as real)
                       && ship.quarterTurns == 1 && ship.loaded == [] && !ship.isDocked && ship.Valid()
      ensures 0 <= buildingIndex < MaxNumberOfFactoryBuildings
              && (old(factoryBuildings[buildingIndex]) != null
                  || (FactoryBuildingTemplateName in resources && ContainerShipTemplateName in resources)) ==>
                var building := factoryBuildings[buildingIndex];
                && building != null
                && (FamilyOf(factoryType).None? ==>
                      r == Fail(InvalidFactoryType) && building.factory == null && !building.active)
                && (FamilyOf(factoryType).Some? ==>
                      && r == Pass && building.active
                      && building.factory != null && fresh(building.factory)
                      && building.factory.family == FamilyOf(factoryType).value
                      && building.factory.factoryBuilding == building
                      && building.factory.containerShip == containerShips[buildingIndex])
    {
      var zOffset := ZOffset(buildingIndex);
      if zOffset.None? {
        return Fail(InvalidBuildingIndex);
      }
      var z := zOffset.value;

      if factoryBuildings[buildingIndex] == null {
        var newBuilding := CreateFactoryBuilding(z, resources);
        if newBuilding.Failure? {
          return Fail(newBuilding.error);
        }
        factoryBuildings[buildingIndex] := newBuilding.value;
        var newShip := CreateContainerShip(newBuilding.value, resources);
        if newShip.Failure? {
          return Fail(newShip.error);
        }
        containerShips[buildingIndex] := newShip.value;
      }

      var building := factoryBuildings[buildingIndex];
      var ship := containerShips[buildingIndex];
      r := InstallFactory(building, ship, factoryType);
    }

    /**
      The second half of `AssignFactoryToBuilding`: deactivates `building`, removes its factory,
      and, if `factoryType` names a family, attaches a new factory of that family bound to
      `building` and `ship` and reactivates the building.
    */
    method InstallFactory(building: FactoryBuilding, ship: ContainerShip?, factoryType: string) returns (r: Outcome<Error>)
      modifies building
      ensures FamilyOf(factoryType).None? ==> r == Fail(InvalidFactoryType) && building.factory == null && !building.active
      ensures FamilyOf(factoryType).Some? ==>
                && r == Pass && building.active
                && building.factory != null && fresh(building.factory)
                && building.factory.family == FamilyOf(factoryType).value
                && building.factory.factoryBuilding == building
                && building.factory.containerShip == ship
    {
      building.active := false;
      building.factory := null;

      var family := FamilyOf(factoryType);
      if family.None? {
        return Fail(InvalidFactoryType);
      }
      var factory := new VehicleFactory(family.value);
      factory.containerShip := ship;
      factory.factoryBuilding := building;
      building.factory := factory;

      building.active := true;
      return Pass;
    }
  }
}
