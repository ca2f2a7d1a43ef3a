/**
  The two objects that move every frame: a `Vehicle` drives toward the pickup point and
  boards its ship, a `ContainerShip` docks, departs when full and unloads. They reference
  each other (a vehicle knows its ship, a ship lists its loaded vehicles), so they share a
  module.
*/
module Transport {
  import opened Geometry
  import opened ShipLogic

  /** `ContainerShipPickupLocationOnXAxis`: a vehicle drives until its x exceeds this value. */
  const PickupX: real := 33.5

  class Vehicle {
    /** The type class a concrete vehicle (car or truck) reports. */
    const kind: VehicleType
    /** `MovementSpeed`, fixed by the concrete vehicle. */
    const movementSpeed: real
    /** The ship the vehicle is to board; bound by the factory that creates it. */
    var containerShip: ContainerShip?
    var position: Vec3
    /** Rotation about the vertical axis, in quarter turns. */
    var quarterTurns: int
    /** `_isOnContainerShip`: set once, when the vehicle boards. */
    var isOnContainerShip: bool
    /** Set when the ship unloads the vehicle (the engine's `Destroy`). */
    var destroyed: bool

    /** A vehicle as instantiated from a template: unbound, unboarded, unrotated. */
    constructor (kind: VehicleType, movementSpeed: real, position: Vec3)
      ensures this.kind == kind && this.movementSpeed == movementSpeed && this.position == position
      ensures containerShip == null && quarterTurns == 0 && !isOnContainerShip && !destroyed
    {
      this.kind := kind;
      this.movementSpeed := movementSpeed;
      this.position := position;
      containerShip := null;
      quarterTurns := 0;
      isOnContainerShip := false;
      destroyed := false;
    }

    /**
      One frame of the vehicle. Not yet boarded and at or before the pickup point: drive
      `movementSpeed * dt` along x. Beyond it: board if the ship is docked and not full
      (take the slot `LoadVehicle` returns, turn a quarter, become boarded), otherwise wait.
      A boarded vehicle does nothing. The engine stops calling `Update` on a destroyed vehicle.
    */
    method Update(dt: real)
      requires !destroyed
      requires containerShip != null && containerShip.Valid()
      modifies this, containerShip
      ensures containerShip == old(containerShip) && containerShip.Valid()
      ensures destroyed == old(destroyed)
      ensures old(isOnContainerShip) ==> isOnContainerShip
      ensures isOnContainerShip && !old(isOnContainerShip) ==> old(CanBoard(containerShip.View()))
      ensures old(isOnContainerShip) ==> unchanged(this) && unchanged(containerShip)
      ensures !old(isOnContainerShip) && old(position.x) <= PickupX ==>
                && position == MoveX(old(position), movementSpeed * dt)
                && quarterTurns == old(quarterTurns) && !isOnContainerShip
                && unchanged(containerShip)
      ensures !old(isOnContainerShip) && old(position.x) > PickupX && !old(CanBoard(containerShip.View())) ==>
                unchanged(this) && unchanged(containerShip)
      ensures !old(isOnContainerShip) && old(position.x) > PickupX && old(CanBoard(containerShip.View())) ==>
                && isOnContainerShip
                && position == SlotPosition(containerShip.position, old(|containerShip.loaded|), kind)
                && quarterTurns == old(quarterTurns) + 1
                && containerShip.loaded == old(containerShip.loaded) + [this]
                && containerShip.View() == AfterLoad(old(containerShip.View()))
                && containerShip.position == old(containerShip.position)
                && containerShip.quarterTurns == old(containerShip.quarterTurns)
    {
      if !isOnContainerShip {
        if position.x <= PickupX {
          position := MoveX(position, movementSpeed * dt);
        } else {
          var ship := containerShip;
          if ship.isDocked && !ship.IsFull() {
            assert this !in ship.loaded;
            var loadPosition := ship.LoadVehicle(this);
            position := loadPosition;
            quarterTurns := quarterTurns + 1;
            isOnContainerShip := true;
          }
        }
      }
    }
  }

  class ContainerShip {
    var position: Vec3
    /** Rotation about the vertical axis, in quarter turns. */
    var quarterTurns: int
    /** `_loadedVehicles`, in load order. */
    var loaded: seq<Vehicle>
    var isDocked: bool

    /** A ship as instantiated from its template: not docked, nothing loaded. */
    constructor (position: Vec3, quarterTurns: int)
      ensures this.position == position && this.quarterTurns == quarterTurns
      ensures loaded == [] && !isDocked
      ensures Valid()
    {
      this.position := position;
      this.quarterTurns := quarterTurns;
      loaded := [];
      isDocked := false;
    }

    /**
      The ship's object invariant: its abstract state satisfies `ShipLogic.Inv` (so at most six
      vehicles), no vehicle is listed twice, and every listed vehicle has boarded, is alive and
      is bound to this ship, so no vehicle is in the hold of two ships.
    */
    ghost predicate Valid()
      reads this, loaded
    {
      && Inv(View())
      && (forall i, j :: 0 <= i < j < |loaded| ==> loaded[i] != loaded[j])
      && (forall v :: v in loaded ==> v.isOnContainerShip && !v.destroyed && v.containerShip == this)
    }

    /** The holds of two valid ships are disjoint: a boarded vehicle belongs to one ship only. */
    lemma HoldsDisjoint(other: ContainerShip)
      requires Valid() && other.Valid() && other != this
      ensures forall v :: v in loaded ==> v !in other.loaded
    {
    }

    /** The ship as `ShipLogic` sees it. */
    function View(): ShipState
      reads this
    {
      ShipState(position, isDocked, |loaded|)
    }

    /** `IsFull`: exactly six vehicles are loaded. */
    predicate IsFull()
      reads this
      ensures IsFull() <==> Full(View())
    {
      MaxCapacity == |loaded|
    }

    /**
      Appends `vehicle` and returns the slot it is to take, computed from the number of
      vehicles loaded before it. The ship does not check its capacity here: `count <= 6`
      holds only because every caller loads a ship that is not full.
    */
    method LoadVehicle(vehicle: Vehicle) returns (slot: Vec3)
      modifies this`loaded
      ensures loaded == old(loaded) + [vehicle]
      ensures slot == SlotPosition(position, |old(loaded)|, vehicle.kind)
      ensures View() == AfterLoad(old(View()))
    {
      slot := SlotPosition(position, |loaded|, vehicle.kind);
      loaded := loaded + [vehicle];
    }

    /**
      One frame of the ship with time step `dt`, following `ShipLogic.Tick`. While full it
      moves its cargo with it by the same `ShipSpeed * dt`; once it has reached `DumpX` it
      destroys every loaded vehicle and empties its list.
    */
    method Update(dt: real)
      requires Valid()
      modifies this, loaded
      ensures Valid()
      ensures View() == Tick(old(View()), dt)
      ensures quarterTurns == old(quarterTurns)
      ensures loaded == old(loaded) || loaded == []
      ensures !old(IsFull()) ==> loaded == old(loaded) && forall v :: v in old(loaded) ==> unchanged(v)
      ensures old(IsFull()) ==>
                forall i :: 0 <= i < |old(loaded)| ==>
                  old(loaded)[i].position == MoveX(old(loaded[i].position), ShipSpeed * dt)
      ensures old(IsFull()) && loaded == [] ==> forall v :: v in old(loaded) ==> v.destroyed
      ensures forall v :: v in old(loaded) ==>
                && v.containerShip == old(v.containerShip) && v.quarterTurns == old(v.quarterTurns)
                && v.isOnContainerShip == old(v.isOnContainerShip)
    {
      if !isDocked && !IsFull() {
        if position.x <= DockX {
          isDocked := true;
        } else {
          position := MoveX(position, -ShipSpeed * dt);
        }
      }

      if IsFull() {
        var delta := ShipSpeed * dt;
        isDocked := false;
        position := MoveX(position, delta);
        for i := 0 to |loaded|
          invariant loaded == old(loaded) && isDocked == false && position == old(MoveX(position, delta))
          invariant quarterTurns == old(quarterTurns)
          invariant forall j :: 0 <= j < i ==> loaded[j].position == MoveX(old(loaded[j].position), delta)
          invariant forall j :: i <= j < |loaded| ==> loaded[j].position == old(loaded[j].position)
          invariant forall v :: v in loaded ==>
                      && v.containerShip == old(v.containerShip) && v.quarterTurns == old(v.quarterTurns)
                      && v.isOnContainerShip == old(v.isOnContainerShip) && v.destroyed == old(v.destroyed)
        {
          var v := loaded[i];
          v.position := MoveX(v.position, delta);
        }

        if position.x >= DumpX {
          for i := 0 to |loaded|
            invariant loaded == old(loaded) && isDocked == false && position == old(MoveX(position, delta))
            invariant quarterTurns == old(quarterTurns)
            invariant forall j :: 0 <= j < |loaded| ==> loaded[j].position == MoveX(old(loaded[j].position), delta)
            invariant forall j :: 0 <= j < i ==> loaded[j].destroyed
            invariant forall v :: v in loaded ==>
                        && v.containerShip == old(v.containerShip) && v.quarterTurns == old(v.quarterTurns)
                        && v.isOnContainerShip == old(v.isOnContainerShip)
          {
            loaded[i].destroyed := true;
          }
          loaded := [];
        }
      }
    }
  }
}
