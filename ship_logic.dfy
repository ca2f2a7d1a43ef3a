/**
  The container ship's bookkeeping as values: where a loaded vehicle is placed, and the
  per-frame dock / depart / unload transition. The `ContainerShip` class in module
  `Transport` is proved to follow these functions; the lemmas here state what holds of
  any interleaving of ship frames and boardings.
*/
module ShipLogic {
  import opened Geometry

  /** `MaxCapacity` of ContainerShip.cs. */
  const MaxCapacity: nat := 6
  /** A ship that is not docked docks once its x is at most this value. */
  const DockX: real := 40.0
  /** `VehicleDumpLocationOnXAxis`: a departing ship unloads once its x reaches this value. */
  const DumpX: real := 60.0
  /** Ship speed, in units per second, both toward the dock and away from it. */
  const ShipSpeed: real := 5.0
  /** Distance along z between two rows of loaded vehicles. */
  const RowSpacing: real := 2.3
  /** Height above the ship's origin at which a loaded truck sits. */
  const TruckDeckHeight: real := 0.95
  /** Height above the ship's origin at which a loaded car sits. */
  const CarDeckHeight: real := 0.65

  /**
    The position `LoadVehicle` hands to the `count`-th vehicle (counting from 0) loaded onto
    a ship at `ship`: even counts go to x + 1, odd counts to x - 1, each pair shares a row
    that lies `RowSpacing` further along -z than the previous one.
  */
  function SlotPosition(ship: Vec3, count: nat, kind: VehicleType): (p: Vec3)
    ensures p.x == ship.x + 1.0 || p.x == ship.x - 1.0
    ensures p.x == ship.x + 1.0 <==> count % 2 == 0
    ensures count < MaxCapacity ==> ship.z - 3.6 <= p.z <= ship.z + 1.0
    ensures kind == Truck ==> p.y == ship.y + TruckDeckHeight
    ensures kind == Car ==> p.y == ship.y + CarDeckHeight
  {
    Vec3(ship.x - (if count % 2 == 0 then -1.0 else 1.0),
         if kind == Truck then ship.y + TruckDeckHeight else ship.y + CarDeckHeight,
         ship.z + 1.0 - ((count / 2) as real) * RowSpacing)
  }

  /** No two of the six slots of a ship overlap, whatever the vehicles' type classes. */
  lemma SlotsDistinct(ship: Vec3, m: nat, n: nat, k1: VehicleType, k2: VehicleType)
    requires m < MaxCapacity && n < MaxCapacity && m != n
    ensures SlotPosition(ship, m, k1).x != SlotPosition(ship, n, k2).x
         || SlotPosition(ship, m, k1).z != SlotPosition(ship, n, k2).z
  {
  }

  /** The layout of a full ship: three rows of two, at z + 1, z - 1.3 and z - 3.6; trucks on the upper deck, cars on the lower, for every load. */
  lemma SixSlotLayout(ship: Vec3, k: VehicleType)
    ensures SlotPosition(ship, 0, k).x == ship.x + 1.0 && SlotPosition(ship, 0, k).z == ship.z + 1.0
    ensures SlotPosition(ship, 1, k).x == ship.x - 1.0 && SlotPosition(ship, 1, k).z == ship.z + 1.0
    ensures SlotPosition(ship, 2, k).x == ship.x + 1.0 && SlotPosition(ship, 2, k).z == ship.z - 1.3
    ensures SlotPosition(ship, 3, k).x == ship.x - 1.0 && SlotPosition(ship, 3, k).z == ship.z - 1.3
    ensures SlotPosition(ship, 4, k).x == ship.x + 1.0 && SlotPosition(ship, 4, k).z == ship.z - 3.6
    ensures SlotPosition(ship, 5, k).x == ship.x - 1.0 && SlotPosition(ship, 5, k).z == ship.z - 3.6
    ensures forall n: nat :: SlotPosition(ship, n, Truck).y == ship.y + 0.95 && SlotPosition(ship, n, Car).y == ship.y + 0.65
  {
  }

  /** What a frame of the ship can see and change: its position, `isDocked` and the number of loaded vehicles. */
  datatype ShipState = ShipState(position: Vec3, docked: bool, count: nat)

  /** `IsFull`: an equality test, so a ship loaded past capacity does not count as full. */
  predicate Full(s: ShipState)
  {
    s.count == MaxCapacity
  }

  /** The condition under which both a waiting vehicle and the production tick act on a ship. */
  predicate CanBoard(s: ShipState)
  {
    s.docked && !Full(s)
  }

  /** A full ship that has left the dock. */
  predicate Departing(s: ShipState)
  {
    Full(s) && !s.docked
  }

  /** The ship after `LoadVehicle`: one more vehicle, nothing else changed. */
  function AfterLoad(s: ShipState): ShipState
  {
    s.(count := s.count + 1)
  }

  /**
    One frame of `ContainerShip.Update` with time step `dt`: first the approach step (only
    for a ship neither docked nor full), then the departure step (only for a full ship),
    which also unloads once the ship has reached `DumpX`.
  */
  function Tick(s: ShipState, dt: real): (r: ShipState)
    ensures r.position.y == s.position.y && r.position.z == s.position.z
    ensures s.docked && !Full(s) ==> r == s
    ensures !s.docked && !Full(s) ==>
              r.count == s.count && (r.docked <==> s.position.x <= DockX)
              && r.position.x == (if s.position.x <= DockX then s.position.x else s.position.x - ShipSpeed * dt)
    ensures Full(s) ==>
              !r.docked && r.position.x == s.position.x + ShipSpeed * dt
              && (r.count == 0 <==> r.position.x >= DumpX) && (r.count != 0 ==> r.count == s.count)
  {
    var approached :=
      if !s.docked && !Full(s) then
        if s.position.x <= DockX then s.(docked := true)
        else s.(position := MoveX(s.position, -ShipSpeed * dt))
      else s;
    if Full(approached) then
      var departed := approached.(docked := false, position := MoveX(approached.position, ShipSpeed * dt));
      if departed.position.x >= DumpX then departed.(count := 0) else departed
    else
      approached
  }

  /** After a frame a ship is never both docked and full: fullness forces departure on the same frame. */
  lemma TickNeverDockedWhenFull(s: ShipState, dt: real)
    ensures !(Tick(s, dt).docked && Full(Tick(s, dt)))
  {
  }

  /**
    The events that touch one ship: a frame of the ship's own `Update`, or a frame of a vehicle
    bound to it that waits beyond the pickup point and loads if the ship can take it.
  */
  datatype Event = Frame(dt: real) | Boarding

  function Step(s: ShipState, e: Event): ShipState
  {
    match e
    case Frame(dt) => Tick(s, dt)
    case Boarding => if CanBoard(s) then AfterLoad(s) else s
  }

  /** The ship after the events `es`, in order. */
  function Run(s: ShipState, es: seq<Event>): ShipState
    decreases |es|
  {
    if es == [] then s else Run(Step(s, es[0]), es[1..])
  }

  /**
    What holds of every ship the game can reach: at most `MaxCapacity` vehicles; docked only
    at the dock; and a ship that is neither docked nor full is empty, which is why the
    approach step can move the ship without moving any cargo.
  */
  predicate Inv(s: ShipState)
  {
    && s.count <= MaxCapacity
    && (s.docked ==> s.position.x <= DockX)
    && (!s.docked && !Full(s) ==> s.count == 0)
  }

  /** A freshly created ship (not docked, empty) satisfies the invariant. */
  lemma NewShipInv(p: Vec3)
    ensures Inv(ShipState(p, false, 0))
  {
  }

  lemma StepPreservesInv(s: ShipState, e: Event)
    requires Inv(s)
    ensures Inv(Step(s, e))
  {
  }

  /** Any interleaving of ship frames and boardings keeps the invariant, hence `count <= 6`. */
  lemma {:induction false} RunPreservesInv(s: ShipState, es: seq<Event>)
    requires Inv(s)
    ensures Inv(Run(s, es))
    decreases |es|
  {
    if es != [] {
      StepPreservesInv(s, es[0]);
      RunPreservesInv(Step(s, es[0]), es[1..]);
    }
  }

  /** `Run` over a concatenation is `Run` over each part in turn. */
  lemma {:induction false} RunAppend(s: ShipState, a: seq<Event>, b: seq<Event>)
    ensures Run(s, a + b) == Run(Run(s, a), b)
    decreases |a|
  {
    if a == [] {
      assert a + b == b;
    } else {
      assert (a + b)[0] == a[0];
      assert (a + b)[1..] == a[1..] + b;
      RunAppend(Step(s, a[0]), a[1..], b);
    }
  }

  /**
    A departing ship stays departing (full and not docked) under any events until it has been
    unloaded: either it is still departing at the end, or some prefix of the events emptied it.
  */
  lemma {:induction false} DepartingUntilUnloaded(s: ShipState, es: seq<Event>)
    requires Departing(s)
    ensures Departing(Run(s, es)) || exists k :: 0 < k <= |es| && Run(s, es[..k]).count == 0
    decreases |es|
  {
    if es != [] {
      var s1 := Step(s, es[0]);
      assert Run(s, es[..1]) == s1 by {
        assert es[..1][0] == es[0] && es[..1][1..] == [];
      }
      if s1.count == 0 {
      } else {
        assert Departing(s1);
        DepartingUntilUnloaded(s1, es[1..]);
        if !Departing(Run(s1, es[1..])) {
          var k :| 0 < k <= |es[1..]| && Run(s1, es[1..][..k]).count == 0;
          assert es[..k + 1][0] == es[0] && es[..k + 1][1..] == es[1..][..k];
          assert Run(s, es[..k + 1]).count == 0;
        }
      }
    }
  }

  /** `n` frames of the ship's `Update`, each with time step `dt`. */
  function Frames(dt: real, n: nat): (es: seq<Event>)
    ensures |es| == n
  {
    if n == 0 then [] else [Frame(dt)] + Frames(dt, n - 1)
  }

  /** `k` successive boardings. */
  function Boardings(k: nat): (es: seq<Event>)
    ensures |es| == k
  {
    if k == 0 then [] else [Boarding] + Boardings(k - 1)
  }

  /** Frames alone never refill an empty ship. */
  lemma {:induction false} FramesKeepEmpty(s: ShipState, dt: real, n: nat)
    requires s.count == 0
    ensures Run(s, Frames(dt, n)).count == 0
    decreases n
  {
    if n > 0 {
      assert Frames(dt, n)[0] == Frame(dt) && Frames(dt, n)[1..] == Frames(dt, n - 1);
      FramesKeepEmpty(Tick(s, dt), dt, n - 1);
    }
  }

  /**
    A full ship whose departure at `ShipSpeed` covers the distance to `DumpX` within `n >= 1`
    frames of length `dt` is empty after those frames.
  */
  lemma {:induction false} FullShipUnloads(s: ShipState, dt: real, n: nat)
    requires Full(s) && dt > 0.0 && n >= 1
    requires s.position.x + ShipSpeed * dt * (n as real) >= DumpX
    ensures Run(s, Frames(dt, n)).count == 0
    decreases n
  {
    var s1 := Tick(s, dt);
    assert Frames(dt, n)[0] == Frame(dt) && Frames(dt, n)[1..] == Frames(dt, n - 1);
    if s1.count == 0 {
      FramesKeepEmpty(s1, dt, n - 1);
    } else {
      assert s1.position.x < DumpX;
      assert n >= 2 by {
        if n == 1 {
          assert false;
        }
      }
      assert s1.position.x + ShipSpeed * dt * ((n - 1) as real) == s.position.x + ShipSpeed * dt * (n as real);
      FullShipUnloads(s1, dt, n - 1);
    }
  }

  /** A docked ship with room for `k` more vehicles takes all `k` boardings and stays docked. */
  lemma {:induction false} BoardingsWhileDocked(s: ShipState, k: nat)
    requires s.docked && s.count + k <= MaxCapacity
    ensures Run(s, Boardings(k)) == s.(count := s.count + k)
    decreases k
  {
    if k > 0 {
      assert Boardings(k)[0] == Boarding && Boardings(k)[1..] == Boardings(k - 1);
      assert CanBoard(s);
      BoardingsWhileDocked(AfterLoad(s), k - 1);
    }
  }

  /**
    The whole cycle: six vehicles board a docked, empty ship, which is then full and still
    docked; the next frame undocks it and moves it by `ShipSpeed * dt`; frames that cover the
    distance to `DumpX` leave it empty.
  */
  lemma FullCycle(s: ShipState, dt: real, n: nat)
    requires s.docked && s.count == 0 && dt > 0.0 && n >= 1
    requires s.position.x + ShipSpeed * dt * (n as real) >= DumpX
    ensures Run(s, Boardings(MaxCapacity)) == s.(count := MaxCapacity)
    ensures Departing(Tick(s.(count := MaxCapacity), dt)) || Tick(s.(count := MaxCapacity), dt).count == 0
    ensures Tick(s.(count := MaxCapacity), dt).position.x == s.position.x + ShipSpeed * dt
    ensures Run(s, Boardings(MaxCapacity) + Frames(dt, n)).count == 0
  {
    BoardingsWhileDocked(s, MaxCapacity);
    RunAppend(s, Boardings(MaxCapacity), Frames(dt, n));
    FullShipUnloads(s.(count := MaxCapacity), dt, n);
  }
}
