# Container-ship logistics loop — a Dafny model

This project models the per-frame bookkeeping of a small Unity logistics game. Factories
standing in three building slots produce cars and trucks. Each vehicle drives along x to a
pickup point (x = 33.5) and waits there. It boards its slot's container ship when that ship
is docked and not full. The ship approaches from x = 70 and docks once x ≤ 40. It takes at
most six vehicles in three rows of two. When full it leaves the dock and carries its cargo
along +x. At x ≥ 60 it destroys every loaded vehicle and empties its hold, then heads back
to dock.

The model is split like the scripts:

- `ship_logic.dfy` (module `ShipLogic`) describes the ship as a value, `ShipState(position, docked, count)`. It defines the slot layout (`SlotPosition`), one frame of the ship (`Tick`) and a load (`AfterLoad`). `Run` plays any interleaving of ship frames and boardings. The lemmas state what holds of every such run: the capacity bound and the docking invariant, departure that lasts until unloading, and unloading within a given number of frames.
- `transport.dfy` (module `Transport`) holds the classes `Vehicle` and `ContainerShip`, whose `Update` methods change fields in place. `ContainerShip.Update` is proved to follow `ShipLogic.Tick` and to move every loaded vehicle by the same `5 * dt`. `Vehicle.Update` is proved to board only a docked, non-full ship, to keep the ship's invariant, and never to reset its boarded flag.
- `car_factory.dfy` / `truck_factory.dfy` (modules `CarFactory`, `TruckFactory`) map a speed token to a template name and instantiate it, or fail naming the template.
- `factories.dfy` (module `Factories`) holds the classes `FactoryBuilding` and `VehicleFactory`, plus the spawn position. `VehicleFactory.CreateVehicleInstance` dispatches on the factory's family, because the abstract `CreateVehicle` becomes a tag.
- `client.dfy` (module `Orchestration`) holds class `Client`. Its two 3-entry arrays are the slot table. It has the assignment operation and the production tick.
- `geometry.dfy`, `engine.dfy`, `wrappers.dfy` hold shared types: `Vec3` over `real`, vehicle type classes, templates and errors, and `Option`/`Result`/`Outcome`.

How the engine is modelled:
- `Time.deltaTime` is a `real` parameter `dt`.
- `Resources.Load` is a lookup in a `map<string, Template>`.
- `Instantiate` is `new`, so every instance is a fresh object.
- `Destroy` of a vehicle sets its `destroyed` flag. Removing a factory component sets the building's `factory` field to null.
- `SetActive` is the building's `active` flag.
- Rotation is a count of quarter turns.
- The local-space `Translate` calls are translations along world x. Ships and loaded vehicles are turned a quarter, so their local forward is +x.
- `Random.Range(0, 2)` is a parameter `draws` with one draw per slot.
- The dropdowns are the `buildingIndex` and `factoryType` parameters.
- `GetVehicleType` is the constant field `Vehicle.kind`.
- `MovementSpeed` is the constant field `Vehicle.movementSpeed`, taken from the template.
- Each `ArgumentException` is an `Error` value returned in a `Result`/`Outcome`. Changes made before the throw persist, as they do in the game.

## Model

| member | source | states |
|---|---|---|
| `ShipLogic.SlotPosition` | Assets/Scripts/ContainerShip.cs:14-19 | a loaded vehicle sits at the ship's x + 1 exactly for an even count of earlier loads and at x − 1 otherwise; for the first six loads it is within the ship's three rows (z + 1 down to z − 3.6); a truck sits at y + 0.95 and a car at y + 0.65, for every load |
| `ShipLogic.SlotsDistinct` | Assets/Scripts/ContainerShip.cs:15-19 | two different load counts below six never get the same (x, z) slot, whatever the type classes |
| `ShipLogic.SixSlotLayout` | Assets/Scripts/ContainerShip.cs:16-18 | loads 0..5 go to (x+1, z+1), (x−1, z+1), (x+1, z−1.3), (x−1, z−1.3), (x+1, z−3.6), (x−1, z−3.6); for every load, trucks at y + 0.95, cars at y + 0.65 |
| `ShipLogic.Tick` | Assets/Scripts/ContainerShip.cs:27-58 | a frame moves the ship along x only; a docked ship that is not full is unchanged; a ship that is neither docked nor full docks without moving if x ≤ 40, else moves −5·dt; a full ship undocks, moves +5·dt, and is emptied exactly when it is then at x ≥ 60 |
| `ShipLogic.TickNeverDockedWhenFull` | Assets/Scripts/ContainerShip.cs:41-43 | after any frame the ship is not both docked and full |
| `ShipLogic.NewShipInv` | Assets/Scripts/ContainerShip.cs:8-10 | a ship that is not docked and has nothing loaded satisfies the ship invariant |
| `ShipLogic.StepPreservesInv` | Assets/Scripts/ContainerShip.cs:25-58 | one ship frame or one boarding keeps the invariant: at most 6 loaded, docked only at x ≤ 40, empty unless docked or full |
| `ShipLogic.RunPreservesInv` | Assets/Scripts/ContainerShip.cs:12-58 | every interleaving of ship frames and boardings keeps that invariant, so `count ≤ 6` always holds |
| `ShipLogic.DepartingUntilUnloaded` | Assets/Scripts/ContainerShip.cs:41-57 | a full, undocked ship stays full and undocked under any events until some prefix of them has emptied it |
| `ShipLogic.FramesKeepEmpty` | Assets/Scripts/ContainerShip.cs:29-39 | ship frames alone never put anything into an empty ship |
| `ShipLogic.FullShipUnloads` | Assets/Scripts/ContainerShip.cs:41-57 | a full ship is empty after n ≥ 1 frames of length dt > 0 when x + 5·dt·n ≥ 60 |
| `ShipLogic.BoardingsWhileDocked` | Assets/Scripts/Vehicle.cs:29-34 | a docked ship with room for k more takes all k boardings, stays docked, and gains exactly k vehicles |
| `ShipLogic.FullCycle` | Assets/Scripts/ContainerShip.cs:12-57 | six boardings fill a docked empty ship, which stays docked; the next frame undocks it and moves it +5·dt; enough frames to pass x = 60 then leave it empty |
| `Transport.Vehicle.Update` | Assets/Scripts/Vehicle.cs:18-38 | boarded: nothing changes. Unboarded at x ≤ 33.5: x advances by speed·dt and the ship is untouched. Beyond 33.5 with the ship docked and not full: the vehicle is appended to the ship, takes the slot for the old count, turns a quarter and becomes boarded. Otherwise nothing changes. The boarded flag never goes back to false. The ship's invariant is kept, including that every vehicle in its hold is bound to it |
| `Transport.ContainerShip.IsFull` | Assets/Scripts/ContainerShip.cs:25 | full is exactly `ShipLogic.Full` of the ship's state: six loaded, an equality test |
| `Transport.ContainerShip.LoadVehicle` | Assets/Scripts/ContainerShip.cs:12-23 | appends exactly the given vehicle, leaving earlier entries, position and `isDocked` alone; returns `SlotPosition` for the count before the append; capacity is not checked |
| `Transport.ContainerShip.Update` | Assets/Scripts/ContainerShip.cs:27-59 | the ship's new state is `Tick` of its old state; when full, every loaded vehicle moves by the same +5·dt as the ship, and if the hold was emptied every one of them is destroyed; when not full, no loaded vehicle changes; the invariant is kept |
| `Transport.ContainerShip.HoldsDisjoint` | Assets/Scripts/ContainerShip.cs:12-23 | the invariant binds every loaded vehicle to its ship, so no vehicle is in the holds of two different valid ships, and one ship's unloading cannot touch another's cargo |
| `Transport.ContainerShip.constructor` | Assets/Scripts/ContainerShip.cs:8-10 | a new ship is not docked, has nothing loaded and satisfies the invariant |
| `Transport.Vehicle.constructor` | Assets/Scripts/Car/CarFactory.cs:12 | `Instantiate` of a vehicle template: a new vehicle has the given type class, speed and position, is bound to no ship, is unrotated, not boarded and not destroyed |
| `CarFactory.TemplateName` | Assets/Scripts/Car/CarFactory.cs:4-9 | "Fast" and only "Fast" selects "FastCar"; every other token selects "SlowCar" |
| `CarFactory.CreateVehicle` | Assets/Scripts/Car/CarFactory.cs:7-13 | a missing template fails with that template's name and creates nothing; otherwise a fresh unbound, unboarded Car with the template's speed and position |
| `TruckFactory.TemplateName` | Assets/Scripts/Truck/TruckFactory.cs:5-10 | "Fast" and only "Fast" selects "FastTruck"; every other token selects "SlowTruck" |
| `TruckFactory.CreateVehicle` | Assets/Scripts/Truck/TruckFactory.cs:8-14 | a missing template fails with that template's name and creates nothing; otherwise a fresh unbound, unboarded Truck with the template's speed and position |
| `Factories.SpawnPosition` | Assets/Scripts/VehicleFactory.cs:17-21 | a new vehicle appears at the building's x and z, below the building and less than two units down |
| `Factories.TrucksSpawnHigher` | Assets/Scripts/VehicleFactory.cs:20 | cars appear at building y − 1.6, trucks at y − 1.34 |
| `Factories.VehicleFactory.CreateVehicleInstance` | Assets/Scripts/VehicleFactory.cs:10-15 | the family's template for the unchanged token decides success; on success the fresh vehicle has the family's type class and is bound to this factory's ship. It sits at the spawn position, and no existing object changes. On failure the error names the template |
| `Factories.VehicleFactory.constructor` | Assets/Scripts/Client.cs:77-82 | `AddComponent` of a factory: a new factory of the given family, bound to no building and no ship until the client binds it |
| `Factories.FactoryBuilding.constructor` | Assets/Scripts/Client.cs:110 | a new building stands at the given position, active, with no factory |
| `Orchestration.ZOffset` | Assets/Scripts/Client.cs:44-57 | indices 0, 1, 2 and only those are valid, at z = 48 − 14·index (48, 34, 20) |
| `Orchestration.FamilyOf` | Assets/Scripts/Client.cs:75-85 | "CarFactory" and only it names the car family, "TruckFactory" and only it the truck family |
| `Orchestration.SpeedToken` | Assets/Scripts/Client.cs:31 | the token is always "Fast" or "Slow", "Fast" exactly for a draw of 0 |
| `Orchestration.Client.constructor` | Assets/Scripts/Client.cs:10-11 | the slot table starts with three empty slots and satisfies its invariant |
| `Orchestration.Client.ProduceVehicles` | Assets/Scripts/Client.cs:21-34 | at most one fresh vehicle per slot, and only for slots with a factory and a docked, non-full ship. On success every such slot spawns. A missing template stops the tick at that slot and names the template. Each vehicle is what the slot's factory makes for its token, bound to the slot's ship. No existing object changes |
| `Orchestration.Client.CreateFactoryBuilding` | Assets/Scripts/Client.cs:105-112 | a fresh building at (16, 1.5, z) with no factory, or a failure naming "Factory" |
| `Orchestration.Client.CreateContainerShip` | Assets/Scripts/Client.cs:93-103 | a fresh ship at (70, building.y − 2, building.z), turned one quarter, undocked and empty; or a failure naming "ContainerShip" |
| `Orchestration.Client.InstallFactory` | Assets/Scripts/Client.cs:68-90 | the old factory is removed and the building deactivated; an unknown family fails and leaves it so; a known one installs a fresh factory of that family bound to this building and ship, and reactivates the building |
| `Orchestration.Client.AssignFactoryToBuilding` | Assets/Scripts/Client.cs:36-91 | an invalid index fails before anything changes. An empty slot gets a fresh building at (16, 1.5, z) and a fresh ship below it. An occupied slot keeps its building and ship. The factory is swapped as `InstallFactory` says. No other slot changes. The table's invariant is kept |

## Left out

- The engine lifecycle (`Start`, `InvokeRepeating(…, 5, 3)`, the per-frame `Update` calls) is left out. The methods are called explicitly in any order. `ShipLogic.Run` covers any interleaving of frames and boardings for one ship.
- Unity's `Destroy` of a component takes effect at the end of the frame. The model removes the old factory at once.
- Single-precision rounding is left out. Coordinates are exact reals.
- Rotations are reduced to a quarter-turn counter. The local-space translation axes are reduced to world x.
- The `Car` and `Truck` subclasses are not part of this model. Their `MovementSpeed` comes from the template, and their type class is the factory family's.
- Templates are assumed to carry the component the factory asks for. A "FastCar" template without a `Car` component is not modelled, nor is the null reference that would follow.
- A new ship's `isDocked` is assumed false, and a new building is assumed to carry no factory component.
- The null check on the building (Client.cs:68) cannot fail once the building has been created or reused, so it is not modelled.
- `Transport.Vehicle.Update` requires a vehicle that is not destroyed and is bound to a ship. The engine calls `Update` only on live objects, and every vehicle is bound by the factory that created it.
- The UI dropdowns are not part of this model. They are the parameters `buildingIndex` and `factoryType`.
