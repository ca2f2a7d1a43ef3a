/** The truck family of vehicle factories. */
module TruckFactory {
  import opened Geometry
  import opened Wrappers
  import opened Engine
  import opened Transport

  const SlowTruckTemplateName: string := "SlowTruck"
  const FastTruckTemplateName: string := "FastTruck"

  /** The template a speed token selects: "Fast" selects the fast truck, every other token the slow one. */
  function TemplateName(token: string): (name: string)
    ensures name == FastTruckTemplateName || name == SlowTruckTemplateName
    ensures name == FastTruckTemplateName <==> token == "Fast"
  {
    if token == "Fast" then FastTruckTemplateName else SlowTruckTemplateName
  }

  /**
    `TruckFactory.CreateVehicle`: instantiates the template `TemplateName(token)` as a truck, or
    throws naming that template when it cannot be resolved (and then creates nothing).
  */
  method CreateVehicle(token: string, resources: Resources) returns (r: Result<Vehicle, Error>)
    ensures TemplateName(token) !in resources ==> r == Failure(TemplateNotFound(TemplateName(token)))
    ensures TemplateName(token) in resources ==>
              && r.Success? && fresh(r.value)
              && r.value.kind == Truck
              && r.value.movementSpeed == resources[TemplateName(token)].movementSpeed
              && r.value.position == resources[TemplateName(token)].position
              && r.value.containerShip == null && r.value.quarterTurns == 0
              && !r.value.isOnContainerShip && !r.value.destroyed
  {
    var name := TemplateName(token);
    if name !in resources {
      return Failure(TemplateNotFound(name));
    }
    var template := resources[name];
    var truck := new Vehicle(Truck, template.movementSpeed, template.position);
    return Success(truck);
  }
}
