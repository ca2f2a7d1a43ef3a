/** The car family of vehicle factories. */
module CarFactory {
  import opened Geometry
  import opened Wrappers
  import opened Engine
  import opened Transport

  const SlowCarTemplateName: string := "SlowCar"
  const FastCarTemplateName: string := "FastCar"

  /** The template a speed token selects: "Fast" selects the fast car, every other token the slow one. */
  function TemplateName(token: string): (name: string)
    ensures name == FastCarTemplateName || name == SlowCarTemplateName
    ensures name == FastCarTemplateName <==> token == "Fast"
  {
    if token == "Fast" then FastCarTemplateName else SlowCarTemplateName
  }

  /**
    `CarFactory.CreateVehicle`: instantiates the template `TemplateName(token)` as a car, or
    throws naming that template when it cannot be resolved (and then creates nothing).
  */
  method CreateVehicle(token: string, resources: Resources) returns (r: Result<Vehicle, Error>)
    ensures TemplateName(token) !in resources ==> r == Failure(TemplateNotFound(TemplateName(token)))
    ensures TemplateName(token) in resources ==>
              && r.Success? && fresh(r.value)
              && r.value.kind == Car
              && r.value.movementSpeed == resources[TemplateName(token)].movementSpeed
              && r.value.position == resources[TemplateName(token)].position
              && r.value.containerShip == null && r.value.quarterTurns == 0
              && !r.value.isOnContainerShip && !r.value.destroyed
  {
    var name := TemplateName(token);
    if name !in resources {
      return Failure(TemplateNotFound(name));
    }
    var template := resources[name];
    var car := new Vehicle(Car, template.movementSpeed, template.position);
    return Success(car);
  }
}
