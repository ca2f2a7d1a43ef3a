/**
  What the core needs from the game engine: named templates (prefabs) that can be resolved,
  and the errors the core raises. Instantiating a template is `new` in the model, so every
  instance is a fresh object.
*/
module Engine {
  import opened Geometry

  /** A vehicle template: where an instance first appears and the `MovementSpeed` its concrete class sets. */
  datatype Template = Template(position: Vec3, movementSpeed: real)

  /**
    `Resources.Load` by name: a name that is not a key cannot be resolved. One map serves every
    template the core loads. For the vehicle templates ("FastCar", "SlowTruck", ...) the entry's
    position and speed are used; for "Factory" and "ContainerShip" only the presence of the key
    matters, since the building and the ship are placed by the client and have no speed.
  */
  type Resources = map<string, Template>

  /**
    The `System.ArgumentException`s the core throws: a template that cannot be loaded
    ("<name> could not be found or loaded from Resources folder"), "Invalid building index"
    and "Invalid factory type".
  */
  datatype Error = TemplateNotFound(name: string) | InvalidBuildingIndex | InvalidFactoryType
}
