/** The records shared by the generator, the integrator and the hand tracker. */
module Types {

  /**
   * The shape families. The enum's values are strings at run time, so a value outside the enum can
   * reach `generatePositions`; `Unlisted` stands for such a value, which the generator's `default` arm handles.
   */
  datatype ShapeType =
    | Random
    | Sphere
    | Cube
    | Helix
    | Text
    | Rain
    | Star
    | Fire
    | Tree
    | Flower
    | Butterfly
    | Unlisted(tag: string)

  datatype Vec3 = Vec3(x: real, y: real, z: real)

  /** The scene configuration the control panel edits. Rotation offsets are in degrees. */
  datatype ParticleConfig = ParticleConfig(
    count: nat,
    size: real,
    speed: real,
    color: string,
    shape: ShapeType,
    textInput: string,
    rotationOffsets: Vec3)

  /** The latest hand signal. When `isPresent` is false the other fields carry no information. */
  datatype HandData = HandData(
    isPresent: bool,
    gripStrength: real,
    position: Vec3,
    rotation: Vec3,
    pinchDistance: real,
    scale: real)
}
