/** A light of the scene: a position, an intensity per channel and a kind. */
module Lights {
  import Vec3

  /** The two kinds of light the scene file can name. */
  datatype LightType = Ambient | Point

  /** `Light(position, intensity, type)`: a plain record. */
  datatype Light = Light(position: Vec3.Vector3, intensity: Vec3.Vector3, kind: LightType)
}
