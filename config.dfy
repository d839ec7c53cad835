/** The parameter set `renderNormalImage` reads, with the enum encodings of the config module. */
module NormalConfig {

  /** Values of the `NormalAlgorithm` enum. */
  const Sobel := 1
  const Scharr := 0

  /** Values of the `InvertValues` enum. */
  const Invert := -1
  const NoInvert := 1

  /**
   * The fields of the config object. `algorithm` is the field the source calls `type`.
   * Nothing checks the values: they are copied into shader uniforms as given.
   */
  datatype Config = Config(
    strength: real,
    level: real,
    blur: real,
    algorithm: int,
    invertR: int,
    invertG: int,
    invertH: int)

  /** The process-wide defaults the generator facade always passes. */
  const Default := Config(0.13, 5.6, -6.0, Sobel, NoInvert, NoInvert, NoInvert)
}
