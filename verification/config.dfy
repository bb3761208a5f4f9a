/** The element's default property values (`config.h`), the initial state
    of every new instance. Floating-point defaults are kept as reals. */
module Config {
  import opened Wrappers

  const DEFAULT_PRESET_PATH: Option<string> := None
  const DEFAULT_TEXTURE_DIR_PATH: Option<string> := None
  const DEFAULT_BEAT_SENSITIVITY: real := 1.0
  const DEFAULT_HARD_CUT_DURATION: real := 3.0
  const DEFAULT_HARD_CUT_ENABLED: bool := false
  const DEFAULT_HARD_CUT_SENSITIVITY: real := 1.0
  const DEFAULT_SOFT_CUT_DURATION: real := 3.0
  const DEFAULT_PRESET_DURATION: real := 0.0
  const DEFAULT_MESH_SIZE: string := "48,32"
  const DEFAULT_ASPECT_CORRECTION: bool := true
  const DEFAULT_EASTER_EGG: real := 0.0
  const DEFAULT_PRESET_LOCKED: bool := true
}
