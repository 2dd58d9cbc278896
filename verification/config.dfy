/** The built-in configuration profiles (`BaseConfig` and `WorkConfig`). */
module Config {
  import opened Wrappers

  /** One configuration profile. `playerName` is `None` in the base profile. */
  datatype Settings = Settings(
    playerName: Option<string>,
    desiredVolume: int,
    sleepInterval: nat,
    discoverTimeout: nat)

  /** `BaseConfig`: no player name, ceiling 20, 5 s interval, 5 s discovery timeout. */
  const Base: Settings := Settings(None, 20, 5, 5)

  /** `WorkConfig`: the base profile with the player called "Main". */
  const Work: Settings := Base.(playerName := Some("Main"))

  /** `CONFIG`, the profile the program runs with. */
  const Active: Settings := Work
}
