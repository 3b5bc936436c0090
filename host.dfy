/** The parts of the game and of the synchronisation library that the plugin's own
    decisions read, reduced to the flags those decisions test. */
module Host {

  /** A Valheim `Character`; `isPlayer` is both `IsPlayer()` and the `is Player` test. */
  datatype Character = Character(isPlayer: bool)

  /** The networking singleton `ZNet.instance`, when it exists. */
  datatype ZNet = ZNet(isServer: bool)

  /** ServerSync's `ConfigSync` handle: whether this process is the authority and
      whether it is in the middle of applying values received from the server. */
  datatype ConfigSync = ConfigSync(isSourceOfTruth: bool, processingServerUpdate: bool)
}
