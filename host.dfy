/**
 The part of the DFHack host that the rich-presence plugin reads, as plain values.
 The host's own accessors (World::ReadGameMode, the world and ui globals,
 Translation::TranslateName, DF2UTF) are replaced by a HostView that already
 holds what they would return; the mode predicates of DFHack's World module,
 whose definitions are not part of this model, are given as ModeTests.
 */
module Host {

  datatype Option<T> = None | Some(value: T)

  /** C++ `uint16_t` and `uint64_t`. */
  type uint16 = x: int | 0 <= x < 0x1_0000
  type uint64 = x: int | 0 <= x < 0x1_0000_0000_0000_0000

  /** The C++ integral conversion to `uint16_t`: the value modulo 2^16. */
  function ToUint16(x: int): (r: uint16)
    ensures 0 <= x < 0x1_0000 ==> r == x
    ensures (x - r) % 0x1_0000 == 0
  {
    x % 0x1_0000
  }

  /**
   A raw game-type value that is none of the ten named ones. DFHack numbers
   the named types 0 to 9, in the order of GameType's constructors below.
   */
  type UnlistedGameTypeCode = c: int | c < 0 || 10 <= c witness -1

  /**
   DFHack's GameType: the ten named game types, and Unlisted for any other
   raw value the game may report (the plugin's switches fall to `default`).
   A named value is always one of the named constructors, never Unlisted.
   */
  datatype GameType =
    | DwarfMain
    | AdventureMain
    | ViewLegends
    | DwarfReclaim
    | DwarfArena
    | AdventureArena
    | AdventureDungeon
    | DwarfTutorial
    | DwarfUnretire
    | AdventureWorldDebug
    | Unlisted(code: UnlistedGameTypeCode)

  /**
   The game type a raw value read from the game stands for. The model reads
   game types directly; this numbering and its inverse below only show that
   `Unlisted` covers exactly the raw values outside the enum.
   */
  function GameTypeOfRaw(c: int): (t: GameType)
    ensures t.Unlisted? <==> c < 0 || 10 <= c
    ensures t.Unlisted? ==> t.code == c
  {
    match c
    case 0 => DwarfMain
    case 1 => AdventureMain
    case 2 => ViewLegends
    case 3 => DwarfReclaim
    case 4 => DwarfArena
    case 5 => AdventureArena
    case 6 => AdventureDungeon
    case 7 => DwarfTutorial
    case 8 => DwarfUnretire
    case 9 => AdventureWorldDebug
    case _ => Unlisted(c)
  }

  /** The raw value of a game type. */
  function RawOfGameType(t: GameType): (c: int)
    ensures t.Unlisted? <==> c < 0 || 10 <= c
  {
    match t
    case DwarfMain => 0
    case AdventureMain => 1
    case ViewLegends => 2
    case DwarfReclaim => 3
    case DwarfArena => 4
    case AdventureArena => 5
    case AdventureDungeon => 6
    case DwarfTutorial => 7
    case DwarfUnretire => 8
    case AdventureWorldDebug => 9
    case Unlisted(c) => c
  }

  /** Raw values and game types correspond one to one: each raw value has exactly one game type. */
  lemma GameTypeRawRoundTrip(c: int, t: GameType)
    ensures RawOfGameType(GameTypeOfRaw(c)) == c
    ensures GameTypeOfRaw(RawOfGameType(t)) == t
  {
  }

  /** DFHack's t_gamemodes: the game mode and the game type; the plugin only looks at the type. */
  datatype GameModes = GameModes(gMode: int, gType: GameType)

  /** World::isFortressMode, World::isAdventureMode and World::isLegends, as given tests on the game type. */
  datatype ModeTests = ModeTests(
    isFortressMode: GameType -> bool,
    isAdventureMode: GameType -> bool,
    isLegends: GameType -> bool)

  /** The fortress site's name, translated natively and into English. */
  datatype SiteName = SiteName(native: string, english: string)

  /**
   What the host holds at the moment it is read under the CoreSuspender:
   the game modes, the translated world name when world data exists, the
   fortress site's names when a fortress site exists, and ui->fortress_rank.
   */
  datatype HostView = HostView(
    gamemode: GameModes,
    worldName: Option<string>,
    fortressSite: Option<SiteName>,
    fortressRank: int)
}
