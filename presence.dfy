/**
 The presence formatter of the rich-presence plugin: the fixed label tables,
 the DFState snapshot that getDFData reads from the host, and the Discord
 activity record that updateActivity builds from it.
 */
module Presence {
  import opened Host

  // ---------------------------------------------------------------------
  // Label tables
  // ---------------------------------------------------------------------

  /**
   The game-type label shown as the activity's details line (getGameModeText):
   the two arena types share one label, and every raw value outside the enum
   falls to the menu label.
   */
  function GameModeText(t: GameType): (title: string)
    ensures title == "Object testing arena" <==> IsArena(t)
    ensures title == "In the Menus" <==> t.Unlisted?
  {
    match t
    case DwarfMain => "Fortress Mode"
    case DwarfTutorial => "Stuck in the Tutorial"
    case DwarfReclaim => "Reclaiming a lost fortress"
    case DwarfUnretire => "Unretiring a fort"
    case AdventureMain => "Adventure Mode"
    case AdventureDungeon => "Adventure (Dungeon)"
    case AdventureWorldDebug => "Adventure (Debug)"
    case AdventureArena => "Object testing arena"
    case DwarfArena => "Object testing arena"
    case ViewLegends => "Legends Viewer"
    case Unlisted(_) => "In the Menus"
  }

  predicate IsArena(t: GameType) {
    t == AdventureArena || t == DwarfArena
  }

  /** The fortress sizes, indexed by rank: the reference the designation switch must agree with. */
  const RankLabels: seq<string> := ["Outpost", "Hamlet", "Village", "Town", "City", "Metropolis"]

  const UnknownRank: string := "Unknown rank"

  /** The fortress designation for a rank (getFortressDesignation). */
  function FortressDesignation(rank: uint16): (designation: string)
    ensures rank < |RankLabels| ==> designation == RankLabels[rank]
    ensures |RankLabels| <= rank ==> designation == UnknownRank
  {
    match rank
    case 0 => "Outpost"
    case 1 => "Hamlet"
    case 2 => "Village"
    case 3 => "Town"
    case 4 => "City"
    case 5 => "Metropolis"
    case _ => "Unknown rank"
  }

  /** The rank a designation stands for, if it names one. */
  function RankOfDesignation(name: string): (rank: Option<uint16>)
    ensures rank.Some? ==> rank.value < |RankLabels| && RankLabels[rank.value] == name
  {
    if name == "Outpost" then Some(0)
    else if name == "Hamlet" then Some(1)
    else if name == "Village" then Some(2)
    else if name == "Town" then Some(3)
    else if name == "City" then Some(4)
    else if name == "Metropolis" then Some(5)
    else None
  }

  // ---------------------------------------------------------------------
  // Snapshot (DFState and getDFData)
  // ---------------------------------------------------------------------

  /**
   The DFState struct. The designation is a C string that stays null unless
   a fortress name was read; None stands for that null pointer.
   */
  datatype DFState = DFState(
    gamemode: GameModes,
    hasFortName: bool,
    fortName: string,
    fortNameEnglish: string,
    fortDesignation: Option<string>,
    hasWorldName: bool,
    worldName: string)

  /** A state whose fortress flag is backed by a designation, as updateActivity needs it to be. */
  predicate WellFormed(s: DFState) {
    s.hasFortName ==> s.fortDesignation.Some?
  }

  /** The modes in which getDFData tries to read the world name. */
  predicate ReadsWorldName(tests: ModeTests, t: GameType) {
    tests.isFortressMode(t) || tests.isAdventureMode(t) || tests.isLegends(t)
  }

  /** getDFData: a value-initialised DFState, then each optional part filled under its guard. */
  function ReadSnapshot(host: HostView, tests: ModeTests): (s: DFState)
    ensures s.gamemode == host.gamemode
    ensures s.hasWorldName <==> ReadsWorldName(tests, host.gamemode.gType) && host.worldName.Some?
    ensures s.worldName == if s.hasWorldName then host.worldName.value else ""
    ensures s.hasFortName <==> tests.isFortressMode(host.gamemode.gType) && host.fortressSite.Some?
    ensures s.hasFortName ==>
      && s.fortName == host.fortressSite.value.native
      && s.fortNameEnglish == host.fortressSite.value.english
      && s.fortDesignation == Some(FortressDesignation(ToUint16(host.fortressRank)))
    ensures !s.hasFortName ==> s.fortName == "" && s.fortNameEnglish == "" && s.fortDesignation == None
    ensures WellFormed(s)
  {
    var t := host.gamemode.gType;
    var s0 := DFState(host.gamemode, false, "", "", None, false, "");
    var s1 :=
      if ReadsWorldName(tests, t) && host.worldName.Some? then
        s0.(worldName := host.worldName.value, hasWorldName := true)
      else s0;
    if tests.isFortressMode(t) && host.fortressSite.Some? then
      s1.(fortName := host.fortressSite.value.native,
          fortNameEnglish := host.fortressSite.value.english,
          fortDesignation := Some(FortressDesignation(ToUint16(host.fortressRank))),
          hasFortName := true)
    else s1
  }

  // ---------------------------------------------------------------------
  // Activity record (the formatting part of updateActivity)
  // ---------------------------------------------------------------------

  /** The Discord SDK's activity types; the plugin always reports Playing. */
  datatype ActivityType = Playing | Streaming | Listening | Watching

  /**
   The fields of discord::Activity that the plugin sets. A state line that is
   never set is None; the SDK then shows no state.
   */
  datatype Activity = Activity(
    kind: ActivityType,
    details: string,
    state: Option<string>,
    largeImage: string,
    largeText: string,
    smallImage: string,
    smallText: string,
    start: uint64)

  const LargeImageKey: string := "df_discord_logo"
  const LargeImageText: string := "Dwarf Fortress"
  const FortressImageKey: string := "fortress_mode_logo"
  const DefaultImageKey: string := "dwarf_fortress_classic"

  /** The activity updateActivity submits for a snapshot, anchored at the plugin's start time. */
  function Format(s: DFState, tests: ModeTests, startTime: uint64): (a: Activity)
    requires WellFormed(s)
    ensures a.kind == Playing && a.start == startTime
    ensures a.details == GameModeText(s.gamemode.gType)
    ensures a.largeImage == LargeImageKey && a.largeText == LargeImageText
  {
    var t := s.gamemode.gType;
    var title := GameModeText(t);
    var stateLine :=
      if s.hasFortName then Some("Working on " + s.fortDesignation.value + " " + s.fortName)
      else if tests.isAdventureMode(t) || tests.isLegends(t) then Some("In " + s.worldName)
      else None;
    var smallImage := if s.hasFortName then FortressImageKey else DefaultImageKey;
    var smallText := if s.hasFortName then s.fortDesignation.value + " " + s.fortName else title;
    Activity(Playing, title, stateLine, LargeImageKey, LargeImageText, smallImage, smallText, startTime)
  }

  /**
   One synchronisation, as updateActivity does it: read the host (getDFData),
   then format the snapshot.
   */
  function Synchronize(host: HostView, tests: ModeTests, startTime: uint64): (a: Activity)
    ensures a.start == startTime && a.details == GameModeText(host.gamemode.gType)
    ensures a.smallImage == FortressImageKey <==>
      tests.isFortressMode(host.gamemode.gType) && host.fortressSite.Some?
    ensures a.state.Some? <==>
      || (tests.isFortressMode(host.gamemode.gType) && host.fortressSite.Some?)
      || tests.isAdventureMode(host.gamemode.gType) || tests.isLegends(host.gamemode.gType)
  {
    Format(ReadSnapshot(host, tests), tests, startTime)
  }

  // ---------------------------------------------------------------------
  // Properties of the label tables
  // ---------------------------------------------------------------------

  /** Two game types get the same label only when they are the same, both arenas, or both unlisted. */
  lemma GameModeTextDistinct(a: GameType, b: GameType)
    ensures GameModeText(a) == GameModeText(b) <==>
      a == b || (IsArena(a) && IsArena(b)) || (a.Unlisted? && b.Unlisted?)
  {
  }

  /** The designation of a rank names that rank back, exactly for the ranks 0..5. */
  lemma DesignationRoundTrip(rank: uint16)
    ensures RankOfDesignation(FortressDesignation(rank)) == if rank <= 5 then Some(rank) else None
  {
  }

  /** A label that names a rank is that rank's designation. */
  lemma DesignationFromLabel(name: string, rank: uint16)
    requires RankOfDesignation(name) == Some(rank)
    ensures FortressDesignation(rank) == name
  {
  }

  /** The rank read from the host wraps modulo 2^16 before the lookup. */
  lemma HostRankWraps(hostRank: int)
    ensures FortressDesignation(ToUint16(hostRank)) != UnknownRank <==> hostRank % 0x1_0000 <= 5
  {
  }

  // ---------------------------------------------------------------------
  // Properties of the activity record
  // ---------------------------------------------------------------------

  /** With a fortress name, the state line names the designation and the native fort name. */
  lemma FortressStateLine(s: DFState, tests: ModeTests, startTime: uint64)
    requires WellFormed(s) && s.hasFortName
    ensures Format(s, tests, startTime).state == Some("Working on " + s.fortDesignation.value + " " + s.fortName)
    ensures Format(s, tests, startTime).smallImage == FortressImageKey
    ensures Format(s, tests, startTime).smallText == s.fortDesignation.value + " " + s.fortName
  {
  }

  /** Without a fortress name, adventure and legends show the world name, checked or not. */
  lemma WorldStateLine(s: DFState, tests: ModeTests, startTime: uint64)
    requires WellFormed(s) && !s.hasFortName
    requires tests.isAdventureMode(s.gamemode.gType) || tests.isLegends(s.gamemode.gType)
    ensures Format(s, tests, startTime).state == Some("In " + s.worldName)
  {
  }

  /** The state line is set exactly when there is a fort name or the mode is adventure or legends. */
  lemma StateLineSetIff(s: DFState, tests: ModeTests, startTime: uint64)
    requires WellFormed(s)
    ensures Format(s, tests, startTime).state.Some? <==>
      s.hasFortName || tests.isAdventureMode(s.gamemode.gType) || tests.isLegends(s.gamemode.gType)
  {
  }

  /** Without a fortress name, the small image is the default one, captioned with the details line. */
  lemma DefaultSmallImage(s: DFState, tests: ModeTests, startTime: uint64)
    requires WellFormed(s) && !s.hasFortName
    ensures Format(s, tests, startTime).smallImage == DefaultImageKey
    ensures Format(s, tests, startTime).smallText == Format(s, tests, startTime).details
  {
  }

  /** The fortress image's caption is the state line without its "Working on " prefix. */
  lemma CaptionMatchesStateLine(s: DFState, tests: ModeTests, startTime: uint64)
    requires WellFormed(s)
    ensures var a := Format(s, tests, startTime);
      a.smallImage == FortressImageKey <==> a.state == Some("Working on " + a.smallText)
  {
    var a := Format(s, tests, startTime);
    if !s.hasFortName {
      // the two image keys, and "In ..." and "Working on ...", differ in their first character
      assert a.smallImage[0] == 'd' && FortressImageKey[0] == 'f';
      if a.state.Some? {
        assert a.state.value[0] == 'I';
        assert ("Working on " + a.smallText)[0] == 'W';
      }
    } else {
      var d := s.fortDesignation.value;
      assert "Working on " + d + " " + s.fortName == "Working on " + (d + " " + s.fortName);
    }
  }

  // ---------------------------------------------------------------------
  // Properties of one synchronisation (getDFData followed by the formatting)
  // ---------------------------------------------------------------------

  /** In fortress mode with a site, the presence names the fort's designation and native name. */
  lemma FortressPresence(host: HostView, tests: ModeTests, startTime: uint64)
    requires tests.isFortressMode(host.gamemode.gType) && host.fortressSite.Some?
    ensures var d := FortressDesignation(ToUint16(host.fortressRank));
      var a := Synchronize(host, tests, startTime);
      && a.state == Some("Working on " + d + " " + host.fortressSite.value.native)
      && a.smallImage == FortressImageKey
      && a.smallText == d + " " + host.fortressSite.value.native
  {
    FortressStateLine(ReadSnapshot(host, tests), tests, startTime);
  }

  /** Outside fortress mode, or without a site, adventure and legends show "In " and the world name or nothing. */
  lemma WorldPresence(host: HostView, tests: ModeTests, startTime: uint64)
    requires !(tests.isFortressMode(host.gamemode.gType) && host.fortressSite.Some?)
    requires tests.isAdventureMode(host.gamemode.gType) || tests.isLegends(host.gamemode.gType)
    ensures Synchronize(host, tests, startTime).state ==
      Some("In " + (if host.worldName.Some? then host.worldName.value else ""))
  {
  }

  /** In a mode that is none of fortress, adventure or legends, no state line is set. */
  lemma MenuPresence(host: HostView, tests: ModeTests, startTime: uint64)
    requires !ReadsWorldName(tests, host.gamemode.gType)
    ensures var a := Synchronize(host, tests, startTime);
      a.state == None && a.smallImage == DefaultImageKey && a.smallText == a.details
  {
  }

  /** The English fort name reaches neither the state line nor the caption: only the native one does. */
  lemma EnglishNameUnused(host: HostView, tests: ModeTests, startTime: uint64, english: string)
    requires host.fortressSite.Some?
    ensures var other := host.(fortressSite := Some(host.fortressSite.value.(english := english)));
      Synchronize(other, tests, startTime) == Synchronize(host, tests, startTime)
  {
  }

  /** The example "Working on Village Boatmurdered". */
  lemma BoatmurderedExample(tests: ModeTests, startTime: uint64)
    requires tests.isFortressMode(DwarfMain)
    ensures var host := HostView(GameModes(0, DwarfMain), None, Some(SiteName("Boatmurdered", "Boatmurdered")), 2);
      var a := Synchronize(host, tests, startTime);
      && a.details == "Fortress Mode"
      && a.state == Some("Working on Village Boatmurdered")
      && a.smallImage == "fortress_mode_logo"
      && a.smallText == "Village Boatmurdered"
  {
    var host := HostView(GameModes(0, DwarfMain), None, Some(SiteName("Boatmurdered", "Boatmurdered")), 2);
    FortressPresence(host, tests, startTime);
    assert FortressDesignation(ToUint16(2)) == "Village";
    assert "Working on " + "Village" + " " + "Boatmurdered" == "Working on Village Boatmurdered";
    assert "Village" + " " + "Boatmurdered" == "Village Boatmurdered";
  }

  /** The example "In Slateglazed". */
  lemma SlateglazedExample(tests: ModeTests, startTime: uint64)
    requires tests.isAdventureMode(AdventureMain) && !tests.isFortressMode(AdventureMain)
    ensures var host := HostView(GameModes(1, AdventureMain), Some("Slateglazed"), None, 0);
      var a := Synchronize(host, tests, startTime);
      a.details == "Adventure Mode" && a.state == Some("In Slateglazed") && a.smallText == "Adventure Mode"
  {
    assert "In " + "Slateglazed" == "In Slateglazed";
  }

  /** Fortress mode without a site: the details line only, with the default image. */
  lemma FortressWithoutSiteExample(tests: ModeTests, startTime: uint64)
    requires tests.isFortressMode(DwarfMain)
    requires !tests.isAdventureMode(DwarfMain) && !tests.isLegends(DwarfMain)
    ensures var host := HostView(GameModes(0, DwarfMain), Some("Slateglazed"), None, 3);
      var a := Synchronize(host, tests, startTime);
      a.details == "Fortress Mode" && a.state == None && a.smallImage == "dwarf_fortress_classic"
  {
  }
}
