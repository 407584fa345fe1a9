# df-rich-presence in Dafny

A model of the Dwarf Fortress Discord rich-presence plugin for DFHack. The plugin reads the game
mode, the world name and the fortress's name and rank from the host. It formats them into a Discord
activity. It submits that activity when it becomes enabled, through `enable` or at load. While it
stays enabled, it also submits whenever a world or map is loaded or unloaded or the user runs
`rich_presence update`; while disabled it submits nothing. It owns exactly one Discord core while it is
enabled.

Files and modules:

- `host.dfy`, module `Host`: what the plugin reads from DFHack, as plain values. `HostView` holds the
  game modes, the translated world name (present only when world data exists), the fortress site's
  native and English names (present only when a site exists) and the raw `fortress_rank`.
  `ModeTests` carries DFHack's `isFortressMode`, `isAdventureMode` and `isLegends` as given tests.
  `ToUint16` is the C++ conversion to `uint16_t`.
- `presence.dfy`, module `Presence`: the label tables (`GameModeText`, `FortressDesignation`), the
  `DFState` snapshot, `ReadSnapshot` (getDFData), the `Activity` record and `Format`, which is the
  record-building part of updateActivity. It also holds their properties and the worked examples
  "Working on Village Boatmurdered" and "In Slateglazed".
- `plugin_model.dfy`, module `PluginModel`: the plugin's globals (`isPluginEnabled`, the core,
  `pluginStartTime`) as a value `Plugin`. It has a log of the requests handed to the SDK, and one
  function per entry point. Lemmas cover single entry points and arbitrary sequences of host calls
  (`Run`).
- `lifecycle.dfy`, module `Lifecycle`: class `RichPresencePlugin`, holding the same globals as
  mutable fields (the request log is ghost). Its methods make the entry points' assignments step by
  step. Each is proved to produce exactly the new state and result of the matching `PluginModel`
  function, and every method keeps `Valid()`. `InitializeDiscord`, `DeinitDiscord` and
  `UpdateActivity` are the helpers the entry points call. `Dispatch` sends one host call (an
  `Event`) to its entry point and performs `PluginModel.Step`. `Drive` makes a sequence of host
  calls and ends in the state `PluginModel.Run` gives, so the run lemmas hold of the object.

Facts about the code that the model keeps:

- The game-mode label is the activity's *details*; the fort/world line is its *state*.
- When there is nothing to show, the code never calls `SetState`, so `state` is `None`.
- In adventure or legends mode the code writes `"In " + worldName` without checking `hasWorldName`.
  Without world data the state line is therefore `"In "` (`WorldStateLine`, `WorldPresence`).
- `initializeDiscord` writes `pluginStartTime` before `Core::Create`, so a failed creation still
  overwrites it (`InitializeWhenDisabled`).
- Enabling is one call that either succeeds or leaves the plugin disabled.
- Raw game-type values are numbered 0 to 9 for the named types, in the order of `GameType`'s
  constructors; `Unlisted` carries only values outside that range. In the same way `OtherEvent`
  carries only state-change values other than 0 to 3, the four world and map events.

## Model

| member | source | states |
|---|---|---|
| Host.ToUint16 | src/main.cpp:189 | the rank passed to getFortressDesignation is the host value modulo 2^16; in-range values are unchanged |
| Presence.FortressDesignation | src/main.cpp:134-151 | ranks below 6 get the matching entry of the table Outpost, Hamlet, Village, Town, City, Metropolis; every other rank gets "Unknown rank" |
| Presence.RankOfDesignation | src/main.cpp:134-151 | a name recognised as a designation is the table entry for the rank it returns |
| Presence.DesignationRoundTrip | src/main.cpp:134-151 | the designation of a rank names that rank back exactly for ranks 0..5, and no rank otherwise |
| Presence.DesignationFromLabel | src/main.cpp:134-151 | a name that stands for a rank is that rank's designation |
| Presence.HostRankWraps | src/main.cpp:189 | the host's rank gives a real designation exactly when it is 0..5 modulo 2^16 |
| Host.GameTypeOfRaw | src/main.cpp:109 | a raw game-type value is Unlisted exactly when it is outside 0..9, and then carries that value |
| Host.RawOfGameType | src/main.cpp:109 | a game type's raw value is outside 0..9 exactly when it is Unlisted |
| Host.GameTypeRawRoundTrip | src/main.cpp:109 | raw values and game types correspond one to one, in both directions |
| Presence.GameModeText | src/main.cpp:108-131 | "Object testing arena" exactly for the two arena types; "In the Menus" exactly for values outside the enum (distinctness of the other labels: GameModeTextDistinct) |
| Presence.GameModeTextDistinct | src/main.cpp:108-131 | two game types share a label only if equal, both arenas, or both unlisted (both directions) |
| Presence.ReadSnapshot | src/main.cpp:165-196 | mode copied; world name set exactly when the mode is fortress, adventure or legends and world data exists; fort names and designation set exactly in fortress mode with a site; otherwise the fields keep their empty defaults; a fort name always comes with a designation |
| Presence.Format | src/main.cpp:207-236 | the activity is Playing, its details are the game-mode label, its large image is ("df_discord_logo", "Dwarf Fortress") and its start is the given anchor |
| Presence.Synchronize | src/main.cpp:201-236 | getDFData then formatting: details are the mode label and start is the anchor; the fortress image appears exactly in fortress mode with a site; a state line exists exactly then or in adventure or legends mode (full strings: FortressPresence, WorldPresence, MenuPresence) |
| Presence.FortressStateLine | src/main.cpp:213-229 | with a fort name: state "Working on " + designation + " " + native name; small image "fortress_mode_logo" captioned designation + " " + native name |
| Presence.WorldStateLine | src/main.cpp:216-218 | without a fort name, in adventure or legends mode: state "In " + world name, whether or not a world name was read |
| Presence.StateLineSetIff | src/main.cpp:213-219 | a state line is set exactly when there is a fort name or the mode is adventure or legends |
| Presence.DefaultSmallImage | src/main.cpp:230-233 | without a fort name: small image "dwarf_fortress_classic" captioned with the details line |
| Presence.CaptionMatchesStateLine | src/main.cpp:213-233 | the fortress image is shown exactly when the state line is "Working on " followed by the small caption |
| Presence.FortressPresence | src/main.cpp:183-229 | fortress mode with a site: the submitted state and caption name the rank's designation and the site's native name |
| Presence.WorldPresence | src/main.cpp:172-218 | adventure or legends without a fortress site: state "In " + the world name, or "In " alone without world data |
| Presence.MenuPresence | src/main.cpp:172-233 | outside fortress, adventure and legends: no state line, default small image captioned with the details |
| Presence.EnglishNameUnused | src/main.cpp:186-229 | changing the site's English name does not change the submitted activity |
| Presence.BoatmurderedExample | src/main.cpp:134-229 | fortress "Boatmurdered" of rank 2: details "Fortress Mode", state "Working on Village Boatmurdered", caption "Village Boatmurdered" |
| Presence.SlateglazedExample | src/main.cpp:108-233 | adventure in world "Slateglazed": details "Adventure Mode", state "In Slateglazed" |
| Presence.FortressWithoutSiteExample | src/main.cpp:108-233 | fortress mode without a site: details "Fortress Mode", no state, default small image |
| PluginModel.InitializeDiscord | src/main.cpp:68-93 | succeeds exactly when already enabled or the core is created; then enabled; no change when enabled; start time is now when it was disabled; keeps the one-core invariant (also InitializeWhenEnabled, InitializeWhenDisabled) |
| PluginModel.DeinitDiscord | src/main.cpp:95-106 | always leaves the plugin disabled, with no core from a valid state, start time kept, and a clear request logged exactly when it was enabled (also DeinitIdempotent) |
| PluginModel.UpdateActivity | src/main.cpp:198-246 | no change while disabled; while enabled only the submission of the synchronised activity at the stored start time is added (also UpdateWhenEnabled) |
| PluginModel.PluginEnable | src/main.cpp:300-326 | CR_FAILURE exactly for an enable from disabled whose creation fails, otherwise CR_OK; enabled afterwards exactly when enabling and already enabled or created; a fresh enable stores the start time now; disabling keeps the start time and logs Clear exactly when it was enabled; keeps the one-core invariant (also EnableFromDisabled, EnableIdempotent) |
| PluginModel.PluginOnStateChange | src/main.cpp:328-341 | always CR_OK; only the log changes, by the synchronised activity exactly when enabled and the event is one of the four world/map events (also StateChangeSubmits) |
| PluginModel.RichPresence | src/main.cpp:257-292 | CR_WRONG_USAGE exactly while disabled, CR_OK exactly while enabled; only the log changes, by one submission exactly for an enabled `update` (also CommandWhenDisabled, CommandWhenEnabled) |
| PluginModel.PluginInit | src/main.cpp:343-362 | always CR_OK; enabled afterwards exactly when already enabled or created; the start time is now after an init from disabled, even when creation fails, and kept when already enabled; a fresh successful init submits the activity at the new start time; a failed one submits nothing; an init while already enabled submits the activity at the kept start time; keeps the invariant |
| PluginModel.PluginShutdown | src/main.cpp:364-371 | always CR_OK and disabled afterwards; no change when disabled; when enabled, logs Clear and keeps the start time; keeps the invariant (also ShutdownDisables) |
| PluginModel.Step | src/main.cpp:300-371 | one host call keeps the one-core invariant, and a passive call leaves a disabled plugin unchanged (also StepKeepsInv, StepAppends) |
| PluginModel.StepResult | src/main.cpp:257-371 | the answer to one host call: CR_WRONG_USAGE exactly for a command while disabled, CR_FAILURE exactly for an enable from disabled whose creation fails, CR_OK otherwise |
| PluginModel.Run | src/main.cpp:300-371 | a sequence of host calls only appends to the request log (also RunKeepsInv, DisabledRunUnchanged, EnabledRunKeepsAnchor) |
| PluginModel.RunSnoc | src/main.cpp:300-371 | running a sequence and then one more call is running the longer sequence |
| PluginModel.InitializeWhenEnabled | src/main.cpp:68-93 | initializing an enabled plugin returns true and changes nothing |
| PluginModel.InitializeWhenDisabled | src/main.cpp:68-93 | initializing a disabled plugin: result and enabled flag equal creation success; one core iff created; start time restamped either way |
| PluginModel.DeinitIdempotent | src/main.cpp:95-106 | deinit always leaves the plugin disabled, and a second deinit is a no-op |
| PluginModel.EnableFromDisabled | src/main.cpp:300-314 | enable from disabled: CR_OK iff creation succeeds; then one core and exactly one activity submitted, anchored at the new start time; on failure nothing is submitted |
| PluginModel.EnableIdempotent | src/main.cpp:300-326 | once an enable leaves the plugin enabled, a second enable returns CR_OK and changes nothing |
| PluginModel.UpdateWhenDisabled | src/main.cpp:198-199 | updateActivity while disabled changes nothing |
| PluginModel.UpdateWhenEnabled | src/main.cpp:198-245 | updateActivity while enabled appends exactly one submission, anchored at the stored start time, and changes nothing else |
| PluginModel.StateChangeSubmits | src/main.cpp:328-341 | a state change returns CR_OK and changes the plugin exactly when it is enabled and the event is a world or map load/unload |
| PluginModel.CommandWhenDisabled | src/main.cpp:257-261 | the rich_presence command returns CR_WRONG_USAGE and changes nothing while disabled |
| PluginModel.CommandWhenEnabled | src/main.cpp:263-291 | while enabled the command returns CR_OK and changes the plugin exactly when its first parameter is "update" |
| PluginModel.ShutdownDisables | src/main.cpp:364-371 | shutdown returns CR_OK and leaves the plugin disabled with no core; it is a no-op when already disabled |
| PluginModel.StepKeepsInv | src/main.cpp:68-106 | every entry point keeps "one live core exactly while enabled" |
| PluginModel.StepAppends | src/main.cpp:198-245 | every entry point only appends to the request log; each appended submission comes from an enabled plugin and carries its start time |
| PluginModel.RunKeepsInv | src/main.cpp:300-371 | any sequence of entry-point calls keeps the one-core invariant, so live cores stay between 0 and 1 |
| PluginModel.AtMostOneLiveCore | src/main.cpp:32-37 | from the loaded state, any sequence of calls leaves at most one live core, and one exactly while enabled |
| PluginModel.DisabledRunUnchanged | src/main.cpp:328-371 | a disabled plugin is left exactly as it is by state changes, commands, shutdowns and disable requests |
| PluginModel.EnabledRunKeepsAnchor | src/main.cpp:236 | while state changes and commands drive an enabled plugin, the core and start time are unchanged and every submitted activity carries that start time |
| Lifecycle.RichPresencePlugin.constructor | src/main.cpp:32-37 | the globals start disabled, with no core, start time 0 and no requests |
| Lifecycle.RichPresencePlugin.InitializeDiscord | src/main.cpp:68-93 | new state and result equal PluginModel.InitializeDiscord; no change when enabled; otherwise start time is now and enabled iff created |
| Lifecycle.RichPresencePlugin.DeinitDiscord | src/main.cpp:95-106 | new state equals PluginModel.DeinitDiscord; afterwards disabled with no core; a clear request is logged only if the plugin was enabled |
| Lifecycle.RichPresencePlugin.UpdateActivity | src/main.cpp:198-246 | new state equals PluginModel.UpdateActivity; logs the formatted activity only while enabled, anchored at the stored start time |
| Lifecycle.RichPresencePlugin.PluginEnable | src/main.cpp:300-326 | new state and result equal PluginModel.PluginEnable; enabling while enabled changes nothing; disabling leaves no core |
| Lifecycle.RichPresencePlugin.PluginOnStateChange | src/main.cpp:328-341 | new state and result equal PluginModel.PluginOnStateChange; nothing changes while disabled |
| Lifecycle.RichPresencePlugin.RichPresence | src/main.cpp:257-292 | new state and result equal PluginModel.RichPresence; CR_WRONG_USAGE and no change while disabled |
| Lifecycle.RichPresencePlugin.PluginInit | src/main.cpp:343-350 | new state and result equal PluginModel.PluginInit; always CR_OK |
| Lifecycle.RichPresencePlugin.PluginShutdown | src/main.cpp:364-371 | new state and result equal PluginModel.PluginShutdown; afterwards disabled with no core |
| Lifecycle.RichPresencePlugin.Dispatch | src/main.cpp:300-371 | one host call, sent to its entry-point method, leaves the state PluginModel.Step gives, returns the answer PluginModel.StepResult gives, and keeps Valid() |
| Lifecycle.RichPresencePlugin.Drive | src/main.cpp:300-371 | a sequence of host calls leaves the state PluginModel.Run gives; the k-th result is StepResult of the k-th call in the state the first k calls leave; at most one live core |

## Left out

- Discord SDK calls are foreign and asynchronous, so they are not modelled. This covers `Core::Create`,
  `SetLogHook`, the `UpdateActivity`/`ClearActivity` callbacks and their result logging.
  `Core::Create`'s outcome is the `created` parameter. Submissions and clears are recorded in the
  request log.
- `plugin_onupdate` (`RunCallbacks`, the SDK's pump) changes no state of the plugin and is not modelled.
- DFHack host access is replaced by the `HostView` input. This covers `CoreSuspender`,
  `World::ReadGameMode`, `Translation::TranslateName`, `DF2UTF` and the `world`/`ui` globals.
  The consistency of one snapshot is therefore assumed, not modelled.
- `World::isFortressMode`, `isAdventureMode` and `isLegends` are not part of this model. They are the
  given tests of `ModeTests`, so every property holds for any definition of them.
- The type of `ui->fortress_rank` is not part of this model. The host rank is any integer, converted to
  `uint16_t` as the call at src/main.cpp:189 does.
- Logging and console output are not modelled. This covers `logLevelToA`, `discordLog`, `usage`,
  colours, and the printing of the `help` and `data` subcommands; those subcommands change no state.
  The switch fall-through at src/main.cpp:75-79 only chooses log text.
- The wall clock (`system_clock::now`) is the `now` parameter.
- Plugin registration macros and the command registration in `plugin_init` are not modelled.
- The underlying DFHack game mode (`g_mode`) is carried but never interpreted; the plugin only reads `g_type`.
- Presence.Activity keeps each text field as a whole string. The Discord SDK's setters copy each one
  into a fixed 128-byte buffer, so a longer state line or caption is cut to 127 bytes in the real
  record; that truncation is not modelled.
- Presence.Format does not model the conversion of the unsigned start time to the SDK's signed
  timestamp type. The anchor is carried as an unsigned 64-bit value.
- Lifecycle.RichPresencePlugin methods require the class invariant `Valid()`, meaning one core
  exactly while enabled. The constructor establishes it and every method keeps it. Deleting a null
  or already deleted core, which the source never does from a valid state, is not modelled as an
  error path.
