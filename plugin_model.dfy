/**
 The plugin's lifecycle as a state machine over its globals: isPluginEnabled,
 the Discord core (counted as the number of live cores) and pluginStartTime,
 with a log of the requests the plugin hands to the Discord SDK. Each
 function is one entry point of the plugin; the Lifecycle class runs the same
 steps on mutable fields and is proved to agree with these functions.
 */
module PluginModel {
  import opened Host
  import opened Presence

  /** DFHack's command_result values that the plugin returns. */
  datatype CommandResult = CrOk | CrFailure | CrWrongUsage

  /**
   A raw state_change_event value other than the four world and map events,
   which DFHack numbers 0 to 3 in the order of the constructors below.
   */
  type OtherEventCode = c: int | c < 0 || 4 <= c witness -1

  /** DFHack's state_change_event: the four the plugin reacts to, and every other. */
  datatype StateChangeEvent = WorldLoaded | WorldUnloaded | MapLoaded | MapUnloaded | OtherEvent(code: OtherEventCode)

  /** What the plugin asks the SDK's activity manager to do. */
  datatype Request = Submit(activity: Activity) | Clear

  datatype Plugin = Plugin(enabled: bool, liveCores: int, startTime: uint64, requests: seq<Request>)

  /** The globals as the plugin is loaded: disabled, no core, a zero start time. */
  const Initial: Plugin := Plugin(false, 0, 0, [])

  /** A core is live exactly while the plugin is enabled. */
  predicate Inv(p: Plugin) {
    p.liveCores == if p.enabled then 1 else 0
  }

  /**
   initializeDiscord: when disabled, stamp the start time, then try to create
   the core (`created` says whether Core::Create produced one).
   */
  function InitializeDiscord(p: Plugin, created: bool, now: uint64): (r: (Plugin, bool))
    ensures r.1 <==> p.enabled || created
    ensures r.0.enabled == r.1 && r.0.requests == p.requests
    ensures p.enabled ==> r.0 == p
    ensures !p.enabled ==> r.0.startTime == now
    ensures Inv(p) ==> Inv(r.0)
  {
    if !p.enabled then
      var stamped := p.(startTime := now);
      if !created then (stamped, false)
      else (stamped.(liveCores := stamped.liveCores + 1, enabled := true), true)
    else (p, true)
  }

  /** deinitDiscord: when enabled, clear the activity, delete the core and disable. */
  function DeinitDiscord(p: Plugin): (q: Plugin)
    ensures !q.enabled && q.startTime == p.startTime
    ensures q.requests == if p.enabled then p.requests + [Clear] else p.requests
    ensures Inv(p) ==> q.liveCores == 0
  {
    if p.enabled then
      p.(requests := p.requests + [Clear], liveCores := p.liveCores - 1, enabled := false)
    else p
  }

  /** updateActivity: when enabled, submit the activity for the current host state. */
  function UpdateActivity(p: Plugin, tests: ModeTests, host: HostView): (q: Plugin)
    ensures q.enabled == p.enabled && q.liveCores == p.liveCores && q.startTime == p.startTime
    ensures !p.enabled ==> q == p
    ensures p.enabled ==> q.requests == p.requests + [Submit(Synchronize(host, tests, p.startTime))]
  {
    if p.enabled then
      p.(requests := p.requests + [Submit(Synchronize(host, tests, p.startTime))])
    else p
  }

  /** plugin_enable */
  function PluginEnable(p: Plugin, enable: bool, created: bool, now: uint64, tests: ModeTests, host: HostView)
    : (r: (Plugin, CommandResult))
    ensures r.1 == CrFailure <==> enable && !p.enabled && !created
    ensures r.1 != CrWrongUsage
    ensures r.0.enabled == (enable && (p.enabled || created))
    ensures !enable ==>
      r.0.startTime == p.startTime && r.0.requests == (if p.enabled then p.requests + [Clear] else p.requests)
    ensures enable && !p.enabled ==> r.0.startTime == now
    ensures Inv(p) ==> Inv(r.0)
  {
    if enable then
      if !p.enabled then
        var (p1, ok) := InitializeDiscord(p, created, now);
        if !ok then (p1, CrFailure) else (UpdateActivity(p1, tests, host), CrOk)
      else (p, CrOk)
    else (DeinitDiscord(p), CrOk)
  }

  predicate TriggersUpdate(ev: StateChangeEvent) {
    ev.WorldLoaded? || ev.WorldUnloaded? || ev.MapLoaded? || ev.MapUnloaded?
  }

  /** plugin_onstatechange */
  function PluginOnStateChange(p: Plugin, ev: StateChangeEvent, tests: ModeTests, host: HostView)
    : (r: (Plugin, CommandResult))
    ensures r.1 == CrOk
    ensures r.0.(requests := p.requests) == p
    ensures r.0.requests ==
      if p.enabled && TriggersUpdate(ev) then p.requests + [Submit(Synchronize(host, tests, p.startTime))]
      else p.requests
  {
    (if TriggersUpdate(ev) then UpdateActivity(p, tests, host) else p, CrOk)
  }

  /** The rich_presence command: refused while disabled; only `update` changes anything. */
  function RichPresence(p: Plugin, params: seq<string>, tests: ModeTests, host: HostView)
    : (r: (Plugin, CommandResult))
    ensures r.1 == CrWrongUsage <==> !p.enabled
    ensures r.1 == CrOk <==> p.enabled
    ensures r.0.(requests := p.requests) == p
    ensures r.0.requests ==
      if p.enabled && |params| > 0 && params[0] == "update" then
        p.requests + [Submit(Synchronize(host, tests, p.startTime))]
      else p.requests
  {
    if !p.enabled then (p, CrWrongUsage)
    else if |params| > 0 && params[0] == "update" then (UpdateActivity(p, tests, host), CrOk)
    else (p, CrOk)
  }

  /** plugin_init, without the command registration. */
  function PluginInit(p: Plugin, created: bool, now: uint64, tests: ModeTests, host: HostView)
    : (r: (Plugin, CommandResult))
    ensures r.1 == CrOk
    ensures r.0.enabled == (p.enabled || created)
    ensures !p.enabled && created ==> r.0.requests == p.requests + [Submit(Synchronize(host, tests, now))]
    ensures !(p.enabled || created) ==> r.0.requests == p.requests
    ensures !p.enabled ==> r.0.startTime == now
    ensures p.enabled ==> r.0.startTime == p.startTime
    ensures p.enabled ==> r.0.requests == p.requests + [Submit(Synchronize(host, tests, p.startTime))]
    ensures Inv(p) ==> Inv(r.0)
  {
    var (p1, ok) := InitializeDiscord(p, created, now);
    if !ok then (p1.(enabled := false), CrOk) else (UpdateActivity(p1, tests, host), CrOk)
  }

  /** plugin_shutdown */
  function PluginShutdown(p: Plugin): (r: (Plugin, CommandResult))
    ensures r.1 == CrOk && !r.0.enabled
    ensures !p.enabled ==> r.0 == p
    ensures p.enabled ==> r.0.requests == p.requests + [Clear] && r.0.startTime == p.startTime
    ensures Inv(p) ==> Inv(r.0)
  {
    (if p.enabled then DeinitDiscord(p) else p, CrOk)
  }

  // ---------------------------------------------------------------------
  // Runs of host events
  // ---------------------------------------------------------------------

  /** A call from the host into one of the plugin's entry points, with what the environment supplies. */
  datatype Event =
    | Init(created: bool, now: uint64, host: HostView)
    | Enable(enable: bool, created: bool, now: uint64, host: HostView)
    | StateChange(ev: StateChangeEvent, host: HostView)
    | Command(params: seq<string>, host: HostView)
    | Shutdown

  /** The plugin after the host makes one call into it. */
  function Step(p: Plugin, e: Event, tests: ModeTests): (q: Plugin)
    ensures Inv(p) ==> Inv(q)
    ensures !p.enabled && Passive(e) ==> q == p
  {
    match e
    case Init(created, now, host) => PluginInit(p, created, now, tests, host).0
    case Enable(enable, created, now, host) => PluginEnable(p, enable, created, now, tests, host).0
    case StateChange(ev, host) => PluginOnStateChange(p, ev, tests, host).0
    case Command(params, host) => RichPresence(p, params, tests, host).0
    case Shutdown => PluginShutdown(p).0
  }

  /** What the entry point answers the host for one call. */
  function StepResult(p: Plugin, e: Event, tests: ModeTests): (r: CommandResult)
    ensures r == CrWrongUsage <==> e.Command? && !p.enabled
    ensures r == CrFailure <==> e.Enable? && e.enable && !p.enabled && !e.created
  {
    match e
    case Init(created, now, host) => PluginInit(p, created, now, tests, host).1
    case Enable(enable, created, now, host) => PluginEnable(p, enable, created, now, tests, host).1
    case StateChange(ev, host) => PluginOnStateChange(p, ev, tests, host).1
    case Command(params, host) => RichPresence(p, params, tests, host).1
    case Shutdown => PluginShutdown(p).1
  }

  /** The plugin after the host makes the calls `events`, in order. */
  function Run(p: Plugin, events: seq<Event>, tests: ModeTests): (q: Plugin)
    ensures |p.requests| <= |q.requests| && q.requests[..|p.requests|] == p.requests
    decreases |events|
  {
    if events == [] then p
    else
      var q := Run(Step(p, events[0], tests), events[1..], tests);
      StepAppends(p, events[0], tests);
      q
  }

  /** Running a sequence and then one more call is running the longer sequence. */
  lemma {:induction false} RunSnoc(p: Plugin, events: seq<Event>, e: Event, tests: ModeTests)
    ensures Run(p, events + [e], tests) == Step(Run(p, events, tests), e, tests)
    decreases |events|
  {
    if events == [] {
      assert [e][1..] == [];
    } else {
      assert (events + [e])[0] == events[0];
      assert (events + [e])[1..] == events[1..] + [e];
      RunSnoc(Step(p, events[0], tests), events[1..], e, tests);
    }
  }

  /** An event that cannot enable the plugin or restamp its start time. */
  predicate Passive(e: Event) {
    e.StateChange? || e.Command? || e.Shutdown? || (e.Enable? && !e.enable)
  }

  // ---------------------------------------------------------------------
  // Properties of single entry points
  // ---------------------------------------------------------------------

  /** Initialising an enabled plugin succeeds and changes nothing. */
  lemma InitializeWhenEnabled(p: Plugin, created: bool, now: uint64)
    requires p.enabled
    ensures InitializeDiscord(p, created, now) == (p, true)
  {
  }

  /** Initialising a disabled plugin succeeds exactly when the core is created, and restamps the start time either way. */
  lemma InitializeWhenDisabled(p: Plugin, created: bool, now: uint64)
    requires !p.enabled && Inv(p)
    ensures var (q, ok) := InitializeDiscord(p, created, now);
      && ok == created && q.enabled == created && q.startTime == now
      && q.liveCores == (if created then 1 else 0) && q.requests == p.requests
  {
  }

  /** Deinitialising twice is deinitialising once: the second call is a no-op. */
  lemma DeinitIdempotent(p: Plugin)
    ensures DeinitDiscord(DeinitDiscord(p)) == DeinitDiscord(p)
    ensures !DeinitDiscord(p).enabled
  {
  }

  /** A successful enable from disabled creates one core and submits exactly one activity, stamped with the new start time. */
  lemma EnableFromDisabled(p: Plugin, created: bool, now: uint64, tests: ModeTests, host: HostView)
    requires !p.enabled && Inv(p)
    ensures var (q, r) := PluginEnable(p, true, created, now, tests, host);
      && (r == CrOk <==> created) && q.enabled == created && q.liveCores == (if created then 1 else 0)
      && q.requests == (if created then p.requests + [Submit(Synchronize(host, tests, now))] else p.requests)
  {
  }

  /** Enabling an enabled plugin is a no-op, so enabling twice in a row initialises and synchronises once. */
  lemma EnableIdempotent(p: Plugin, c1: bool, t1: uint64, h1: HostView, c2: bool, t2: uint64, h2: HostView, tests: ModeTests)
    ensures var (q, r) := PluginEnable(p, true, c1, t1, tests, h1);
      q.enabled ==> r == CrOk && PluginEnable(q, true, c2, t2, tests, h2) == (q, CrOk)
  {
  }

  /** updateActivity does nothing while disabled. */
  lemma UpdateWhenDisabled(p: Plugin, tests: ModeTests, host: HostView)
    requires !p.enabled
    ensures UpdateActivity(p, tests, host) == p
  {
  }

  /** An enabled plugin submits exactly one activity per update, anchored at the stored start time. */
  lemma UpdateWhenEnabled(p: Plugin, tests: ModeTests, host: HostView)
    requires p.enabled
    ensures var q := UpdateActivity(p, tests, host);
      && q.(requests := p.requests) == p
      && |q.requests| == |p.requests| + 1 && q.requests[..|p.requests|] == p.requests
      && q.requests[|p.requests|].Submit? && q.requests[|p.requests|].activity.start == p.startTime
  {
  }

  /** State changes submit an activity only for the four world and map events, and only while enabled. */
  lemma StateChangeSubmits(p: Plugin, ev: StateChangeEvent, tests: ModeTests, host: HostView)
    ensures var (q, r) := PluginOnStateChange(p, ev, tests, host);
      && r == CrOk
      && (q == p <==> !(p.enabled && TriggersUpdate(ev)))
  {
  }

  /** The command is refused while disabled and then changes nothing. */
  lemma CommandWhenDisabled(p: Plugin, params: seq<string>, tests: ModeTests, host: HostView)
    requires !p.enabled
    ensures RichPresence(p, params, tests, host) == (p, CrWrongUsage)
  {
  }

  /** While enabled, the command succeeds and submits exactly when its first parameter is `update`. */
  lemma CommandWhenEnabled(p: Plugin, params: seq<string>, tests: ModeTests, host: HostView)
    requires p.enabled
    ensures var (q, r) := RichPresence(p, params, tests, host);
      && r == CrOk
      && (q == p <==> !(|params| > 0 && params[0] == "update"))
  {
    if |params| > 0 && params[0] == "update" {
      UpdateWhenEnabled(p, tests, host);
    }
  }

  /** Shutdown always leaves the plugin disabled with no core, and is a no-op when disabled. */
  lemma ShutdownDisables(p: Plugin)
    requires Inv(p)
    ensures var (q, r) := PluginShutdown(p);
      r == CrOk && !q.enabled && q.liveCores == 0 && (!p.enabled ==> q == p)
  {
  }

  /** Every entry point keeps the one-core invariant. */
  lemma StepKeepsInv(p: Plugin, e: Event, tests: ModeTests)
    requires Inv(p)
    ensures Inv(Step(p, e, tests))
  {
  }

  /** A step only appends to the request log; what it appends is submitted only by an enabled plugin, at its start time. */
  lemma StepAppends(p: Plugin, e: Event, tests: ModeTests)
    ensures var q := Step(p, e, tests);
      && |p.requests| <= |q.requests| && q.requests[..|p.requests|] == p.requests
      && forall i :: |p.requests| <= i < |q.requests| && q.requests[i].Submit? ==>
           q.enabled && q.requests[i].activity.start == q.startTime
  {
  }

  // ---------------------------------------------------------------------
  // Properties of runs
  // ---------------------------------------------------------------------

  /** However the host drives the plugin, at most one core is ever live, and exactly one while enabled. */
  lemma {:induction false} RunKeepsInv(p: Plugin, events: seq<Event>, tests: ModeTests)
    requires Inv(p)
    ensures Inv(Run(p, events, tests))
    ensures 0 <= Run(p, events, tests).liveCores <= 1
    decreases |events|
  {
    if events != [] {
      StepKeepsInv(p, events[0], tests);
      RunKeepsInv(Step(p, events[0], tests), events[1..], tests);
    }
  }

  /** From load, every sequence of entry-point calls leaves no leaked core. */
  lemma AtMostOneLiveCore(events: seq<Event>, tests: ModeTests)
    ensures 0 <= Run(Initial, events, tests).liveCores <= 1
    ensures Run(Initial, events, tests).liveCores == 1 <==> Run(Initial, events, tests).enabled
  {
    RunKeepsInv(Initial, events, tests);
  }

  /** A disabled plugin stays exactly as it is under events that cannot enable it. */
  lemma {:induction false} DisabledRunUnchanged(p: Plugin, events: seq<Event>, tests: ModeTests)
    requires !p.enabled
    requires forall i :: 0 <= i < |events| ==> Passive(events[i])
    ensures Run(p, events, tests) == p
    decreases |events|
  {
    if events != [] {
      assert Passive(events[0]);
      assert Step(p, events[0], tests) == p;
      DisabledRunUnchanged(p, events[1..], tests);
    }
  }

  /**
   An enabled plugin driven by state changes and commands keeps its core and
   start time, and every activity it submits carries that same start time.
   */
  lemma {:induction false} EnabledRunKeepsAnchor(p: Plugin, events: seq<Event>, tests: ModeTests)
    requires p.enabled
    requires forall i :: 0 <= i < |events| ==> events[i].StateChange? || events[i].Command?
    ensures var q := Run(p, events, tests);
      && q.enabled && q.liveCores == p.liveCores && q.startTime == p.startTime
      && |p.requests| <= |q.requests| && q.requests[..|p.requests|] == p.requests
      && forall i :: |p.requests| <= i < |q.requests| ==>
           q.requests[i].Submit? && q.requests[i].activity.start == p.startTime
    decreases |events|
  {
    if events != [] {
      var p1 := Step(p, events[0], tests);
      assert events[0].StateChange? || events[0].Command?;
      assert p1.enabled && p1.liveCores == p.liveCores && p1.startTime == p.startTime;
      assert |p.requests| <= |p1.requests| && p1.requests[..|p.requests|] == p.requests;
      assert forall i :: |p.requests| <= i < |p1.requests| ==>
        p1.requests[i].Submit? && p1.requests[i].activity.start == p.startTime;
      EnabledRunKeepsAnchor(p1, events[1..], tests);
      var q := Run(p1, events[1..], tests);
      assert q.requests[..|p1.requests|] == p1.requests;
      forall i | |p.requests| <= i < |q.requests|
        ensures q.requests[i].Submit? && q.requests[i].activity.start == p.startTime
      {
        if i < |p1.requests| {
          assert q.requests[i] == p1.requests[i];
        }
      }
    }
  }
}
