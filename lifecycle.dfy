/**
 The plugin's globals and entry points as an object: `enabled` is
 isPluginEnabled, `liveCores` counts the Discord cores created and not yet
 deleted, `startTime` is pluginStartTime, and the ghost `requests` log records
 what is handed to the SDK's activity manager. Every method does what the
 corresponding entry point does, step by step, and is proved to agree with
 the state machine of PluginModel, whose lemmas then apply to any sequence
 of calls.
 */
module Lifecycle {
  import opened Host
  import opened Presence
  import PluginModel

  class RichPresencePlugin {
    var enabled: bool
    var liveCores: int
    var startTime: uint64
    ghost var requests: seq<PluginModel.Request>
    /** DFHack's mode predicates, fixed for the life of the plugin. */
    const tests: ModeTests

    ghost function State(): PluginModel.Plugin
      reads this
    {
      PluginModel.Plugin(enabled, liveCores, startTime, requests)
    }

    /** At most one core, and it is live exactly while enabled. */
    ghost predicate Valid()
      reads this
    {
      PluginModel.Inv(State())
    }

    constructor (tests: ModeTests)
      ensures Valid() && State() == PluginModel.Initial && this.tests == tests
    {
      enabled := false;
      liveCores := 0;
      startTime := 0;
      requests := [];
      this.tests := tests;
    }

    /** initializeDiscord; `created` is whether Core::Create produced a core, `now` the clock reading. */
    method InitializeDiscord(created: bool, now: uint64) returns (ok: bool)
      requires Valid()
      modifies this
      ensures Valid()
      ensures (State(), ok) == PluginModel.InitializeDiscord(old(State()), created, now)
      ensures old(enabled) ==> ok && State() == old(State())
      ensures !old(enabled) ==> ok == created && enabled == created && startTime == now
      ensures requests == old(requests)
    {
      if !enabled {
        startTime := now;
        if !created {
          return false;
        }
        liveCores := liveCores + 1;
        enabled := true;
      }
      return true;
    }

    /** deinitDiscord */
    method DeinitDiscord()
      requires Valid()
      modifies this
      ensures Valid()
      ensures State() == PluginModel.DeinitDiscord(old(State()))
      ensures !enabled && liveCores == 0 && startTime == old(startTime)
      ensures requests == if old(enabled) then old(requests) + [PluginModel.Clear] else old(requests)
    {
      if enabled {
        requests := requests + [PluginModel.Clear];
        liveCores := liveCores - 1;
        enabled := false;
      }
    }

    /** updateActivity, reading the host state `host`. */
    method UpdateActivity(host: HostView)
      requires Valid()
      modifies this
      ensures Valid()
      ensures State() == PluginModel.UpdateActivity(old(State()), tests, host)
      ensures enabled == old(enabled) && liveCores == old(liveCores) && startTime == old(startTime)
      ensures requests ==
        if enabled then old(requests) + [PluginModel.Submit(Synchronize(host, tests, startTime))]
        else old(requests)
    {
      if enabled {
        var activity := Synchronize(host, tests, startTime);
        requests := requests + [PluginModel.Submit(activity)];
      }
    }

    /** plugin_enable */
    method PluginEnable(enable: bool, created: bool, now: uint64, host: HostView) returns (r: PluginModel.CommandResult)
      requires Valid()
      modifies this
      ensures Valid()
      ensures (State(), r) == PluginModel.PluginEnable(old(State()), enable, created, now, tests, host)
      ensures enable && old(enabled) ==> r == PluginModel.CrOk && State() == old(State())
      ensures !enable ==> r == PluginModel.CrOk && !enabled && liveCores == 0
    {
      if enable {
        if !enabled {
          var ok := InitializeDiscord(created, now);
          if !ok {
            return PluginModel.CrFailure;
          }
          UpdateActivity(host);
        }
      } else {
        DeinitDiscord();
      }
      return PluginModel.CrOk;
    }

    /** plugin_onstatechange */
    method PluginOnStateChange(ev: PluginModel.StateChangeEvent, host: HostView) returns (r: PluginModel.CommandResult)
      requires Valid()
      modifies this
      ensures Valid()
      ensures (State(), r) == PluginModel.PluginOnStateChange(old(State()), ev, tests, host)
      ensures !old(enabled) ==> State() == old(State())
    {
      match ev {
        case WorldLoaded => UpdateActivity(host);
        case WorldUnloaded => UpdateActivity(host);
        case MapLoaded => UpdateActivity(host);
        case MapUnloaded => UpdateActivity(host);
        case OtherEvent(_) =>
      }
      return PluginModel.CrOk;
    }

    /** The rich_presence command with its parameters; only `update` reaches the SDK. */
    method RichPresence(params: seq<string>, host: HostView) returns (r: PluginModel.CommandResult)
      requires Valid()
      modifies this
      ensures Valid()
      ensures (State(), r) == PluginModel.RichPresence(old(State()), params, tests, host)
      ensures !old(enabled) ==> r == PluginModel.CrWrongUsage && State() == old(State())
    {
      if !enabled {
        return PluginModel.CrWrongUsage;
      }
      if |params| > 0 {
        if params[0] == "update" {
          UpdateActivity(host);
        }
      }
      return PluginModel.CrOk;
    }

    /** plugin_init, without the command registration. */
    method PluginInit(created: bool, now: uint64, host: HostView) returns (r: PluginModel.CommandResult)
      requires Valid()
      modifies this
      ensures Valid()
      ensures (State(), r) == PluginModel.PluginInit(old(State()), created, now, tests, host)
      ensures r == PluginModel.CrOk
    {
      var ok := InitializeDiscord(created, now);
      if !ok {
        enabled := false;
      } else {
        UpdateActivity(host);
      }
      return PluginModel.CrOk;
    }

    /** plugin_shutdown */
    method PluginShutdown() returns (r: PluginModel.CommandResult)
      requires Valid()
      modifies this
      ensures Valid()
      ensures (State(), r) == PluginModel.PluginShutdown(old(State()))
      ensures r == PluginModel.CrOk && !enabled && liveCores == 0
    {
      if enabled {
        DeinitDiscord();
      }
      return PluginModel.CrOk;
    }

    /** One call from the host into the plugin, dispatched to its entry point. */
    method Dispatch(e: PluginModel.Event) returns (r: PluginModel.CommandResult)
      requires Valid()
      modifies this
      ensures Valid()
      ensures State() == PluginModel.Step(old(State()), e, tests)
      ensures r == PluginModel.StepResult(old(State()), e, tests)
    {
      match e {
        case Init(created, now, host) =>
          r := PluginInit(created, now, host);
        case Enable(enable, created, now, host) =>
          r := PluginEnable(enable, created, now, host);
        case StateChange(ev, host) =>
          r := PluginOnStateChange(ev, host);
        case Command(params, host) =>
          r := RichPresence(params, host);
        case Shutdown =>
          r := PluginShutdown();
      }
    }

    /**
     The host's calls `events`, in order. The object ends in the state that
     PluginModel.Run gives, so the run lemmas hold of it, and each call's
     answer is the one its entry point gives in the state the earlier calls
     left.
     */
    method Drive(events: seq<PluginModel.Event>) returns (results: seq<PluginModel.CommandResult>)
      requires Valid()
      modifies this
      ensures Valid()
      ensures State() == PluginModel.Run(old(State()), events, tests)
      ensures |results| == |events|
      ensures forall k :: 0 <= k < |results| ==>
        results[k] == PluginModel.StepResult(PluginModel.Run(old(State()), events[..k], tests), events[k], tests)
      ensures 0 <= liveCores <= 1
    {
      results := [];
      var i := 0;
      while i < |events|
        invariant 0 <= i <= |events| && |results| == i
        invariant Valid()
        invariant State() == PluginModel.Run(old(State()), events[..i], tests)
        invariant forall k :: 0 <= k < |results| ==>
          results[k] == PluginModel.StepResult(PluginModel.Run(old(State()), events[..k], tests), events[k], tests)
      {
        PluginModel.RunSnoc(old(State()), events[..i], events[i], tests);
        assert events[..i + 1] == events[..i] + [events[i]];
        var r := Dispatch(events[i]);
        results := results + [r];
        i := i + 1;
      }
      assert events[..i] == events;
    }
  }
}
