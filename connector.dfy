/** flameKitsuConnector: the connector's session state, its short cache loop, the
    cancellable sleep of that loop and the foreground refresh of the open projects. */
module Connector {
  import opened Values
  import opened AdaptiveTimeout
  import opened ShortLoop

  /** The nominal timeout, in seconds, the connector starts its short loop with. */
  const ShortLoopTimeout: real := 4.0

  class KitsuConnector {
    var user: Option<Entity>
    var linkedProject: Option<string>
    var linkedProjectId: Option<string>
    var pipelineData: PipelineData

    /** The state the connector's constructor leaves: `user` is what the login attempt
        returned and the linked project is what the Flame project names; `pipeline_data`
        is empty. */
    constructor (user: Option<Entity>, linkedProject: Option<string>, linkedProjectId: Option<string>)
      ensures this.user == user && this.linkedProject == linkedProject
      ensures this.linkedProjectId == linkedProjectId
      ensures pipelineData == NoPipelineData
    {
      this.user := user;
      this.linkedProject := linkedProject;
      this.linkedProjectId := linkedProjectId;
      pipelineData := NoPipelineData;
    }

    /** Python truthiness of `self.user`. */
    predicate HasUser()
      reads this`user
    {
      user.Some? && user.value != map[]
    }

    /** `cache_short_loop(timeout)` run over a schedule of inputs, one per pass of its
        `while self.threads` loop. Returns the final window of recent durations and the
        target of every `loop_timeout` call. */
    method CacheShortLoop(timeout: real, schedule: seq<TickInput>)
      returns (window: seq<real>, targets: seq<real>, ending: Ending)
      modifies this`pipelineData
      ensures var r := Run(HasUser(), linkedProjectId, timeout, old(pipelineData), InitialWindow(timeout), schedule);
        pipelineData == r.data && window == r.window && targets == r.targets && ending == r.ending
    {
      window := InitialWindow(timeout);
      targets := [];
      ending := ScheduleExhausted;
      ghost var hasUser, linkedId := HasUser(), linkedProjectId;
      ghost var whole := Run(hasUser, linkedId, timeout, pipelineData, window, schedule);
      var i := 0;
      while i < |schedule|
        invariant 0 <= i <= |schedule|
        invariant |window| == WindowSize
        invariant hasUser == HasUser() && linkedId == linkedProjectId
        invariant whole == Resume(targets, Run(hasUser, linkedId, timeout, pipelineData, window, schedule[i..]))
      {
        var inp := schedule[i];
        if !inp.running {
          RunStops(hasUser, linkedId, timeout, pipelineData, window, schedule, i, targets);
          ending := FlagCleared;
          break;
        }
        ghost var before := pipelineData;
        var path, nextWindow, target, cutShort := ShortLoopTick(timeout, window, inp);
        if path == LogOutRaised {
          RunDies(hasUser, linkedId, timeout, before, window, schedule, i, targets,
            Tick(path, pipelineData, nextWindow, target, cutShort));
          ending := LoopDied;
          break;
        }
        RunContinues(hasUser, linkedId, timeout, before, window, schedule, i, targets,
          Tick(path, pipelineData, nextWindow, target, cutShort));
        window := nextWindow;
        targets := targets + (if target.Some? then [target.value] else []);
        i := i + 1;
      }
      if i == |schedule| {
        assert schedule[i..] == [];
      }
    }

    /** One pass of the body of `cache_short_loop`'s loop, with the window of recent
        durations as it stands: the path it takes, the window it leaves, the target it
        hands to `loop_timeout` and whether that sleep saw the run flag cleared. */
    method ShortLoopTick(timeout: real, window: seq<real>, inp: TickInput)
      returns (path: Path, nextWindow: seq<real>, target: Option<real>, cutShort: bool)
      requires |window| == WindowSize
      modifies this`pipelineData
      ensures Tick(path, pipelineData, nextWindow, target, cutShort) ==
        Step(HasUser(), linkedProjectId, timeout, old(pipelineData), window, inp)
    {
      nextWindow, target, cutShort := window, None, false;
      var hasUser, linkedId := HasUser(), linkedProjectId;
      if !hasUser && !IsSet(linkedId) {
        // time.sleep(1)
        return NoUserNoId, nextWindow, target, cutShort;
      }
      if hasUser && inp.clientCreated {
        StoreProjects(inp.openProjects);
      }
      if !IsSet(linkedId) {
        // log_out, then time.sleep(1)
        path := if inp.logOutOk then NoLinkedId else LogOutRaised;
        return;
      }
      var activeProjects := pipelineData.activeProjects;
      if activeProjects.None? || activeProjects.value == [] {
        // log_out, then time.sleep(1)
        path := if inp.logOutOk then NoActiveProjects else LogOutRaised;
        return;
      }
      var currentProject := CurrentProject(activeProjects.value, linkedId);
      match inp.tasksFor(currentProject) {
        case Ok(tasks) =>
          pipelineData := pipelineData.(allTasksForProject := Some(tasks));
        case Err =>
      }
      if !inp.logOutOk {
        return LogOutRaised, nextWindow, target, cutShort;
      }
      var sleepTarget;
      nextWindow, sleepTarget, cutShort := Measure(timeout, window, inp.delta, inp.sleepElapsed, inp.sleepFlags);
      return Synced, nextWindow, Some(sleepTarget), cutShort;
    }

    /** The store of an `all_open_projects` answer into `pipeline_data`: the list replaces
        `active_projects`, an empty one as the placeholder; an exception changes nothing. */
    method StoreProjects(fetched: Fetch<seq<Entity>>)
      modifies this`pipelineData
      ensures pipelineData == StoreOpenProjects(old(pipelineData), fetched)
    {
      match fetched {
        case Ok(projects) =>
          pipelineData := pipelineData.(activeProjects := Some(projects));
          if projects == [] {
            pipelineData := pipelineData.(activeProjects := Some(Placeholder));
          }
        case Err =>
      }
    }

    /** The end of a measured tick: the duration is clamped against the newest entry and
        replaces the oldest, the mean of the window sets the target, and `loop_timeout`
        sleeps towards it. `loop_timeout` returns nothing to the loop; what the loop goes on
        to see is the run flag itself, so a tick records whether its sleep stopped early
        because the flag was seen cleared. */
    method Measure(timeout: real, window: seq<real>, delta: real, elapsed: real, threads: nat -> bool)
      returns (nextWindow: seq<real>, sleepTarget: real, cutShort: bool)
      requires |window| == WindowSize
      ensures nextWindow == Advance(window, delta)
      ensures sleepTarget == SleepTarget(timeout, Mean(nextWindow))
      ensures cutShort <==> SleepCutShort(sleepTarget, elapsed, threads)
    {
      var clamped := delta;
      var lastDelta := window[|window| - 1];
      nextWindow := window[1..];
      if Abs(clamped - lastDelta) > lastDelta * 3.0 {
        clamped := lastDelta * 3.0;
      }
      nextWindow := nextWindow + [clamped];
      var avgDelta := Sum(nextWindow) / (|nextWindow| as real);
      sleepTarget := if avgDelta > timeout / 2.0 then avgDelta * 2.0 else timeout;
      var sleeps := LoopTimeout(sleepTarget, elapsed, threads);
      cutShort := sleeps < SleepBudget(sleepTarget, elapsed);
    }

    /** `loop_timeout(timeout, start)` when `elapsed` seconds have passed since `start` and
        `threads(n)` is the run flag seen before step n. Returns the number of 0.1 s sleeps:
        the first step at which the flag is seen false, or the whole budget. */
    method LoopTimeout(timeout: real, elapsed: real, threads: nat -> bool) returns (sleeps: nat)
      ensures timeout <= Trunc(elapsed) as real ==> sleeps == 0
      ensures sleeps <= SleepBudget(timeout, elapsed)
      ensures forall n :: 0 <= n < sleeps ==> threads(n)
      ensures sleeps < SleepBudget(timeout, elapsed) ==> !threads(sleeps)
    {
      var timePassed := Trunc(elapsed);
      if timeout <= timePassed as real {
        return 0;
      }
      var steps := Trunc(timeout - timePassed as real) * 10;
      sleeps := 0;
      while sleeps < steps
        invariant sleeps <= steps
        invariant forall n :: 0 <= n < sleeps ==> threads(n)
      {
        if !threads(sleeps) {
          break;
        }
        // time.sleep(0.1)
        sleeps := sleeps + 1;
      }
    }

    /** `scan_active_projects(fetched)`: with a user, the answer of `all_open_projects`
        replaces `active_projects` (an empty list as the placeholder); an exception or a
        missing user leaves `pipeline_data` as it was. */
    method ScanActiveProjects(fetched: Fetch<seq<Entity>>)
      modifies this`pipelineData
      ensures HasUser() ==> pipelineData == StoreOpenProjects(old(pipelineData), fetched)
      ensures !HasUser() ==> pipelineData == old(pipelineData)
      ensures ActiveProjectsNonEmpty(old(pipelineData)) ==> ActiveProjectsNonEmpty(pipelineData)
    {
      if HasUser() {
        StoreProjects(fetched);
      }
    }
  }
}
