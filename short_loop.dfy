/** The short cache loop of flameKitsuConnector (`cache_short_loop`) as a state machine.
    One tick reads the connector's user and linked project id, may refresh the
    `active_projects` and `all_tasks_for_project` entries of `pipeline_data`, and, when it
    gets as far as measuring itself, moves the window of recent durations and picks the
    next sleep target. Everything the tick learns from outside (the Kitsu client's
    answers, whether `log_out` raised, the clock, the run flag) is an input. */
module ShortLoop {
  import opened Values
  import opened AdaptiveTimeout

  /** The entries of `pipeline_data` the short loop writes; None is a missing key. */
  datatype PipelineData = PipelineData(
    activeProjects: Option<seq<Entity>>,
    allTasksForProject: Option<seq<Entity>>)

  /** `pipeline_data = {}`. */
  const NoPipelineData := PipelineData(None, None)

  /** `[{}]`: the list stored when Kitsu reports no open project. */
  const Placeholder: seq<Entity> := [map[]]

  /** Once `active_projects` is stored it is never an empty list. */
  predicate ActiveProjectsNonEmpty(d: PipelineData) {
    d.activeProjects.Some? ==> d.activeProjects.value != []
  }

  /** Storing the answer of `all_open_projects`: on success the list replaces
      `active_projects` (an empty list as the placeholder), on an exception nothing
      changes. */
  function StoreOpenProjects(d: PipelineData, fetched: Fetch<seq<Entity>>): (r: PipelineData)
    ensures r.allTasksForProject == d.allTasksForProject
    ensures fetched.Err? ==> r == d
    ensures fetched.Ok? && fetched.value != [] ==> r.activeProjects == Some(fetched.value)
    ensures fetched.Ok? && fetched.value == [] ==> r.activeProjects == Some(Placeholder)
    ensures ActiveProjectsNonEmpty(d) ==> ActiveProjectsNonEmpty(r)
  {
    match fetched
    case Err => d
    case Ok(ps) => d.(activeProjects := Some(if ps == [] then Placeholder else ps))
  }

  /** `{x.get('id'): x for x in projects}`: later projects with the same id win. */
  function ProjectsById(ps: seq<Entity>): map<Option<string>, Entity> {
    if ps == [] then map[]
    else ProjectsById(ps[..|ps| - 1])[Field(ps[|ps| - 1], "id") := ps[|ps| - 1]]
  }

  /** `projects_by_id.get(self.linked_project_id)`. */
  function CurrentProject(ps: seq<Entity>, id: Option<string>): Option<Entity> {
    var byId := ProjectsById(ps);
    if id in byId then Some(byId[id]) else None
  }

  /** The current project is the last project of the list carrying the linked id, and
      there is none exactly when no project carries it. */
  lemma {:induction false} CurrentProjectIsLastMatch(ps: seq<Entity>, id: Option<string>)
    ensures CurrentProject(ps, id).None? <==> forall i :: 0 <= i < |ps| ==> Field(ps[i], "id") != id
    ensures CurrentProject(ps, id).Some? ==>
      exists i :: 0 <= i < |ps| && ps[i] == CurrentProject(ps, id).value && Field(ps[i], "id") == id &&
        forall j :: i < j < |ps| ==> Field(ps[j], "id") != id
  {
    if ps != [] {
      var init, last := ps[..|ps| - 1], ps[|ps| - 1];
      CurrentProjectIsLastMatch(init, id);
      if Field(last, "id") == id {
        assert ps[|ps| - 1] == last;
      } else {
        assert CurrentProject(ps, id) == CurrentProject(init, id);
        forall i | 0 <= i < |init|
          ensures ps[i] == init[i]
        {
        }
        if CurrentProject(init, id).Some? {
          var i :| 0 <= i < |init| && init[i] == CurrentProject(init, id).value && Field(init[i], "id") == id &&
            forall j :: i < j < |init| ==> Field(init[j], "id") != id;
          assert ps[i] == CurrentProject(ps, id).value && Field(ps[i], "id") == id;
          assert forall j :: i < j < |ps| ==> Field(ps[j], "id") != id;
        }
      }
    }
  }

  /** What one pass of the loop body learns from outside. */
  datatype TickInput = TickInput(
    running: bool,                                  // `self.threads` at the loop head
    clientCreated: bool,                            // `create_client` returned a client
    openProjects: Fetch<seq<Entity>>,               // `all_open_projects`
    tasksFor: Option<Entity> -> Fetch<seq<Entity>>, // `all_tasks_for_project(current_project)`
    logOutOk: bool,                                 // `log_out` returned instead of raising
    delta: real,                                    // `time.time() - start` after `log_out`
    sleepElapsed: real,                             // `time.time() - start` inside `loop_timeout`
    sleepFlags: nat -> bool)                        // `self.threads` before each 0.1 s step

  /** How a tick ends: one of the three idle `continue`s (each after `time.sleep(1)`), a
      measured tick followed by `loop_timeout`, or an exception from the `log_out` calls,
      which sit outside any `try` and end the loop's thread. */
  datatype Path = NoUserNoId | NoLinkedId | NoActiveProjects | Synced | LogOutRaised

  /** What one pass leaves: its path, the data and window after it, the target handed to
      `loop_timeout`, and whether that sleep was cut short by a cleared run flag. */
  datatype Tick = Tick(path: Path, data: PipelineData, window: seq<real>, target: Option<real>, cutShort: bool)

  /** One pass of the loop body. */
  function Step(hasUser: bool, linkedId: Option<string>, timeout: real,
                data: PipelineData, window: seq<real>, inp: TickInput): (t: Tick)
    requires window != []
    ensures !hasUser && !IsSet(linkedId) ==> t == Tick(NoUserNoId, data, window, None, false)
    ensures t.path == Synced <==>
      (IsSet(linkedId) && t.data.activeProjects.Some? && t.data.activeProjects.value != [] && inp.logOutOk)
    // which way a tick leaves: every `log_out` past the idle check can raise and end the thread
    ensures t.path == LogOutRaised <==> (hasUser || IsSet(linkedId)) && !inp.logOutOk
    ensures t.path == NoLinkedId <==> hasUser && !IsSet(linkedId) && inp.logOutOk
    ensures t.path == NoActiveProjects <==>
      IsSet(linkedId) && (t.data.activeProjects.None? || t.data.activeProjects.value == []) && inp.logOutOk
    ensures t.path != Synced ==> t.window == window && t.target == None
    ensures t.path == Synced ==>
      t.window == Advance(window, inp.delta) && t.target == Some(SleepTarget(timeout, Mean(t.window)))
    ensures |t.window| == |window|
    // only a measured tick sleeps, and its sleep is cut short exactly when `loop_timeout` sees the flag cleared
    ensures t.cutShort <==>
      t.path == Synced && SleepCutShort(t.target.value, inp.sleepElapsed, inp.sleepFlags)
    ensures t.target.Some? ==> t.target.value >= timeout
    ensures ActiveProjectsNonEmpty(data) ==> ActiveProjectsNonEmpty(t.data)
    ensures t.data.activeProjects != data.activeProjects ==>
      hasUser && inp.clientCreated && inp.openProjects.Ok? &&
      t.data.activeProjects == StoreOpenProjects(data, inp.openProjects).activeProjects
    ensures t.data.allTasksForProject != data.allTasksForProject ==>
      IsSet(linkedId) && t.data.activeProjects.Some? && t.data.allTasksForProject.Some? &&
      inp.tasksFor(CurrentProject(t.data.activeProjects.value, linkedId)) == Ok(t.data.allTasksForProject.value)
    // with a user and a client the answer of `all_open_projects` is stored; otherwise nothing is
    ensures hasUser && inp.clientCreated ==>
      t.data.activeProjects == StoreOpenProjects(data, inp.openProjects).activeProjects
    ensures !(hasUser && inp.clientCreated) ==> t.data.activeProjects == data.activeProjects
    // past the two early exits the answer of `all_tasks_for_project` is stored; an exception keeps the old one
    ensures IsSet(linkedId) && t.data.activeProjects.Some? && t.data.activeProjects.value != [] ==>
      t.data.allTasksForProject ==
        match inp.tasksFor(CurrentProject(t.data.activeProjects.value, linkedId))
        case Ok(ts) => Some(ts)
        case Err => data.allTasksForProject
    ensures !(IsSet(linkedId) && t.data.activeProjects.Some? && t.data.activeProjects.value != []) ==>
      t.data.allTasksForProject == data.allTasksForProject
  {
    if !hasUser && !IsSet(linkedId) then
      Tick(NoUserNoId, data, window, None, false)
    else
      var fetched := if hasUser && inp.clientCreated then StoreOpenProjects(data, inp.openProjects) else data;
      if !IsSet(linkedId) then
        Tick(if inp.logOutOk then NoLinkedId else LogOutRaised, fetched, window, None, false)
      else if fetched.activeProjects.None? || fetched.activeProjects.value == [] then
        Tick(if inp.logOutOk then NoActiveProjects else LogOutRaised, fetched, window, None, false)
      else
        var current := CurrentProject(fetched.activeProjects.value, linkedId);
        var stored := match inp.tasksFor(current)
          case Ok(ts) => fetched.(allTasksForProject := Some(ts))
          case Err => fetched;
        if !inp.logOutOk then
          Tick(LogOutRaised, stored, window, None, false)
        else
          var w := Advance(window, inp.delta);
          var target := SleepTarget(timeout, Mean(w));
          Tick(Synced, stored, w, Some(target), SleepCutShort(target, inp.sleepElapsed, inp.sleepFlags))
  }

  /** Why the loop stopped: the schedule of inputs ran out, the run flag was seen false
      at the loop head, or `log_out` raised. */
  datatype Ending = ScheduleExhausted | FlagCleared | LoopDied

  datatype RunResult = RunResult(data: PipelineData, window: seq<real>, targets: seq<real>, ending: Ending)

  /** The loop over a schedule of inputs: the final state and the targets of every
      measured tick, in order. */
  function Run(hasUser: bool, linkedId: Option<string>, timeout: real,
               data: PipelineData, window: seq<real>, schedule: seq<TickInput>): (r: RunResult)
    requires window != []
    ensures |r.window| == |window|
    ensures |r.targets| <= |schedule|
    ensures forall i :: 0 <= i < |r.targets| ==> r.targets[i] >= timeout
    ensures ActiveProjectsNonEmpty(data) ==> ActiveProjectsNonEmpty(r.data)
    ensures data.activeProjects.Some? ==> r.data.activeProjects.Some?
    decreases |schedule|
  {
    if schedule == [] then
      RunResult(data, window, [], ScheduleExhausted)
    else if !schedule[0].running then
      RunResult(data, window, [], FlagCleared)
    else
      var t := Step(hasUser, linkedId, timeout, data, window, schedule[0]);
      if t.path == LogOutRaised then
        RunResult(t.data, t.window, [], LoopDied)
      else
        var rest := Run(hasUser, linkedId, timeout, t.data, t.window, schedule[1..]);
        var here := if t.target.Some? then [t.target.value] else [];
        RunResult(rest.data, rest.window, here + rest.targets, rest.ending)
  }

  /** The targets of the ticks already run, followed by the result of the rest of the run. */
  function Resume(targets: seq<real>, r: RunResult): RunResult {
    RunResult(r.data, r.window, targets + r.targets, r.ending)
  }

  /** A tick that does not end the loop hands the rest of the schedule to the next one. */
  lemma {:induction false} RunContinues(hasUser: bool, linkedId: Option<string>, timeout: real, data: PipelineData,
      window: seq<real>, schedule: seq<TickInput>, i: nat, targets: seq<real>, t: Tick)
    requires window != [] && i < |schedule| && schedule[i].running
    requires t == Step(hasUser, linkedId, timeout, data, window, schedule[i]) && t.path != LogOutRaised
    ensures Resume(targets, Run(hasUser, linkedId, timeout, data, window, schedule[i..])) ==
      Resume(targets + (if t.target.Some? then [t.target.value] else []),
             Run(hasUser, linkedId, timeout, t.data, t.window, schedule[i + 1..]))
  {
    var rest := schedule[i..];
    assert rest[0] == schedule[i] && rest[1..] == schedule[i + 1..];
    var tail := Run(hasUser, linkedId, timeout, t.data, t.window, schedule[i + 1..]);
    var here := if t.target.Some? then [t.target.value] else [];
    assert targets + (here + tail.targets) == (targets + here) + tail.targets;
  }

  /** A cleared run flag at the loop head ends the run with the state as it stands. */
  lemma {:induction false} RunStops(hasUser: bool, linkedId: Option<string>, timeout: real, data: PipelineData,
      window: seq<real>, schedule: seq<TickInput>, i: nat, targets: seq<real>)
    requires window != [] && i < |schedule| && !schedule[i].running
    ensures Resume(targets, Run(hasUser, linkedId, timeout, data, window, schedule[i..])) ==
      RunResult(data, window, targets, FlagCleared)
  {
    assert schedule[i..][0] == schedule[i];
    assert targets + [] == targets;
  }

  /** A tick whose `log_out` raises ends the run with the state that tick left. */
  lemma {:induction false} RunDies(hasUser: bool, linkedId: Option<string>, timeout: real, data: PipelineData,
      window: seq<real>, schedule: seq<TickInput>, i: nat, targets: seq<real>, t: Tick)
    requires window != [] && i < |schedule| && schedule[i].running
    requires t == Step(hasUser, linkedId, timeout, data, window, schedule[i]) && t.path == LogOutRaised
    ensures Resume(targets, Run(hasUser, linkedId, timeout, data, window, schedule[i..])) ==
      RunResult(t.data, t.window, targets, LoopDied)
  {
    assert schedule[i..][0] == schedule[i];
    assert targets + [] == targets;
  }

  /** Without a user and without a linked project id the loop only idles: however long it
      runs, it never touches `pipeline_data` or the window and never measures a tick. */
  lemma {:induction false} IdleRunChangesNothing(linkedId: Option<string>, timeout: real,
      data: PipelineData, window: seq<real>, schedule: seq<TickInput>)
    requires window != [] && !IsSet(linkedId)
    ensures var r := Run(false, linkedId, timeout, data, window, schedule);
      r.data == data && r.window == window && r.targets == [] && r.ending != LoopDied
  {
    if schedule != [] && schedule[0].running {
      IdleRunChangesNothing(linkedId, timeout, data, window, schedule[1..]);
    }
  }

  /** The `log_out` calls sit outside any `try`: once a user or a linked id is set, a tick
      whose `log_out` raises ends the loop's thread for good, with the data that tick left,
      the window untouched and no further sleep target. */
  lemma {:induction false} LogOutFailureEndsLoop(hasUser: bool, linkedId: Option<string>, timeout: real,
      data: PipelineData, window: seq<real>, schedule: seq<TickInput>)
    requires window != [] && schedule != [] && schedule[0].running && !schedule[0].logOutOk
    requires hasUser || IsSet(linkedId)
    ensures var r := Run(hasUser, linkedId, timeout, data, window, schedule);
      r.ending == LoopDied && r.targets == [] && r.window == window &&
      r.data == Step(hasUser, linkedId, timeout, data, window, schedule[0]).data
  {
    var t := Step(hasUser, linkedId, timeout, data, window, schedule[0]);
    assert t.path == LogOutRaised;
  }

  /** The converse: as long as every `log_out` returns, the loop's thread never dies; it
      ends only when the schedule runs out or the run flag is seen cleared. */
  lemma {:induction false} LogOutOkNeverDies(hasUser: bool, linkedId: Option<string>, timeout: real,
      data: PipelineData, window: seq<real>, schedule: seq<TickInput>)
    requires window != []
    requires forall i :: 0 <= i < |schedule| ==> schedule[i].logOutOk
    ensures Run(hasUser, linkedId, timeout, data, window, schedule).ending != LoopDied
    decreases |schedule|
  {
    if schedule != [] && schedule[0].running {
      var t := Step(hasUser, linkedId, timeout, data, window, schedule[0]);
      assert t.path != LogOutRaised;
      LogOutOkNeverDies(hasUser, linkedId, timeout, t.data, t.window, schedule[1..]);
    }
  }

  /** `self.threads` is set once, when the connector starts, and afterwards only ever
      cleared (by `terminate_loops`): a flag seen cleared during a tick's sleep is still
      clear at the next loop head. */
  predicate FlagStaysCleared(t: Tick, next: TickInput) {
    t.cutShort ==> !next.running
  }

  /** Shutdown during the sleep: a measured tick whose `loop_timeout` sees the flag cleared
      is the last one. The loop ends at the next loop head with that tick's data and window
      and its target as the last one; no further call into Kitsu is made. */
  lemma {:induction false} StopDuringSleepEndsLoop(hasUser: bool, linkedId: Option<string>, timeout: real,
      data: PipelineData, window: seq<real>, schedule: seq<TickInput>)
    requires window != [] && |schedule| >= 2 && schedule[0].running
    requires Step(hasUser, linkedId, timeout, data, window, schedule[0]).cutShort
    requires FlagStaysCleared(Step(hasUser, linkedId, timeout, data, window, schedule[0]), schedule[1])
    ensures var t := Step(hasUser, linkedId, timeout, data, window, schedule[0]);
      t.target.Some? &&
      Run(hasUser, linkedId, timeout, data, window, schedule) == RunResult(t.data, t.window, [t.target.value], FlagCleared)
  {
    var t := Step(hasUser, linkedId, timeout, data, window, schedule[0]);
    assert t.path == Synced;
    var rest := schedule[1..];
    assert rest[0] == schedule[1];
    assert Run(hasUser, linkedId, timeout, t.data, t.window, rest) == RunResult(t.data, t.window, [], FlagCleared);
    assert [t.target.value] + [] == [t.target.value];
  }

  /** Stale but available while the loop lives: when every call into Kitsu raises,
      `pipeline_data` keeps what it held before the loop started, whether the loop keeps
      going (each `log_out` returned) or a raising `log_out` ended it. */
  lemma {:induction false} FailedFetchesKeepData(hasUser: bool, linkedId: Option<string>, timeout: real,
      data: PipelineData, window: seq<real>, schedule: seq<TickInput>)
    requires window != []
    requires forall i :: 0 <= i < |schedule| ==> schedule[i].openProjects.Err?
    requires forall i, p :: 0 <= i < |schedule| ==> schedule[i].tasksFor(p).Err?
    ensures Run(hasUser, linkedId, timeout, data, window, schedule).data == data
    decreases |schedule|
  {
    if schedule != [] && schedule[0].running {
      var t := Step(hasUser, linkedId, timeout, data, window, schedule[0]);
      assert t.data == data;
      FailedFetchesKeepData(hasUser, linkedId, timeout, data, t.window, schedule[1..]);
    }
  }

  /** A failed fetch leaves the stale list in place, and the next successful one fills the
      entry again: after a failing tick and a succeeding one, `active_projects` holds the
      answer of the second (the placeholder for an empty answer). */
  lemma {:induction false} FetchRecovers(linkedId: Option<string>, timeout: real, data: PipelineData,
      window: seq<real>, first: TickInput, second: TickInput, projects: seq<Entity>)
    requires window != []
    requires first.running && first.clientCreated && first.openProjects == Err && first.logOutOk
    requires second.running && second.clientCreated && second.openProjects == Ok(projects)
    ensures Run(true, linkedId, timeout, data, window, [first, second]).data.activeProjects ==
      Some(if projects == [] then Placeholder else projects)
  {
    var schedule := [first, second];
    assert schedule[0..] == schedule && schedule[1..] == [second] && schedule[1] == second;
    var t1 := Step(true, linkedId, timeout, data, window, first);
    assert t1.data.activeProjects == data.activeProjects;
    RunContinues(true, linkedId, timeout, data, window, schedule, 0, [], t1);
    var t2 := Step(true, linkedId, timeout, t1.data, t1.window, second);
    assert [second][0..] == [second] && [second][1..] == [];
    if t2.path == LogOutRaised {
      RunDies(true, linkedId, timeout, t1.data, t1.window, [second], 0, [], t2);
    } else {
      RunContinues(true, linkedId, timeout, t1.data, t1.window, [second], 0, [], t2);
    }
  }

  /** The window of recent durations always holds nine entries, and every sleep target is
      at least the nominal timeout. */
  lemma WindowKeepsNineEntries(hasUser: bool, linkedId: Option<string>, timeout: real,
      data: PipelineData, schedule: seq<TickInput>)
    ensures var r := Run(hasUser, linkedId, timeout, data, InitialWindow(timeout), schedule);
      |r.window| == WindowSize && forall i :: 0 <= i < |r.targets| ==> r.targets[i] >= timeout
  {
  }

  /** The connector's loop (timeout 4 s) after its first measured tick of `delta` seconds:
      the next sleep stays 4 s up to a 2 s tick and never exceeds 16/3 s, because the
      window starts at nine 2 s entries and a tick above 8 s counts as 6 s. */
  lemma FirstMeasuredTick(delta: real)
    requires delta >= 0.0
    ensures var w := Advance(InitialWindow(4.0), delta);
      4.0 <= SleepTarget(4.0, Mean(w)) <= 16.0 / 3.0 &&
      (delta <= 2.0 <==> SleepTarget(4.0, Mean(w)) == 4.0)
  {
    var w := Advance(InitialWindow(4.0), delta);
    assert w[..WindowSize - 1] == seq(WindowSize - 1, _ => 2.0);
    SumConstant(WindowSize - 1, 2.0);
    assert Sum(w) == 16.0 + Clamp(delta, 2.0);
  }
}
