# flameMenuKITSU connector core, modelled in Dafny

flameMenuKITSU is a Flame (Autodesk) menu hook set that talks to a Kitsu production
tracker through the `gazu` client. This project models the parts of `flameMenuKITSU.py`
that hold logic of their own. Everything around them is left out: the Qt dialogs, the
Flame menu layout and the network client.

- **Host normalisation** (`HostUrl`): the configured Kitsu host is forced to end in
  `/api/` before a client is created.
- **Preference views** (`Prefs`): `flameAppFramework.prefs_dict` is a view bound to a
  master dictionary and a section name. It forwards the operations it overrides to
  `master[name]`. The master is a class (`PrefsStore`) that several views (`PrefsDict`)
  share and update in place.
- **The short cache loop** (`AdaptiveTimeout`, `ShortLoop`, `Connector`):
  `cache_short_loop` is a state machine over the connector's user, its linked project id,
  the `active_projects` and `all_tasks_for_project` entries of `pipeline_data`, and a
  window of the nine most recent tick durations. The loop itself is the `while` loop of
  `KitsuConnector.CacheShortLoop`. Its body is `KitsuConnector.ShortLoopTick`. Both are
  proved against the pure specification `ShortLoop.Step` / `ShortLoop.Run`, and the
  properties are proved about that specification.
  - The answers of the Kitsu client are inputs: `Ok(v)` or `Err` (a raised exception).
  - Whether `log_out` raised is an input.
  - The two clock readings are inputs.
  - The run flag (`self.threads`) is an input, observed once at the loop head and once
    before each 0.1 s step of `loop_timeout`.
- **`loop_timeout`** (`KitsuConnector.LoopTimeout`): the cancellable sleep. It counts its
  0.1 s steps.
- **Project linking** (`ProjectConnect`): `link_project`, `unlink_project`, the
  constructor's rule that unlinks a project name without an id, and the handle-keyed
  dispatch through `dynamic_menu_data`. They update a `ProjectConnect` object and its
  `KitsuConnector`. They are proved against the pure functions `Linked`, `Dispatched` and
  `Reconciled`.

`flameMenuKITSU.py` starts one background loop, the short loop (line 511). It has no long
loop, no per-collection fan-out of fetches, no episode cross-referencing and no entity index,
so the model has none of these. The `log_out` calls of the loop (lines 800, 807, 819) sit
outside any `try`. A `log_out` that raises, for example while the server is down, ends
the loop's thread for the rest of the session. The clamp reads `recent_deltas[len(recent_deltas) - 1]`,
the *newest* entry, before the oldest is evicted.

## Model

| member | source | states |
|---|---|---|
| `HostUrl.NormalizeHost` | flameMenuKITSU.py:540-546 | A host already ending in `/api/` is returned unchanged, and only such a host is. Any other host gets exactly `api/` appended when it ends in `/`, and `/api/` otherwise. So the result always ends in `/api/` and is at most five characters longer. The `elif` branch is kept and proved dead. |
| `HostUrl.ApiBranchUnreachable` | flameMenuKITSU.py:545-546 | No host ends in both `/api/` and `/api`, so the `elif host.endswith('/api')` branch never runs. |
| `HostUrl.NormalizeHostIdempotent` | flameMenuKITSU.py:777-783 | Normalising twice gives the same host as normalising once. The same code is repeated in `cache_short_loop`. |
| `HostUrl.ApiSuffixDoubled` | flameMenuKITSU.py:540-546 | A host `h/api` becomes `h/api/api/`. |
| `HostUrl.NormalizeHostIntended` | flameMenuKITSU.py:545-546 | The corrected normalisation: `h/api` becomes `h/api/`. The result still always ends in `/api/` and leaves a `/api/` host unchanged. |
| `HostUrl.IntendedAgreesElsewhere` | flameMenuKITSU.py:540-546 | The written and the corrected normalisations differ exactly on hosts ending in `/api`. |
| `HostUrl.NormalizeHostIntendedIdempotent` | flameMenuKITSU.py:540-546 | The corrected normalisation is idempotent too. |
| `Values.Field` | flameMenuKITSU.py:1010 | `d.get(key)`: a value exactly when the key is present, and then the stored one. |
| `Prefs.PrefsStore.constructor` | flameMenuKITSU.py:138-140 | A master preferences dictionary starts empty. |
| `Prefs.PrefsDict.constructor` | flameMenuKITSU.py:85-90 | `master[name]` is created as `{}` only when it is missing. An existing section keeps its contents; an empty one stays empty. No other section changes. |
| `Prefs.PrefsDict.GetItem` | flameMenuKITSU.py:92-93 | The stored value when the key is in the section, a KeyError otherwise. |
| `Prefs.PrefsDict.SetItem` | flameMenuKITSU.py:95-96 | Only `master[name]` changes, and it now maps the key to the value, so a later read returns it. No section appears or disappears. |
| `Prefs.PrefsDict.DelItem` | flameMenuKITSU.py:98-99 | Reports a KeyError exactly when the key is absent. Otherwise it removes the key from `master[name]` only. Afterwards the key reads as a KeyError. |
| `Prefs.PrefsDict.Get` | flameMenuKITSU.py:101-102 | The stored value when present, otherwise the given default. |
| `Prefs.PrefsDict.SetDefault` | flameMenuKITSU.py:104-105 | An existing value is returned and nothing changes. Otherwise the default is stored in `master[name]` only and returned. Afterwards the key reads as the returned value. |
| `Prefs.PrefsDict.Pop` | flameMenuKITSU.py:107-110 | A present key is removed from `master[name]` and its value returned. For a missing key nothing changes: the call returns the given default, or the shared default object when no default was given. It never raises. |
| `Prefs.PrefsDict.PopStrict` | flameMenuKITSU.py:107-110 | The corrected `pop`: a missing key without a default is a KeyError, as with `dict.pop`. |
| `Prefs.PrefsDict.Update` | flameMenuKITSU.py:112-113 | Only `master[name]` changes. Every key of the mapping reads as the mapping's value, and every other key reads as before. |
| `Prefs.PrefsDict.Contains` | flameMenuKITSU.py:115-116 | `k in view` holds exactly when `view[k]` would not raise. |
| `Prefs.PrefsDict.Keys` | flameMenuKITSU.py:121-122 | The keys are exactly those `k in view` accepts. |
| `Prefs.PrefsDict.MasterKeys` | flameMenuKITSU.py:131-132 | The names of all sections of the master, which include the view's own. |
| `Prefs.PopMissingKeyReturnsSentinel` | flameMenuKITSU.py:107-110 | On a fresh view, popping a missing key without a default returns the default object instead of raising. |
| `Prefs.ViewsAreIsolated` | flameMenuKITSU.py:95-96 | Two views on one master with different names do not see each other's writes. |
| `AdaptiveTimeout.InitialWindow` | flameMenuKITSU.py:764-765 | The window starts as nine entries of `timeout / 2`. |
| `AdaptiveTimeout.Clamp` | flameMenuKITSU.py:826-830 | For non-negative durations, the measured duration is kept unless it exceeds four times the newest entry. In that case it becomes exactly three times that entry. The result is never above four times the newest entry. |
| `AdaptiveTimeout.Advance` | flameMenuKITSU.py:826-832 | A measured tick keeps the window's length, drops the oldest entry and appends the clamped duration. |
| `AdaptiveTimeout.SleepTarget` | flameMenuKITSU.py:833-837 | The target is `max(timeout, 2·mean)`, so never below the nominal timeout. |
| `AdaptiveTimeout.Trunc` | flameMenuKITSU.py:848 | Python's `int()` on a float truncates toward zero and stays within one of its argument. |
| `AdaptiveTimeout.SleepBudget` | flameMenuKITSU.py:847-852 | `loop_timeout` takes no step when the whole seconds elapsed reach the timeout. Otherwise it takes ten steps per whole second remaining, which is within one second of the remaining time. |
| `AdaptiveTimeout.InitialMean` | flameMenuKITSU.py:764-765 | The initial window's mean is `timeout / 2`, so its target is the timeout itself. |
| `AdaptiveTimeout.OutlierClamped` | flameMenuKITSU.py:826-833 | Nine entries of d and a measured 100·d store 3·d, giving a mean of 11·d/9. |
| `AdaptiveTimeout.ClampNotMonotone` | flameMenuKITSU.py:829-830 | A measured 4·d is kept, but 4.01·d becomes 3·d, which is less. |
| `AdaptiveTimeout.AdvanceNonNegative` | flameMenuKITSU.py:826-833 | Non-negative durations keep every window entry and the mean non-negative. |
| `AdaptiveTimeout.SleepEndsNearTarget` | flameMenuKITSU.py:847-856 | Unless cancelled, the sleep ends less than a second after the target, counted from the tick's start. When the target lies ahead, it also ends less than a second before it. |
| `ShortLoop.StoreOpenProjects` | flameMenuKITSU.py:790-796 | On success the fetched list replaces `active_projects`, with an empty list stored as `[{}]`. On an exception nothing changes. `all_tasks_for_project` is never touched. |
| `ShortLoop.CurrentProjectIsLastMatch` | flameMenuKITSU.py:811-812 | `CurrentProject` looks the linked id up in `ProjectsById`, the model of the dict comprehension. The project found is the last project in the list that carries the linked id, and there is none exactly when no project carries it. |
| `ShortLoop.Step` | flameMenuKITSU.py:767-837 | A tick without user and id idles without touching anything. Each other path has an exact condition. A tick dies (`LogOutRaised`) exactly when a user or an id is set and `log_out` raises. It stops at the missing id exactly when there is a user, no id, and `log_out` returned. It stops at the missing projects exactly when an id is set, `active_projects` is missing or empty, and `log_out` returned. It is measured exactly when an id is set, active projects are known and `log_out` returned. Only a measured tick moves the window and yields a target, and that target is at least the timeout. Only a measured tick can have its sleep cut short, and it is cut short exactly when `loop_timeout` sees the run flag cleared before one of its steps. With a user and a client, `active_projects` becomes `StoreOpenProjects` of the answer; otherwise it is unchanged. Once past the two early exits, `all_tasks_for_project` becomes the successful answer for the current project, and an exception keeps the old value. Before those exits it is unchanged. |
| `ShortLoop.Run` | flameMenuKITSU.py:766-837 | Over any schedule the window keeps its length and every sleep target is at least the timeout. `active_projects` is never an empty list, and once present it is never removed. |
| `ShortLoop.IdleRunChangesNothing` | flameMenuKITSU.py:769-772 | Without user and linked id the loop never changes `pipeline_data` or the window, never measures a tick and never dies. |
| `ShortLoop.LogOutFailureEndsLoop` | flameMenuKITSU.py:798-819 | The `log_out` calls at lines 800, 807 and 819 are outside any `try`. Once a user or a linked id is set, a running tick whose `log_out` raises ends the loop for good (`LoopDied`). It ends with that tick's data, the window unchanged and no sleep target. |
| `ShortLoop.LogOutOkNeverDies` | flameMenuKITSU.py:798-819 | While every `log_out` returns, the loop never dies. It ends only when the schedule runs out or the run flag is seen cleared. |
| `ShortLoop.StopDuringSleepEndsLoop` | flameMenuKITSU.py:766-856 | `self.threads` is set once (line 510) and afterwards only cleared (line 842), so a flag seen cleared during a sleep is still clear at the next loop head (`FlagStaysCleared`). Under that condition, a measured tick whose `loop_timeout` sees the flag cleared is the last tick. The loop ends with `FlagCleared`, that tick's data and window, and its target as the last one, making no further call into Kitsu. |
| `ShortLoop.FailedFetchesKeepData` | flameMenuKITSU.py:790-817 | When every Kitsu fetch raises, `pipeline_data` keeps its previous contents. This holds whether the loop keeps running, which it does only while each `log_out` returns, or a raising `log_out` ends it. |
| `ShortLoop.FetchRecovers` | flameMenuKITSU.py:790-796 | With a user and a client, a tick whose `all_open_projects` raises is followed by one whose call succeeds. After the two ticks `active_projects` holds the second answer, with an empty answer stored as `[{}]`. |
| `ShortLoop.WindowKeepsNineEntries` | flameMenuKITSU.py:764-837 | Starting from the initial window, the window always holds nine entries and every target is at least the timeout. |
| `ShortLoop.FirstMeasuredTick` | flameMenuKITSU.py:511 | With the connector's timeout of 4 s, the first measured tick's target is 4 s exactly when the tick took at most 2 s. It never exceeds 16/3 s. |
| `Connector.KitsuConnector.constructor` | flameMenuKITSU.py:492-505 | The connector starts with the user and linked project it was given and an empty `pipeline_data`. |
| `Connector.KitsuConnector.CacheShortLoop` | flameMenuKITSU.py:762-837 | The `while self.threads` loop over a schedule leaves exactly the `pipeline_data`, window, targets and ending that `Run` describes. |
| `Connector.KitsuConnector.ShortLoopTick` | flameMenuKITSU.py:767-837 | One pass of the loop body leaves exactly the path, `pipeline_data`, window and target that `Step` describes. |
| `Connector.KitsuConnector.StoreProjects` | flameMenuKITSU.py:790-796 | `pipeline_data` becomes exactly `StoreOpenProjects` of the old data and the answer. On success the list replaces `active_projects`, with an empty list stored as `[{}]`. On an exception nothing changes. |
| `Connector.KitsuConnector.Measure` | flameMenuKITSU.py:823-856 | The measured duration advances the window as `Advance` does. The target is `SleepTarget` of the new window's mean, so it is at least the timeout. The sleep is reported as cut short exactly when `loop_timeout` sees the run flag cleared before one of its steps. |
| `Connector.KitsuConnector.LoopTimeout` | flameMenuKITSU.py:847-856 | No sleep when the timeout is at most the whole seconds elapsed. Otherwise it sleeps at most the budget, only after seeing the flag set each time. It stops early only at a step where it saw the flag cleared. |
| `Connector.KitsuConnector.ScanActiveProjects` | flameMenuKITSU.py:858-865 | With a user, `active_projects` is replaced on success, with an empty list stored as `[{}]`. On an exception, or without a user, `pipeline_data` is unchanged. A non-empty `active_projects` stays non-empty. |
| `ProjectConnect.Reconciled` | flameMenuKITSU.py:886-889 | The constructor's rule always leaves a consistent link (a name only with an id). It changes a consistent link not at all and unlinks an inconsistent one. |
| `ProjectConnect.LinkedTakesName` | flameMenuKITSU.py:1009-1016 | `Linked`, the link after `link_project`: a named project sets the host field and `linked_project` to its name, and `linked_project_id` to its id when it has one. A nameless project changes nothing. |
| `ProjectConnect.LinkWithoutIdKeepsPreviousId` | flameMenuKITSU.py:1014-1015 | A named project without an `id` key leaves the previously linked id in place. |
| `ProjectConnect.LinkedIdempotent` | flameMenuKITSU.py:1009-1016 | Linking a project twice is linking it once. A later link of a project with an id overrides an earlier link. |
| `ProjectConnect.LinkedConsistency` | flameMenuKITSU.py:1009-1016 | Linking a project whose id is set keeps the link consistent. Linking a named project without an id from the unlinked state does not. |
| `ProjectConnect.DispatchLinksRegisteredProject` | flameMenuKITSU.py:891-896 | `Dispatched`, the link after calling a menu entry: calling the entry registered for a project links that project, and an unknown handle changes nothing. |
| `ProjectConnect.ProjectConnect.constructor` | flameMenuKITSU.py:872-889 | A linked project name without a linked id is unlinked (host field `''`, both connector fields None). Otherwise the link is kept. Either way the link is consistent afterwards. |
| `ProjectConnect.ProjectConnect.UnlinkProject` | flameMenuKITSU.py:1003-1007 | The host field becomes `''` and `linked_project` and `linked_project_id` become None. |
| `ProjectConnect.ProjectConnect.LinkProject` | flameMenuKITSU.py:1009-1016 | The new link is `Linked(old link, project)`. Nothing else of the connector changes. |
| `ProjectConnect.ProjectConnect.RegisterMenuProject` | flameMenuKITSU.py:961 | `dynamic_menu_data` gains, or replaces, the entry for the handle. |
| `ProjectConnect.ProjectConnect.Dispatch` | flameMenuKITSU.py:891-896 | The new link is `Dispatched(dynamic_menu_data, handle, old link)`: the registered non-empty project is linked, and otherwise nothing changes. |

## Left out

- Durations are exact reals. Python floats, including the float rounding of `sum` and of the division by 9, are not modelled.
- Threads are not modelled: the creation of the loop thread, `terminate_loops` and its `join`, and concurrent readers of `pipeline_data`.
  - The run flag is an input: one observation per loop head, and one per step of `loop_timeout`.
  - `Run` takes each reading of the flag as a separate input, so on its own it allows a flag seen cleared during a sleep to read as set at the next loop head. The source cannot do this: the flag is set once and afterwards only cleared. `StopDuringSleepEndsLoop` states that promise under the condition `FlagStaysCleared`; `Run` does not impose it on its inputs.
  - One run of `CacheShortLoop` reads the connector's user and linked id as fixed. In the source, another thread may change them between ticks.
  - Another thread can briefly observe an empty `active_projects` list between the store of the fetched list and the store of the placeholder. This is not modelled.
- Every gazu call is an input: `create_client`, `log_in`, `all_open_projects`, `all_tasks_for_project`, `log_out`.
  - `log_in`'s outcome is not an input because it does not affect the state. A client whose login failed is still non-None and is still used.
  - A `log_out` that raises ends the loop's thread. The model records this as the `LoopDied` ending.
- The clock (`time.time`) is an input. No sleep is performed. The idle `time.sleep(1)` is implied by the three idle paths (`NoUserNoId`, `NoLinkedId`, `NoActiveProjects`) and is not counted. Only `LoopTimeout` counts its 0.1 s steps. `loop_timeout` returns nothing to the loop, so no count of them reaches `ShortLoopTick` or `CacheShortLoop`. Logging and `print` are omitted.
- A missing `self.kitsu_host` (the login never ran) raises inside the `try` of the short loop. The model covers it as a client that was not created.
- Prefs.PrefsDict: every operation requires the view's section to exist in its master. The constructor creates the section and no operation removes one. Code outside these views that deleted `master[name]` would make the source raise KeyError; that case is not modelled.
- Prefs.PrefsDict.DelItem: returns `false` where the source raises KeyError.
- Prefs.PrefsDict: `prefs_dict` subclasses `dict`, and its own dictionary is never filled. The operations it does not override (`__len__`, `__iter__`, `items`, `values`, `clear`, `popitem`, `__eq__`, truthiness) act on that empty dictionary, not on `master[name]`. `len(view)` is always 0 and `bool(view)` is always False. These inherited operations are not modelled.
- Prefs.PrefsDict.Get: the default parameter is always given. The source's `default=None` (line 101), where `view.get(k)` on a missing key returns None, is not modelled.
- Prefs.PrefsDict.SetDefault: the default parameter is always given. The source's `default=None` (line 104), where `view.setdefault(k)` on a missing key stores and returns None, is not modelled.
- Prefs.PrefsDict.Update: takes a mapping only. An iterable of pairs and keyword arguments are not modelled.
- Prefs.PrefsDict.Keys: returns a set. Dictionary order is not modelled.
- `prefs_dict.copy` and `prefs_dict.fromkeys` are not modelled because they always raise. `copy` calls the constructor without its `name` argument, and `fromkeys` is a classmethod that refers to an undefined `self`. `__repr__` is string formatting and is not modelled either.
- Kitsu dictionaries are maps from strings to strings. Truthiness is modelled for None, strings and dictionaries only.
- ProjectConnect.ProjectConnect.LinkProject: when the `flame` module cannot be imported (`self.flame` is None), the write to the host field raises AttributeError before any connector field changes. The model assumes a loaded Flame project. `rescan()`, which re-runs the host's hook scan, is a host call and is omitted. The same holds for `UnlinkProject`, `Dispatch` and the constructor.
- `__getattr__` only runs for names that are not ordinary attributes. Handles (`str(id(project))`) are digit strings, so they never collide with ordinary attributes. The model treats every handle as going through the dispatch.
- Not modelled:
  - `load_prefs` and `save_prefs`: pickle file I/O.
  - `get_user`, `login_dialog` and `clear_user`: network login, base64 credentials and a Qt dialog. Only their host normalisation is modelled.
  - `check_linked_project`: Flame and network reads. Its outcome is a constructor parameter of `KitsuConnector`.
  - `build_menu` and `get_projects`: menu layout and Flame reads. Only the `dynamic_menu_data` write of `build_menu` is modelled.
  - `preferences_window`, `get_export_preset_fields` and the module-level Flame hooks: UI, XML parsing and host integration.

## Findings

| source | as written | input that shows it | evidently intended | confidence | as-written member | corrected member |
|---|---|---|---|---|---|---|
| flameMenuKITSU.py:540-546 | The `/api` test is an `elif` behind the `/api/` test, so it never runs. A host ending in `/api` gets `/api/` appended. | `http://host/api` becomes `http://host/api/api/` | `http://host/api/` | high; not executed | `HostUrl.ApiSuffixDoubled` | `HostUrl.NormalizeHostIntended` |
| flameMenuKITSU.py:107-110 | `v is object()` compares against a freshly made object, so it is never true. `pop(k)` on a missing key returns the default parameter's object. | `pop('missing')` on an empty section returns that object and raises nothing | a KeyError, as `dict.pop(k)` raises | high; not executed | `Prefs.PopMissingKeyReturnsSentinel` | `Prefs.PrefsDict.PopStrict` |
