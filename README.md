# StaggerTuner in Dafny

A model of the decisions made by the StaggerTuner Valheim plugin, in two iterations:

- **0.8.3** (`StaggerTuner/StaggerTuner.cs`). It scales a player's stagger threshold by a multiplier. The multiplier is taken from the ServerSync-synchronised entry, else the local config entry, else 1.60, and is clamped to [0.50, 3.00]. The plugin is enabled by the same rule, with `true` as the default. On the server, a config-file watcher feeds a single-shot 600 ms debounce timer. When the timer elapses, a next-frame coroutine runs `SoftReloadAndResync`. That method reloads the config only on a server that is the source of truth and is not in the middle of applying a ServerSync update (echo suppression).
- **0.6.0** (`StaggerTuner/Class1.cs`). It divides the stagger damage a player takes by the clamped multiplier instead.

Modules:

- `Wrappers`: `Option`, used for null handles. `GetOr` and `Or` model C#'s `?.Value ??`.
- `Clamping`: the clamp shared by Unity's `Mathf.Clamp` and the inline clamp of `GetThreshMult`.
- `Host`: the foreign objects, reduced to the flags the plugin tests: `Character.IsPlayer`, `ZNet.IsServer()`, and ServerSync's `IsSourceOfTruth` and `ProcessingServerUpdate`.
- `StaggerTuner`: the 0.8.3 accessors, the postfix and the reload gate. These are pure functions of the static handles, passed in as an `Entries` value.
- `HotReload`: the watcher lifecycle. It is given twice:
  - pure transitions over `WatchState`, with `Step` and `Run` for sequences of events, and lemmas about runs;
  - the class `Plugin`, whose fields `cfgPath`, `debounce` and `cfgWatcher` are the source's, plus a count of pending coroutines and a count of `Config.Reload()` calls. Each method is proved to follow the pure transition.
- `LegacyDivisor`: the 0.6.0 accessors and prefix.

Numbers are `real`. `Config.Reload()` is an abstract action that the model counts. The following are inputs: `File.Exists`, `Path.GetDirectoryName`, `Path.GetFileName`, whether the `FileSystemWatcher` constructor throws, `ZNet.instance`, and the `ConfigSync` flags.

Where the code and the system's design description differ, the model follows the code:

- **Who may reload.** The design says the reload depends only on being the source of truth and not applying an update. The code also requires `ZNet.instance` to exist and be a server, and `ConfigSync` to be non-null.
- **When hot reload is disabled.** The design names only a missing or unreadable file. The code also disables hot reload when the directory or file name is empty. A watcher constructor that throws leaves a timer behind with no watcher, so that timer is never started.
- **Repeated kicks.** The design says a write during the quiet period restarts the timer. The code calls `Timer.Start()`, and the model only records that the timer is enabled. It makes no claim about restarting the interval.
- **Propagation.** The design describes a resync step that pushes values to peers. The code only calls `Config.Reload()` and leaves propagation to ServerSync.

## Model

| member | source | states |
|---|---|---|
| `Clamping.Clamp` | StaggerTuner/StaggerTuner.cs:131-132 | the result lies in [lo, hi]; a value inside the interval, bounds included, is returned unchanged; a value below lo gives lo and one above hi gives hi |
| `StaggerTuner.IsEnabled` | StaggerTuner/StaggerTuner.cs:118-123 | the synchronised entry's value if present, else the local entry's, else `true`; the three cases fix the result, so nothing else is consulted |
| `StaggerTuner.SourceThreshMult` | StaggerTuner/StaggerTuner.cs:127-129 | the unclamped multiplier: synchronised value if present, else local value, else 1.60 |
| `StaggerTuner.ThreshMult` | StaggerTuner/StaggerTuner.cs:125-134 | the effective multiplier is always in [0.50, 3.00]; an in-range source value (0.50 and 3.00 included) is kept, below 0.50 gives 0.50, above 3.00 gives 3.00 |
| `StaggerTuner.GetThreshMult` | StaggerTuner/StaggerTuner.cs:125-134 | the step-by-step accessor returns exactly the effective multiplier, which lies in [0.50, 3.00] |
| `StaggerTuner.Postfix` | StaggerTuner/StaggerTuner.cs:140-152 | `__result` is unchanged when the plugin is disabled or the instance is not a player (a null instance throws and the exception is caught); otherwise it becomes the old result times the effective multiplier |
| `StaggerTuner.PostfixBounds` | StaggerTuner/StaggerTuner.cs:144-146 | a non-negative threshold ends between 0.50 and 3.00 times its vanilla value |
| `StaggerTuner.PostfixMonotone` | StaggerTuner/StaggerTuner.cs:146 | the postfix preserves the order of thresholds |
| `StaggerTuner.ShouldReload` | StaggerTuner/StaggerTuner.cs:213-218 | reload exactly when `ZNet.instance` exists and is a server, `ConfigSync` exists, it is the source of truth, and it is not processing a server update |
| `HotReload.Start` | StaggerTuner/StaggerTuner.cs:158-206 | `_cfgPath` is recorded; with an empty path, a missing file, or an empty directory or file name, nothing else changes; otherwise the 600 ms timer with AutoReset off exists, stopped; unless the watcher constructor throws, a watcher on that directory and file with the three notify filters, no subdirectories, raising events |
| `HotReload.Kicked` | StaggerTuner/StaggerTuner.cs:185-192 | a kick with no timer, or with a disposed timer (the exception is swallowed), changes nothing; otherwise the timer is running afterwards and only its enabled flag changed |
| `HotReload.Elapse` | StaggerTuner/StaggerTuner.cs:177-179 | only a running timer elapses; it starts exactly one next-frame coroutine, reloads nothing inside the callback, and a timer without AutoReset is stopped afterwards |
| `HotReload.SoftReload` | StaggerTuner/StaggerTuner.cs:208-231 | one `Config.Reload()` exactly when the gate allows it, and no other change |
| `HotReload.ResumeFrame` | StaggerTuner/StaggerTuner.cs:234-243 | one pending coroutine is consumed and makes one reload attempt under the gate; with none pending nothing happens; timer and watcher are untouched |
| `HotReload.DestroyAll` | StaggerTuner/StaggerTuner.cs:102-115 | the watcher no longer raises events and is disposed, the timer is disposed and stopped, the rest of the state is unchanged |
| `HotReload.StartEstablishesInv` | StaggerTuner/StaggerTuner.cs:177-198 | the set-up keeps the invariant: the only timer is the single-shot 600 ms one, a watcher only exists beside it, and a raising watcher's timer is not disposed |
| `HotReload.RunPreservesInv` | StaggerTuner/StaggerTuner.cs:177-198 | every sequence of events keeps that invariant |
| `HotReload.QuietStaysQuiet` | StaggerTuner/StaggerTuner.cs:107-112 | with the timer stopped and no raising watcher, no run of events restarts anything, and reloads plus pending coroutines never grow |
| `HotReload.NoWatcherNoReload` | StaggerTuner/StaggerTuner.cs:162-175 | an unusable path creates no timer and no watcher, and a failing watcher constructor leaves the timer unstarted; either way no run of events ever schedules or performs a reload |
| `HotReload.DestroyStopsScheduling` | StaggerTuner/StaggerTuner.cs:102-115 | after `OnDestroy` no new coroutine is scheduled, so every later reload comes from a coroutine that was already pending |
| `HotReload.KicksStartTimer` | StaggerTuner/StaggerTuner.cs:185-196 | on an armed watcher, any non-empty run of Changed/Created/Renamed notifications leaves the timer running and changes nothing else |
| `HotReload.ElapseSingleShot` | StaggerTuner/StaggerTuner.cs:177-179 | a second elapse with no kick in between does nothing |
| `HotReload.BurstSchedulesOnce` | StaggerTuner/StaggerTuner.cs:177-196 | a burst of notifications followed by any number of elapses schedules exactly one coroutine and reloads nothing yet |
| `HotReload.OneWindowOneReload` | StaggerTuner/StaggerTuner.cs:177-243 | a burst, the elapse and the next frame give one reload exactly when the gate allows it, none otherwise |
| `HotReload.ReloadsNeedGate` | StaggerTuner/StaggerTuner.cs:213-218 | a run in which no resumed coroutine passes the gate performs no reload |
| `HotReload.EchoSuppression` | StaggerTuner/StaggerTuner.cs:216-218 | while `ProcessingServerUpdate` holds at every resumed coroutine, no run of file events, elapses and frames reloads anything |
| `HotReload.Plugin.constructor` | StaggerTuner/StaggerTuner.cs:45-47 | all hot-reload fields start null, with nothing pending and nothing reloaded |
| `HotReload.Plugin.StartFileWatcher` | StaggerTuner/StaggerTuner.cs:158-206 | the fields afterwards are exactly `Start` of the fields before, and the invariant holds |
| `HotReload.Plugin.Kick` | StaggerTuner/StaggerTuner.cs:185-192 | the fields afterwards are exactly `Kicked` of the fields before |
| `HotReload.Plugin.OnFileEvent` | StaggerTuner/StaggerTuner.cs:194-198 | a notification reaches the kick handler only while the watcher raises events |
| `HotReload.Plugin.OnElapsed` | StaggerTuner/StaggerTuner.cs:179 | the fields afterwards are exactly `Elapse` of the fields before |
| `HotReload.Plugin.UnityMainThread` | StaggerTuner/StaggerTuner.cs:234-237 | one more pending coroutine; nothing else changes |
| `HotReload.Plugin.OnNextFrame` | StaggerTuner/StaggerTuner.cs:239-243 | the fields afterwards are exactly `ResumeFrame` of the fields before |
| `HotReload.Plugin.SoftReloadAndResync` | StaggerTuner/StaggerTuner.cs:208-231 | the fields afterwards are exactly `SoftReload` of the fields before |
| `HotReload.Plugin.OnDestroy` | StaggerTuner/StaggerTuner.cs:102-115 | the fields afterwards are exactly `DestroyAll` of the fields before |
| `LegacyDivisor.IsEnabled` | StaggerTuner/Class1.cs:67 | the entry's value if the entry exists, otherwise `true` |
| `LegacyDivisor.GetDivisor` | StaggerTuner/Class1.cs:68 | always in [0.50, 3.00]; 1.60 without an entry; an in-range entry value unchanged; below 0.50 gives 0.50 and above 3.00 gives 3.00 |
| `LegacyDivisor.Prefix` | StaggerTuner/Class1.cs:78-87 | `damage` is unchanged for a non-player (or null) instance or a disabled plugin; otherwise it becomes `damage / GetDivisor()` |
| `LegacyDivisor.DivisorGuardUnreachable` | StaggerTuner/Class1.cs:83-84 | the divisor always exceeds 0.01, so the early return can never be taken |
| `LegacyDivisor.PrefixBounds` | StaggerTuner/Class1.cs:83-86 | non-negative damage ends between `damage / 3.00` and `2 × damage` |

## Left out

- ServerSync: `ConfigSync`, `AddConfigEntry`, `AddLockingConfigEntry`, the snapshot, the lock entry and the version gate all live in an external library. `IsSourceOfTruth` and `ProcessingServerUpdate` are opaque inputs.
- BepInEx configuration: `Awake`'s `Config.Bind` calls, `AcceptableValueRange` and file parsing are foreign I/O. The entry values are arbitrary inputs. `Config.Reload()` is counted, but its effect on the values is not modelled.
- Harmony: `PatchAll`, `TargetMethod` and `UnpatchSelf` (in both versions' `OnDestroy`) intercept methods at runtime and contain no logic of the plugin's own.
- Logging and `ConfigurationManagerAttributes` are displayed text only.
- StaggerTuner.ThreshMult: the range guarantee holds for reals. A NaN `float` would fall through both comparisons and be returned. Floating-point rounding is not modelled either.
- StaggerTuner.GetThreshMult: the same NaN and rounding caveat as `ThreshMult`.
- LegacyDivisor.GetDivisor: the same NaN and rounding caveat, for `Mathf.Clamp`.
- HotReload.Kicked: time is not modelled. The model makes no claim that `Timer.Start()` on a running timer restarts the 600 ms interval. The environment decides when `Elapsed` occurs.
- Threads: the watcher's and the timer's callbacks run on other threads. The model treats events one at a time. Unity's rule that `StartCoroutine` be called from the main thread is not modelled: the model assumes the call from the timer's handler succeeds.
- Unity stops a destroyed behaviour's coroutines. The model does not: a coroutine still pending at `OnDestroy` may resume afterwards. `DestroyStopsScheduling` is stated with that allowance.
- Failures inside `StartFileWatcher` other than the watcher constructor are not modelled, for example `EnableRaisingEvents` throwing. Failures inside `OnDestroy` are not modelled either, for example a throwing `Dispose` that skips the timer's disposal.
- The only exception modelled in `Postfix` is a null instance. The game never passes one.
