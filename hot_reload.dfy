/** Version 0.8.3's server-side hot reload: a file-system watcher on the config file
    kicks a single-shot 600 ms debounce timer; when the timer elapses, a coroutine is
    started that, on the next frame, asks the reload gate and reloads the config.

    The lifecycle is given twice: as pure transition functions over a `WatchState`
    (so that runs of events can be reasoned about), and as the plugin class whose
    methods change its fields and are proved to follow those functions. */
module HotReload {
  import opened Wrappers
  import opened Host
  import StaggerTuner

  const DebounceIntervalMs: real := 600.0

  datatype NotifyFilter = LastWrite | Size | CreationTime

  /** The file-system notifications the watcher subscribes to. */
  datatype FsEvent = Changed | Created | Renamed

  /** A `System.Timers.Timer`: interval, AutoReset, whether it is counting down, and
      whether it has been disposed. */
  datatype Timer = Timer(interval: real, autoReset: bool, enabled: bool, disposed: bool)

  /** A `FileSystemWatcher` on one file of one directory. */
  datatype FileWatcher = FileWatcher(
    path: string, filter: string, notifyFilter: set<NotifyFilter>,
    includeSubdirectories: bool, raisingEvents: bool, disposed: bool)

  /** The plugin's hot-reload fields (`_cfgPath`, `_debounce`, `_cfgWatcher`, null
      being `None`), the next-frame coroutines started and not yet resumed, and the
      number of `Config.Reload()` calls made so far. */
  datatype WatchState = WatchState(
    cfgPath: Option<string>,
    debounce: Option<Timer>,
    cfgWatcher: Option<FileWatcher>,
    pendingFrames: nat,
    reloads: nat)

  /** What can happen to the plugin once the watcher is set up: a notification from
      the file system, the debounce timer elapsing, one pending coroutine resuming on
      a frame (with the networking and sync state of that moment), and `OnDestroy`. */
  datatype Event =
    | FileEvent(kind: FsEvent)
    | Elapsed
    | Resume(znet: Option<ZNet>, sync: Option<ConfigSync>)
    | Destroy

  /** The fields before `Awake` runs. */
  const Initial: WatchState := WatchState(None, None, None, 0, 0)

  predicate NullOrEmpty(s: Option<string>)
  {
    s.None? || s.value == ""
  }

  predicate TimerRunning(s: WatchState)
  {
    s.debounce.Some? && s.debounce.value.enabled && !s.debounce.value.disposed
  }

  predicate Raising(s: WatchState)
  {
    s.cfgWatcher.Some? && s.cfgWatcher.value.raisingEvents && !s.cfgWatcher.value.disposed
  }

  /** Holds of every state the plugin reaches: its only timer is the single-shot
      600 ms one, a watcher exists only beside that timer, and a watcher that still
      raises events has a timer that is not disposed. */
  predicate Inv(s: WatchState)
  {
    (s.debounce.Some? ==>
      s.debounce.value.interval == DebounceIntervalMs && !s.debounce.value.autoReset) &&
    (s.cfgWatcher.Some? ==> s.debounce.Some?) &&
    (Raising(s) ==> !s.debounce.value.disposed)
  }

  /** Nothing can start the timer any more and it is not counting down. */
  predicate Quiet(s: WatchState)
  {
    !TimerRunning(s) && !Raising(s)
  }

  /** The conditions under which `StartFileWatcher` gets as far as creating the timer:
      a non-empty path to an existing file, with non-empty directory and file name. */
  predicate CanArm(path: Option<string>, fileExists: bool, dir: Option<string>, file: Option<string>)
  {
    !NullOrEmpty(path) && fileExists && !NullOrEmpty(dir) && !NullOrEmpty(file)
  }

  /** `StartFileWatcher`. `fileExists`, `dir` and `file` are what `File.Exists`,
      `Path.GetDirectoryName` and `Path.GetFileName` report for the path, and
      `watcherCtorThrows` says that constructing the `FileSystemWatcher` fails (the
      exception is caught after the timer already exists). */
  function Start(s: WatchState, path: Option<string>, fileExists: bool,
                 dir: Option<string>, file: Option<string>, watcherCtorThrows: bool): (r: WatchState)
    ensures r.cfgPath == path
    ensures r.pendingFrames == s.pendingFrames && r.reloads == s.reloads
    ensures !CanArm(path, fileExists, dir, file) ==> r == s.(cfgPath := path)
    ensures CanArm(path, fileExists, dir, file) ==>
      r.debounce == Some(Timer(DebounceIntervalMs, false, false, false))
    ensures CanArm(path, fileExists, dir, file) && watcherCtorThrows ==> r.cfgWatcher == s.cfgWatcher
    ensures CanArm(path, fileExists, dir, file) && !watcherCtorThrows ==>
      r.cfgWatcher == Some(FileWatcher(dir.value, file.value, {LastWrite, Size, CreationTime}, false, true, false))
      && Raising(r) && !TimerRunning(r)
  {
    var s1 := s.(cfgPath := path);
    if NullOrEmpty(path) || !fileExists then s1
    else if NullOrEmpty(dir) || NullOrEmpty(file) then s1
    else
      var s2 := s1.(debounce := Some(Timer(DebounceIntervalMs, false, false, false)));
      if watcherCtorThrows then s2
      else s2.(cfgWatcher := Some(FileWatcher(dir.value, file.value, {LastWrite, Size, CreationTime}, false, true, false)))
  }

  /** The kick handler: start the debounce timer if there is one. Starting a disposed
      timer throws, and the handler swallows the exception. Only the timer's enabled
      flag can change. */
  function Kicked(s: WatchState): (r: WatchState)
    ensures s.debounce.None? ==> r == s
    ensures s.debounce.Some? && s.debounce.value.disposed ==> r == s
    ensures s.debounce.Some? && !s.debounce.value.disposed ==> TimerRunning(r)
    ensures r.debounce.Some? == s.debounce.Some?
    ensures r.debounce.Some? ==> r.debounce.value.(enabled := s.debounce.value.enabled) == s.debounce.value
    ensures r.(debounce := s.debounce) == s
  {
    match s.debounce
    case None => s
    case Some(t) => if t.disposed then s else s.(debounce := Some(t.(enabled := true)))
  }

  /** The debounce timer elapsing. Only a running, undisposed timer raises `Elapsed`;
      a timer without AutoReset then stops. The handler defers the reload to the next
      frame: it starts one coroutine and reloads nothing itself. */
  function Elapse(s: WatchState): (r: WatchState)
    ensures r.reloads == s.reloads
    ensures r.pendingFrames == s.pendingFrames + (if TimerRunning(s) then 1 else 0)
    ensures r.cfgPath == s.cfgPath && r.cfgWatcher == s.cfgWatcher
    ensures r.debounce.Some? == s.debounce.Some?
    ensures TimerRunning(s) && !s.debounce.value.autoReset ==> !TimerRunning(r)
    ensures !TimerRunning(s) ==> r == s
  {
    if TimerRunning(s) then
      var t := s.debounce.value;
      s.(debounce := Some(t.(enabled := t.autoReset)), pendingFrames := s.pendingFrames + 1)
    else s
  }

  /** `SoftReloadAndResync`: one `Config.Reload()` exactly when the gate allows it. */
  function SoftReload(s: WatchState, znet: Option<ZNet>, sync: Option<ConfigSync>): (r: WatchState)
    ensures r.reloads == s.reloads + (if StaggerTuner.ShouldReload(znet, sync) then 1 else 0)
    ensures r.(reloads := s.reloads) == s
  {
    if StaggerTuner.ShouldReload(znet, sync) then s.(reloads := s.reloads + 1) else s
  }

  /** One pending `CoNextFrame` coroutine resumes after `yield return null` and runs
      its action, `SoftReloadAndResync`; with none pending nothing happens. */
  function ResumeFrame(s: WatchState, znet: Option<ZNet>, sync: Option<ConfigSync>): (r: WatchState)
    ensures s.pendingFrames == 0 ==> r == s
    ensures s.pendingFrames > 0 ==>
      r.pendingFrames == s.pendingFrames - 1 &&
      r.reloads == s.reloads + (if StaggerTuner.ShouldReload(znet, sync) then 1 else 0)
    ensures r.cfgPath == s.cfgPath && r.debounce == s.debounce && r.cfgWatcher == s.cfgWatcher
  {
    if s.pendingFrames == 0 then s
    else SoftReload(s.(pendingFrames := s.pendingFrames - 1), znet, sync)
  }

  /** `OnDestroy`: the watcher stops raising events and is disposed, and the timer is
      disposed (which also stops it). */
  function DestroyAll(s: WatchState): (r: WatchState)
    ensures Quiet(r)
    ensures r.cfgPath == s.cfgPath && r.pendingFrames == s.pendingFrames && r.reloads == s.reloads
    ensures r.debounce.Some? == s.debounce.Some? && r.cfgWatcher.Some? == s.cfgWatcher.Some?
    ensures r.debounce.Some? ==> r.debounce.value.disposed
    ensures r.cfgWatcher.Some? ==> r.cfgWatcher.value.disposed
  {
    var w := match s.cfgWatcher
      case None => None
      case Some(w) => Some(w.(raisingEvents := false, disposed := true));
    var t := match s.debounce
      case None => None
      case Some(t) => Some(t.(enabled := false, disposed := true));
    s.(cfgWatcher := w, debounce := t)
  }

  /** One event. A file-system notification reaches the kick handler only while the
      watcher raises events; `Changed`, `Created` and `Renamed` all kick. */
  function Step(s: WatchState, ev: Event): WatchState
  {
    match ev
    case FileEvent(_) => if Raising(s) then Kicked(s) else s
    case Elapsed => Elapse(s)
    case Resume(znet, sync) => ResumeFrame(s, znet, sync)
    case Destroy => DestroyAll(s)
  }

  function Run(s: WatchState, evs: seq<Event>): WatchState
    decreases |evs|
  {
    if evs == [] then s else Run(Step(s, evs[0]), evs[1..])
  }

  lemma {:induction false} RunAppend(s: WatchState, a: seq<Event>, b: seq<Event>)
    ensures Run(s, a + b) == Run(Run(s, a), b)
    decreases |a|
  {
    if a == [] {
      assert a + b == b;
    } else {
      assert (a + b)[0] == a[0];
      assert (a + b)[1..] == a[1..] + b;
      RunAppend(Step(s, a[0]), a[1..], b);
    }
  }

  /** The set-up establishes the invariant, and every event keeps it. */
  lemma StartEstablishesInv(s: WatchState, path: Option<string>, fileExists: bool,
                            dir: Option<string>, file: Option<string>, watcherCtorThrows: bool)
    requires Inv(s)
    ensures Inv(Start(s, path, fileExists, dir, file, watcherCtorThrows))
  {
  }

  lemma {:induction false} RunPreservesInv(s: WatchState, evs: seq<Event>)
    requires Inv(s)
    ensures Inv(Run(s, evs))
    decreases |evs|
  {
    if evs != [] {
      RunPreservesInv(Step(s, evs[0]), evs[1..]);
    }
  }

  /** From a quiet state no event schedules anything new: later reloads can only come
      from coroutines that were already pending, each at most once. */
  lemma {:induction false} QuietStaysQuiet(s: WatchState, evs: seq<Event>)
    requires Quiet(s)
    ensures Quiet(Run(s, evs))
    ensures Run(s, evs).reloads + Run(s, evs).pendingFrames <= s.reloads + s.pendingFrames
    ensures Run(s, evs).reloads >= s.reloads
    decreases |evs|
  {
    if evs != [] {
      QuietStaysQuiet(Step(s, evs[0]), evs[1..]);
    }
  }

  /** When the path is unusable (empty, missing file, empty directory or file name) no
      timer or watcher is created; and if the watcher cannot be constructed, the timer
      that exists is never started. Either way no reload ever happens. */
  lemma NoWatcherNoReload(path: Option<string>, fileExists: bool, dir: Option<string>,
                          file: Option<string>, watcherCtorThrows: bool, evs: seq<Event>)
    requires !CanArm(path, fileExists, dir, file) || watcherCtorThrows
    ensures !CanArm(path, fileExists, dir, file) ==>
      Start(Initial, path, fileExists, dir, file, watcherCtorThrows).debounce.None? &&
      Start(Initial, path, fileExists, dir, file, watcherCtorThrows).cfgWatcher.None?
    ensures Run(Start(Initial, path, fileExists, dir, file, watcherCtorThrows), evs).reloads == 0
    ensures Run(Start(Initial, path, fileExists, dir, file, watcherCtorThrows), evs).pendingFrames == 0
  {
    QuietStaysQuiet(Start(Initial, path, fileExists, dir, file, watcherCtorThrows), evs);
  }

  /** After `OnDestroy` nothing is scheduled any more: every later reload comes from a
      coroutine that was pending when the plugin was destroyed. */
  lemma DestroyStopsScheduling(s: WatchState, evs: seq<Event>)
    ensures Run(DestroyAll(s), evs).pendingFrames <= s.pendingFrames
    ensures Run(DestroyAll(s), evs).reloads <= s.reloads + s.pendingFrames
    ensures s.pendingFrames == 0 ==> Run(DestroyAll(s), evs).reloads == s.reloads
  {
    QuietStaysQuiet(DestroyAll(s), evs);
  }

  /** A run of file notifications on an armed watcher leaves the timer running and
      changes nothing else. */
  lemma {:induction false} KicksStartTimer(s: WatchState, evs: seq<Event>)
    requires Inv(s) && Raising(s)
    requires forall i | 0 <= i < |evs| :: evs[i].FileEvent?
    ensures var r := Run(s, evs);
      Raising(r) && Inv(r) && r.cfgWatcher == s.cfgWatcher &&
      r.pendingFrames == s.pendingFrames && r.reloads == s.reloads && r.cfgPath == s.cfgPath &&
      (evs != [] ==> TimerRunning(r)) && (evs == [] ==> r == s)
    decreases |evs|
  {
    if evs != [] {
      assert evs[0].FileEvent?;
      var s1 := Step(s, evs[0]);
      assert s1 == Kicked(s);
      forall i | 0 <= i < |evs[1..]| ensures evs[1..][i].FileEvent? {
        assert evs[1..][i] == evs[i + 1];
      }
      KicksStartTimer(s1, evs[1..]);
    }
  }

  /** The timer is single-shot: a second elapse without a kick in between does nothing. */
  lemma ElapseSingleShot(s: WatchState)
    requires Inv(s)
    ensures Elapse(Elapse(s)) == Elapse(s)
  {
  }

  /** A burst of notifications followed by the timer elapsing, however often, starts
      exactly one coroutine and reloads nothing yet. */
  lemma {:induction false} BurstSchedulesOnce(s: WatchState, kicks: seq<Event>, elapses: nat)
    requires Inv(s) && Raising(s)
    requires kicks != [] && forall i | 0 <= i < |kicks| :: kicks[i].FileEvent?
    ensures var r := Run(s, kicks + Elapses(elapses + 1));
      r.pendingFrames == s.pendingFrames + 1 && r.reloads == s.reloads &&
      !TimerRunning(r) && Raising(r)
  {
    KicksStartTimer(s, kicks);
    var k := Run(s, kicks);
    RunAppend(s, kicks, Elapses(elapses + 1));
    assert Elapses(elapses + 1) == [Elapsed] + Elapses(elapses);
    RunAppend(k, [Elapsed], Elapses(elapses));
    var e := Elapse(k);
    assert Run(k, [Elapsed]) == e;
    ElapsesWhenStopped(e, elapses);
  }

  function Elapses(n: nat): (r: seq<Event>)
    ensures |r| == n && forall i | 0 <= i < n :: r[i] == Elapsed
  {
    if n == 0 then [] else [Elapsed] + Elapses(n - 1)
  }

  lemma {:induction false} ElapsesWhenStopped(s: WatchState, n: nat)
    requires !TimerRunning(s)
    ensures Run(s, Elapses(n)) == s
  {
    if n > 0 {
      assert Elapses(n)[0] == Elapsed;
      assert Elapses(n)[1..] == Elapses(n - 1);
      ElapsesWhenStopped(s, n - 1);
    }
  }

  /** One debounce window gives one reload attempt, made on the following frame: a
      burst of notifications, the elapse, and the next resumed coroutine reload once
      if the gate allows it and not at all otherwise. */
  lemma OneWindowOneReload(s: WatchState, kicks: seq<Event>, znet: Option<ZNet>, sync: Option<ConfigSync>)
    requires Inv(s) && Raising(s)
    requires kicks != [] && forall i | 0 <= i < |kicks| :: kicks[i].FileEvent?
    ensures Run(s, kicks + [Elapsed, Resume(znet, sync)]).reloads ==
      s.reloads + (if StaggerTuner.ShouldReload(znet, sync) then 1 else 0)
    ensures Run(s, kicks + [Elapsed, Resume(znet, sync)]).pendingFrames == s.pendingFrames
  {
    BurstSchedulesOnce(s, kicks, 0);
    assert Elapses(1) == [Elapsed];
    var r := Run(s, kicks + [Elapsed]);
    assert kicks + [Elapsed, Resume(znet, sync)] == (kicks + [Elapsed]) + [Resume(znet, sync)];
    RunAppend(s, kicks + [Elapsed], [Resume(znet, sync)]);
    assert Run(r, [Resume(znet, sync)]) == ResumeFrame(r, znet, sync);
  }

  /** Reloads happen only on frames where the gate allows them: if no resumed
      coroutine in a run finds this process an authoritative, non-applying server,
      the run reloads nothing. */
  lemma {:induction false} ReloadsNeedGate(s: WatchState, evs: seq<Event>)
    requires forall i | 0 <= i < |evs| :: evs[i].Resume? ==> !StaggerTuner.ShouldReload(evs[i].znet, evs[i].sync)
    ensures Run(s, evs).reloads == s.reloads
    decreases |evs|
  {
    if evs != [] {
      forall i | 0 <= i < |evs[1..]|
        ensures evs[1..][i].Resume? ==> !StaggerTuner.ShouldReload(evs[1..][i].znet, evs[1..][i].sync)
      {
        assert evs[1..][i] == evs[i + 1];
      }
      assert evs[0].Resume? ==> !StaggerTuner.ShouldReload(evs[0].znet, evs[0].sync);
      ReloadsNeedGate(Step(s, evs[0]), evs[1..]);
    }
  }

  /** Echo suppression: while ServerSync is applying an update, edits to the file are
      never turned into reloads, however many notifications and elapses occur. */
  lemma EchoSuppression(s: WatchState, evs: seq<Event>)
    requires forall i | 0 <= i < |evs| :: evs[i].Resume? ==>
      evs[i].sync.Some? && evs[i].sync.value.processingServerUpdate
    ensures Run(s, evs).reloads == s.reloads
  {
    ReloadsNeedGate(s, evs);
  }

  /** The plugin instance's hot-reload state. */
  class Plugin {
    var cfgPath: Option<string>
    var debounce: Option<Timer>
    var cfgWatcher: Option<FileWatcher>
    /** `CoNextFrame` coroutines started and not yet resumed. */
    var pendingFrames: nat
    /** `Config.Reload()` calls made so far. */
    var reloads: nat

    function State(): WatchState
      reads this
    {
      WatchState(cfgPath, debounce, cfgWatcher, pendingFrames, reloads)
    }

    ghost predicate Valid()
      reads this
    {
      Inv(State())
    }

    constructor ()
      ensures Valid() && State() == Initial
    {
      cfgPath := None;
      debounce := None;
      cfgWatcher := None;
      pendingFrames := 0;
      reloads := 0;
    }

    method StartFileWatcher(configFilePath: Option<string>, fileExists: bool,
                            dir: Option<string>, file: Option<string>, watcherCtorThrows: bool)
      requires Valid()
      modifies this
      ensures Valid()
      ensures State() == Start(old(State()), configFilePath, fileExists, dir, file, watcherCtorThrows)
    {
      StartEstablishesInv(State(), configFilePath, fileExists, dir, file, watcherCtorThrows);
      cfgPath := configFilePath;
      if NullOrEmpty(cfgPath) || !fileExists {
        return;
      }
      if NullOrEmpty(dir) || NullOrEmpty(file) {
        return;
      }
      var t := Timer(DebounceIntervalMs, true, false, false);
      t := t.(autoReset := false);
      debounce := Some(t);
      if watcherCtorThrows {
        return;
      }
      var w := FileWatcher(dir.value, file.value, {LastWrite, Size, CreationTime}, true, false, false);
      w := w.(includeSubdirectories := false);
      w := w.(raisingEvents := true);
      cfgWatcher := Some(w);
    }

    /** The `kick` and `kickRename` handlers. */
    method Kick()
      requires Valid()
      modifies this
      ensures Valid()
      ensures State() == Kicked(old(State()))
    {
      if debounce.Some? {
        if !debounce.value.disposed {
          debounce := Some(debounce.value.(enabled := true));
        }
      }
    }

    /** The watcher delivering a notification to the handler subscribed to it. */
    method OnFileEvent(kind: FsEvent)
      requires Valid()
      modifies this
      ensures Valid()
      ensures State() == Step(old(State()), FileEvent(kind))
    {
      if cfgWatcher.Some? && cfgWatcher.value.raisingEvents && !cfgWatcher.value.disposed {
        Kick();
      }
    }

    /** The timer raising `Elapsed`, whose handler calls `UnityMainThread`. */
    method OnElapsed()
      requires Valid()
      modifies this
      ensures Valid()
      ensures State() == Step(old(State()), Elapsed)
    {
      if debounce.Some? && debounce.value.enabled && !debounce.value.disposed {
        debounce := Some(debounce.value.(enabled := debounce.value.autoReset));
        UnityMainThread();
      }
    }

    /** `UnityMainThread`: start a coroutine that runs the reload on the next frame. */
    method UnityMainThread()
      modifies this
      ensures pendingFrames == old(pendingFrames) + 1
      ensures cfgPath == old(cfgPath) && debounce == old(debounce) && cfgWatcher == old(cfgWatcher)
      ensures reloads == old(reloads)
    {
      pendingFrames := pendingFrames + 1;
    }

    /** A pending `CoNextFrame` resuming on a frame and running its action. */
    method OnNextFrame(znet: Option<ZNet>, sync: Option<ConfigSync>)
      requires Valid()
      modifies this
      ensures Valid()
      ensures State() == Step(old(State()), Resume(znet, sync))
    {
      if pendingFrames > 0 {
        pendingFrames := pendingFrames - 1;
        SoftReloadAndResync(znet, sync);
      }
    }

    method SoftReloadAndResync(znet: Option<ZNet>, sync: Option<ConfigSync>)
      modifies this
      ensures State() == SoftReload(old(State()), znet, sync)
    {
      if StaggerTuner.ShouldReload(znet, sync) {
        reloads := reloads + 1;
      }
    }

    method OnDestroy()
      requires Valid()
      modifies this
      ensures Valid()
      ensures State() == Step(old(State()), Destroy)
    {
      if cfgWatcher.Some? {
        cfgWatcher := Some(cfgWatcher.value.(raisingEvents := false));
        cfgWatcher := Some(cfgWatcher.value.(disposed := true));
      }
      if debounce.Some? {
        debounce := Some(debounce.value.(enabled := false, disposed := true));
      }
    }

    /** Any one event, so that a sequence of calls follows `Run`. */
    method Handle(ev: Event)
      requires Valid()
      modifies this
      ensures Valid()
      ensures State() == Step(old(State()), ev)
    {
      match ev
      case FileEvent(kind) => OnFileEvent(kind);
      case Elapsed => OnElapsed();
      case Resume(znet, sync) => OnNextFrame(znet, sync);
      case Destroy => OnDestroy();
    }
  }
}
