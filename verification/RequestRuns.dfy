/** What the requests and the buttons achieve, however triggers, callbacks, the clock and the
  * watcher are interleaved after them.
  */
module RequestRuns {
  import opened Wrappers
  import opened Livox
  import opened Scanner
  import opened ScannerRuns

  // ---------- Ending a session ----------

  /** A session is to end that records into the directory of its kind; `sessions` were finished
    * before it. */
  predicate Ending(w: World, kind: Kind, sessions: seq<Session>) {
    && w.app == (if kind == Continuous then STOPPING else STOPING_STOP_SCAN)
    && if w.place.SaveLast? then OneMore(w.history.sessions, sessions) else w.history.sessions == sessions
  }

  predicate OneMore(sessions: seq<Session>, before: seq<Session>) {
    |sessions| == |before| + 1 && sessions[..|before|] == before
  }

  /** The session has ended: all its batches are saved, the last one as what it was recorded
    * as, and the scanner rests. */
  predicate Ended(w: World, kind: Kind, sessions: seq<Session>) {
    var h := w.history;
    && w.app == IDLE && w.live == NO_BUFFERS
    && OneMore(h.sessions, sessions)
    && h.saves != [] && h.sessions[|sessions|].to == |h.saves| && h.saves[|h.saves| - 1].kind == kind
  }

  /** The watcher's steps up to the last save. */
  function StepsToEnd(place: Place): nat {
    match place
    case SaveLast(_, _) => 1
    case StopLogging(_, _) => 2
    case Retrieve(_) => 3
    case Top => 4
    case TestStage2 => 5
    case TestStage1 => 6
    case SaveChunk(_) => 7
    case Scanning(_) => 7
    case ChunkDue => 8
    case _ => 5
  }

  lemma EndingOther(w: World, kind: Kind, sessions: seq<Session>, a: Action)
    requires Ending(w, kind, sessions) && !a.Watcher?
    ensures Ending(Step(w, a), kind, sessions) && Step(w, a).place == w.place
  {
    if IsTrigger(a) {
      TriggerFrame(w, a);
      TriggerMoves(w, a);
    } else {
      LidarFrame(w, a);
    }
    hide Step;
  }

  lemma EndingQuiet(w: World, kind: Kind, sessions: seq<Session>, ok: bool)
    requires Phases(w) && Ending(w, kind, sessions) && !IsRecordPlace(w.place)
    ensures var r := WatchQuiet(w, ok); Ending(r, kind, sessions) && StepsToEnd(r.place) < StepsToEnd(w.place)
  {
    assert w.place.Top? || w.place.ScanStarted? || IsScanPlace(w.place);
    hide DirectoriesMade, Recording;
  }

  lemma EndingRecord(w: World, kind: Kind, sessions: seq<Session>, ok: bool)
    requires Phases(w) && Ending(w, kind, sessions) && IsRecordPlace(w.place) && !w.place.SaveLast?
    ensures var r := Watch(w, ok); Ending(r, kind, sessions) && StepsToEnd(r.place) < StepsToEnd(w.place)
  {
    if w.place.SaveChunk? {
      DirectoriesThere(w);
    }
    hide DirectoriesMade, Recording, WatchQuiet;
  }

  lemma EndingSave(w: World, kind: Kind, sessions: seq<Session>)
    requires Inv(w) && Ending(w, kind, sessions) && w.place.SaveLast?
    requires Inv(WatchSave(w))
    ensures Ended(WatchSave(w), kind, sessions)
  {
    DirectoriesThere(w);
    var r := WatchSave(w);
    LastSession(r);
    hide Inv, DirectoriesMade, Recording;
  }

  lemma LastSession(w: World)
    requires Inv(w) && w.app == IDLE && w.place.Top?
    ensures var h := w.history;
            w.live == NO_BUFFERS && (h.sessions != [] ==> h.sessions[|h.sessions| - 1].to == |h.saves|)
  {
    assert |w.history.batches| == |SavedData(w.history.saves)|;
    hide Fits, DirectoriesMade, Accounted, Numbered, Staged, Settled, SavedData;
  }

  lemma EndingStep(w: World, kind: Kind, sessions: seq<Session>, a: Action)
    requires Inv(w) && Ending(w, kind, sessions)
    ensures var r := Step(w, a);
            && Inv(r)
            && if a.Watcher? && w.place.SaveLast? then Ended(r, kind, sessions)
               else Ending(r, kind, sessions) && StepsToEnd(r.place) <= StepsToEnd(w.place) - (if a.Watcher? then 1 else 0)
  {
    InvStep(w, a);
    if !a.Watcher? {
      EndingOther(w, kind, sessions, a);
      hide Step;
    } else if w.place.SaveLast? {
      EndingSave(w, kind, sessions);
    } else if IsRecordPlace(w.place) {
      EndingRecord(w, kind, sessions, a.ok);
      hide Watch;
    } else {
      EndingQuiet(w, kind, sessions, a.ok);
    }
    hide Inv, Ending, Ended, StepsToEnd, WatchQuiet, WatchSave;
  }

  /** The first step, and the run from there. */
  lemma RunOn(w: World, actions: seq<Action>, j: nat)
    requires j < |actions|
    ensures Run(w, actions[..j + 1]) == Run(Step(w, actions[0]), actions[1..][..j])
    ensures WatcherSteps(actions[..j + 1]) == (if actions[0].Watcher? then 1 else 0) + WatcherSteps(actions[1..][..j])
    ensures j == 0 ==> Run(w, actions[..j + 1]) == Step(w, actions[0])
  {
    RunFromFirst(w, actions[..j + 1]);
    assert actions[..j + 1][1..] == actions[1..][..j];
    hide Step;
  }

  lemma FirstCounted(actions: seq<Action>)
    ensures WatcherSteps(actions) > 0 ==> actions != []
    ensures actions != [] ==> WatcherSteps(actions) == (if actions[0].Watcher? then 1 else 0) + WatcherSteps(actions[1..])
    ensures actions == [] ==> WatcherSteps(actions) == 0
    ensures WatcherSteps(actions[..0]) == 0
  {
  }

  /** A session that is to end does end within eight steps of the watcher, saved. */
  lemma {:induction false} EndsSaved(w: World, kind: Kind, sessions: seq<Session>, actions: seq<Action>) returns (k: nat)
    requires Inv(w) && Ending(w, kind, sessions) && WatcherSteps(actions) >= StepsToEnd(w.place)
    ensures k <= |actions| && WatcherSteps(actions[..k]) <= StepsToEnd(w.place) <= 8
    ensures Ended(Run(w, actions[..k]), kind, sessions)
    decreases actions
  {
    assert 1 <= StepsToEnd(w.place) <= 8;
    hide Inv, Ending, Ended, Step, Run, WatcherSteps, StepsToEnd;
    FirstCounted(actions);
    var a := actions[0];
    EndingStep(w, kind, sessions, a);
    if a.Watcher? && w.place.SaveLast? {
      k := 1;
      RunOn(w, actions, 0);
    } else {
      var j := EndsSaved(Step(w, a), kind, sessions, actions[1..]);
      k := j + 1;
      RunOn(w, actions, j);
    }
  }

  /** What stops a continuous scan: the request, or where one click does, the button. */
  predicate StopsScan(config: Config, a: Action) {
    a.RequestStop? || (a.PressScan? && config.oneClick)
  }

  /** While scanning, a stop request ends the session: within eight steps of the watcher,
    * whatever else happens, there is one session more, all of it saved, and the scanner rests. */
  lemma StopEnds(w: World, a: Action, actions: seq<Action>) returns (k: nat)
    requires Inv(w) && w.app == SCANNING && StopsScan(w.config, a) && WatcherSteps(actions) >= 8
    ensures k <= |actions| && WatcherSteps(actions[..k]) <= 8
    ensures Ended(Run(Step(w, a), actions[..k]), Continuous, w.history.sessions)
  {
    InvStep(w, a);
    StopIsEnding(w, a);
    hide Inv, Ending, Ended, Step;
    k := EndsSaved(Step(w, a), Continuous, w.history.sessions, actions);
  }

  lemma StopIsEnding(w: World, a: Action)
    requires Phases(w) && w.app == SCANNING && StopsScan(w.config, a)
    ensures var r := Step(w, a); Ending(r, Continuous, w.history.sessions) && StepsToEnd(r.place) <= 8
  {
    TriggerFrame(w, a);
    hide DirectoriesMade, Recording;
  }

  // ---------- Starting one ----------

  /** The LiDAR fails before the watcher's n-th step from now. */
  predicate FailsBefore(actions: seq<Action>, n: nat) {
    && actions != [] && n > 0
    && if actions[0].Watcher? then FailsBefore(actions[1..], n - 1)
       else actions[0].LidarFails? || FailsBefore(actions[1..], n)
  }

  lemma FailsStep(actions: seq<Action>, n: nat)
    requires actions != []
    ensures FailsBefore(actions, n + 1)
         == if actions[0].Watcher? then FailsBefore(actions[1..], n)
            else actions[0].LidarFails? || FailsBefore(actions[1..], n + 1)
    ensures !FailsBefore(actions[1..], 0)
  {
  }

  /** A recording of the kind is live. */
  predicate Records(w: World, kind: Kind) {
    && w.app == (if kind == Continuous then SCANNING else STOP_SCAN_IN_PROGRESS)
    && (if kind == Continuous then w.place.ScanStarted? else w.place.Top?)
    && NoNulls(w.live) && w.history.from == |w.history.batches|
  }

  /** A continuous scan is to start. */
  predicate Starting(w: World) {
    && w.app == STARTING_SCAN
    && (w.place.Idling? || w.place.IdleSlept? || w.place.Top? || w.place.StartLogging? || w.place.Logging?)
    && (w.place.Logging? ==> w.history.from == |w.history.batches|)
  }

  function StepsToStart(place: Place): nat {
    match place
    case Logging => 1
    case StartLogging => 2
    case Top => 3
    case IdleSlept => 4
    case _ => 5
  }

  lemma StartingStep(w: World, a: Action)
    requires Inv(w) && Starting(w)
    ensures var r := Step(w, a);
            && r.history.sessions == w.history.sessions
            && if !a.Watcher? then Starting(r) && r.place == w.place && r.lidarError == (w.lidarError || a.LidarFails?)
               else if w.place.Logging? then Records(r, Continuous)
               else if w.place.Idling? && w.lidarError then r.app == LIDAR_ERROR
               else Starting(r) && StepsToStart(r.place) < StepsToStart(w.place) && !r.place.Idling?
  {
    hide Retrieved, Accounted, SessionsSettled, Numbered, Staged, Fits, DirectoriesMade;
    if IsTrigger(a) {
      TriggerFrame(w, a);
      TriggerMoves(w, a);
      FailureNoted(w, a);
      hide Step;
    } else if !a.Watcher? {
      LidarFrame(w, a);
      hide Step;
    }
  }

  lemma FailureNoted(w: World, a: Action)
    requires IsTrigger(a)
    ensures Step(w, a).lidarError == (w.lidarError || a.LidarFails?)
  {
  }

  /** A start request leads to a live recording of a continuous scan within five steps of the
    * watcher, unless the LiDAR has failed when the idle watcher looks; then to the error. */
  lemma {:induction false} StartsRecording(w: World, actions: seq<Action>) returns (k: nat)
    requires Inv(w) && Starting(w) && WatcherSteps(actions) >= StepsToStart(w.place)
    ensures k <= |actions| && WatcherSteps(actions[..k]) <= StepsToStart(w.place) <= 5
    ensures var r := Run(w, actions[..k]);
            && r.history.sessions == w.history.sessions
            && if w.place.Idling? && (w.lidarError || FailsBefore(actions, 1)) then r.app == LIDAR_ERROR else Records(r, Continuous)
    decreases actions
  {
    assert 1 <= StepsToStart(w.place) <= 5;
    hide Inv, Records, Step, Starting, FailsBefore, Run, WatcherSteps, StepsToStart;
    FirstCounted(actions);
    var a := actions[0];
    InvStep(w, a);
    StartingStep(w, a);
    FailsStep(actions, 0);
    if a.Watcher? && (w.place.Logging? || (w.place.Idling? && w.lidarError)) {
      k := 1;
      RunOn(w, actions, 0);
    } else {
      var j := StartsRecording(Step(w, a), actions[1..]);
      k := j + 1;
      RunOn(w, actions, j);
    }
  }

  lemma RequestIsStarting(w: World, a: Action)
    requires Phases(w) && w.app == IDLE && (a.RequestStart? || a.PressScan?)
    ensures var r := Step(w, a);
            Starting(r) && r.place == w.place && r.lidarError == w.lidarError && r.history.sessions == w.history.sessions
  {
    TriggerFrame(w, a);
    FailureNoted(w, a);
    hide DirectoriesMade, Recording;
  }

  /** At rest, a start request or the button has just that effect. */
  lemma RequestRecords(w: World, a: Action, actions: seq<Action>) returns (k: nat)
    requires Inv(w) && w.app == IDLE && (a.RequestStart? || a.PressScan?) && WatcherSteps(actions) >= 5
    ensures k <= |actions| && WatcherSteps(actions[..k]) <= 5
    ensures var r := Run(Step(w, a), actions[..k]);
            && r.history.sessions == w.history.sessions
            && if w.place.Idling? && (w.lidarError || FailsBefore(actions, 1)) then r.app == LIDAR_ERROR else Records(r, Continuous)
  {
    InvStep(w, a);
    RequestIsStarting(w, a);
    hide Inv, Records, Step, Starting;
    k := StartsRecording(Step(w, a), actions);
  }

  // ---------- Stop scans ----------

  predicate StillStarting(w: World) {
    w.app == STARTING_STOP_SCAN && (w.place.Idling? || w.place.IdleSlept? || w.place.Top? || w.place.StartStill?)
  }

  /** A stop scan waits for the scanner to come to rest: recording begins five seconds from
    * now, and thirty seconds later it ends. */
  predicate StillBegun(w: World) {
    && w.app == STOP_SCAN_IN_INITIAL_PROGRESS && w.place.Top?
    && w.stopScanInitialDeadline == w.clock + 5000 && w.stopScanDeadline == w.clock + 35000
  }

  function StepsToStill(place: Place): nat {
    match place
    case StartStill => 1
    case Top => 2
    case IdleSlept => 3
    case _ => 4
  }

  lemma StillStartingOther(w: World, a: Action)
    requires StillStarting(w) && !a.Watcher?
    ensures var r := Step(w, a);
            && r.history.sessions == w.history.sessions && r.config == w.config
            && StillStarting(r) && r.place == w.place && r.lidarError == (w.lidarError || a.LidarFails?)
  {
    if IsTrigger(a) {
      TriggerFrame(w, a);
      TriggerMoves(w, a);
      FailureNoted(w, a);
    } else {
      LidarFrame(w, a);
    }
    hide Step;
  }

  lemma StillStartingWatch(w: World, ok: bool)
    requires StillStarting(w)
    ensures var r := WatchQuiet(w, ok);
            && r.history.sessions == w.history.sessions && r.config == w.config
            && if w.place.StartStill? then StillBegun(r)
               else if w.place.Idling? && w.lidarError then r.app == LIDAR_ERROR
               else if w.place.IdleSlept? && w.config.autostart && !w.lidarError then Starting(r)
               else StillStarting(r) && StepsToStill(r.place) == StepsToStill(w.place) - 1 && r.lidarError == w.lidarError
  {
  }

  lemma StillStartingStep(w: World, a: Action)
    requires StillStarting(w)
    ensures var r := Step(w, a);
            && r.history.sessions == w.history.sessions && r.config == w.config
            && if !a.Watcher? then StillStarting(r) && r.place == w.place && r.lidarError == (w.lidarError || a.LidarFails?)
               else if w.place.StartStill? then StillBegun(r)
               else if w.place.Idling? && w.lidarError then r.app == LIDAR_ERROR
               else if w.place.IdleSlept? && w.config.autostart && !w.lidarError then Starting(r)
               else StillStarting(r) && StepsToStill(r.place) == StepsToStill(w.place) - 1 && r.lidarError == w.lidarError
  {
    if a.Watcher? {
      StillStartingWatch(w, a.ok);
      hide WatchQuiet;
    } else {
      StillStartingOther(w, a);
      hide Step;
    }
    hide StillBegun, Starting, StepsToStill;
  }

  /** Where the request for a stop scan leads: to the error if the LiDAR has failed when the
    * idle watcher looks, to a continuous scan if the program starts scans by itself and the
    * watcher has not looked since its sleep, and to a stop scan otherwise. */
  lemma {:induction false} StillBegins(w: World, actions: seq<Action>) returns (k: nat)
    requires Inv(w) && StillStarting(w) && WatcherSteps(actions) >= StepsToStill(w.place)
    ensures k <= |actions| && WatcherSteps(actions[..k]) <= StepsToStill(w.place) <= 4
    ensures var r := Run(w, actions[..k]);
            && r.history.sessions == w.history.sessions
            && if w.place.Idling? && (w.lidarError || FailsBefore(actions, 1)) then r.app == LIDAR_ERROR
               else if w.config.autostart && ((w.place.IdleSlept? && !w.lidarError && !FailsBefore(actions, 1))
                                              || (w.place.Idling? && !FailsBefore(actions, 2))) then Starting(r)
               else StillBegun(r)
    decreases actions
  {
    assert 1 <= StepsToStill(w.place) <= 4;
    hide Inv, StillBegun, Step, Starting, FailsBefore, Run, WatcherSteps, StepsToStill;
    FirstCounted(actions);
    var a := actions[0];
    InvStep(w, a);
    StillStartingStep(w, a);
    FailsStep(actions, 0);
    FailsStep(actions, 1);
    if a.Watcher? && (w.place.StartStill? || (w.place.Idling? && w.lidarError)
                      || (w.place.IdleSlept? && w.config.autostart && !w.lidarError)) {
      k := 1;
      RunOn(w, actions, 0);
    } else {
      var j := StillBegins(Step(w, a), actions[1..]);
      k := j + 1;
      RunOn(w, actions, j);
    }
  }

  lemma PressIsStillStarting(w: World)
    requires Phases(w) && w.app == IDLE
    ensures var r := Step(w, PressStopScan);
            && StillStarting(r) && r.place == w.place && r.lidarError == w.lidarError
            && r.config == w.config && r.history.sessions == w.history.sessions
  {
    TriggerFrame(w, PressStopScan);
    hide DirectoriesMade, Recording;
  }

  lemma PressBegins(w: World, actions: seq<Action>) returns (k: nat)
    requires Inv(w) && w.app == IDLE && WatcherSteps(actions) >= 4
    ensures k <= |actions| && WatcherSteps(actions[..k]) <= 4
    ensures var r := Run(Step(w, PressStopScan), actions[..k]);
            && r.history.sessions == w.history.sessions
            && if w.place.Idling? && (w.lidarError || FailsBefore(actions, 1)) then r.app == LIDAR_ERROR
               else if w.config.autostart && ((w.place.IdleSlept? && !w.lidarError && !FailsBefore(actions, 1))
                                              || (w.place.Idling? && !FailsBefore(actions, 2))) then Starting(r)
               else StillBegun(r)
  {
    InvStep(w, PressStopScan);
    PressIsStillStarting(w);
    hide Inv, StillBegun, Step, Starting;
    k := StillBegins(Step(w, PressStopScan), actions);
  }

  // ---------- The times of a stop scan ----------

  lemma DeadlinesKept(w: World, a: Action)
    requires !a.Watcher?
    ensures var r := Step(w, a);
            && r.stopScanInitialDeadline == w.stopScanInitialDeadline && r.stopScanDeadline == w.stopScanDeadline
            && r.clock >= w.clock && r.place == w.place && r.history.sessions == w.history.sessions
  {
    if a.PressScan? {
      PressKeeps(w, a.pause);
    }
    hide TriggerContinousScanning, OnPoints, OnImu;
  }

  lemma PressKeeps(w: World, pause: nat)
    ensures var r := TriggerContinousScanning(w, pause);
            && r.stopScanInitialDeadline == w.stopScanInitialDeadline && r.stopScanDeadline == w.stopScanDeadline
            && r.clock >= w.clock && r.place == w.place && r.history.sessions == w.history.sessions
  {
  }

  lemma ClockStep(w: World, a: Action)
    ensures Step(w, a).clock >= w.clock
  {
    if a.Watcher? {
      hide WatchQuiet;
    } else {
      DeadlinesKept(w, a);
      hide Step;
    }
  }

  /** The watcher waits, in the state and up to the deadline given. */
  predicate Awaits(w: World, app: AppState, deadline: int) {
    && w.app == app && w.place.Top?
    && (app == STOP_SCAN_IN_INITIAL_PROGRESS || app == STOP_SCAN_IN_PROGRESS)
    && deadline == if app == STOP_SCAN_IN_PROGRESS then w.stopScanDeadline else w.stopScanInitialDeadline
  }

  predicate NotYet(w: World, app: AppState, deadline: int) {
    if app == STOP_SCAN_IN_PROGRESS then w.clock <= deadline else w.clock < deadline
  }

  lemma AwaitsStep(w: World, app: AppState, deadline: int, a: Action)
    requires Awaits(w, app, deadline) && (a.Watcher? ==> NotYet(w, app, deadline))
    ensures var r := Step(w, a);
            && Awaits(r, app, deadline) && r.stopScanDeadline == w.stopScanDeadline
            && NoNulls(r.live) == NoNulls(w.live) && r.history.sessions == w.history.sessions
            && r.history.batches == w.history.batches && r.history.from == w.history.from
  {
    if !a.Watcher? {
      DeadlinesKept(w, a);
      if IsTrigger(a) {
        TriggerFrame(w, a);
        TriggerMoves(w, a);
      } else {
        LidarFrame(w, a);
      }
      hide Step;
    }
  }

  /** Before its deadline, whatever happens, a stop scan neither begins to record nor ends. */
  lemma {:induction false} StillWaits(w: World, app: AppState, deadline: int, actions: seq<Action>)
    requires Awaits(w, app, deadline) && NotYet(Run(w, actions), app, deadline)
    ensures var r := Run(w, actions);
            && Awaits(r, app, deadline) && r.stopScanDeadline == w.stopScanDeadline
            && NoNulls(r.live) == NoNulls(w.live) && r.history.sessions == w.history.sessions
            && r.history.batches == w.history.batches && r.history.from == w.history.from
  {
    if actions != [] {
      var before, a := actions[..|actions| - 1], actions[|actions| - 1];
      ClockStep(Run(w, before), a);
      hide Step, Awaits, NoNulls;
      StillWaits(w, app, deadline, before);
      AwaitsStep(Run(w, before), app, deadline, a);
    }
  }

  /** The scanner is at rest for a stop scan, and its time has come. */
  predicate StillDue(w: World) {
    && w.app == STOP_SCAN_IN_INITIAL_PROGRESS
    && (w.place.Top? || w.place.StillStartLogging? || w.place.StillLogging?)
    && (w.place.Top? ==> w.clock >= w.stopScanInitialDeadline)
    && (w.place.StillLogging? ==> w.history.from == |w.history.batches|)
  }

  function StepsToRecord(place: Place): nat {
    match place
    case StillLogging => 1
    case StillStartLogging => 2
    case _ => 3
  }

  lemma StillDueStep(w: World, a: Action)
    requires Inv(w) && StillDue(w)
    ensures var r := Step(w, a);
            && r.history.sessions == w.history.sessions && r.stopScanDeadline == w.stopScanDeadline
            && if !a.Watcher? then StillDue(r) && r.place == w.place
               else if w.place.StillLogging? then Records(r, Still)
               else StillDue(r) && StepsToRecord(r.place) < StepsToRecord(w.place)
  {
    hide Retrieved, Accounted, SessionsSettled, Numbered, Staged, Fits, DirectoriesMade;
    if !a.Watcher? {
      DeadlinesKept(w, a);
      if IsTrigger(a) {
        TriggerFrame(w, a);
        TriggerMoves(w, a);
      } else {
        LidarFrame(w, a);
      }
      hide Step;
    }
  }

  /** After the first deadline it records within three steps of the watcher. */
  lemma {:induction false} StillRecords(w: World, actions: seq<Action>) returns (k: nat)
    requires Inv(w) && StillDue(w) && WatcherSteps(actions) >= StepsToRecord(w.place)
    ensures k <= |actions| && WatcherSteps(actions[..k]) <= StepsToRecord(w.place) <= 3
    ensures var r := Run(w, actions[..k]);
            && Records(r, Still)
            && r.history.sessions == w.history.sessions && r.stopScanDeadline == w.stopScanDeadline
    decreases actions
  {
    assert 1 <= StepsToRecord(w.place) <= 3;
    hide Inv, Records, Step, StillDue, Run, WatcherSteps, StepsToRecord;
    FirstCounted(actions);
    var a := actions[0];
    InvStep(w, a);
    StillDueStep(w, a);
    if a.Watcher? && w.place.StillLogging? {
      k := 1;
      RunOn(w, actions, 0);
    } else {
      var j := StillRecords(Step(w, a), actions[1..]);
      k := j + 1;
      RunOn(w, actions, j);
    }
  }

  /** A stop scan records, and its second deadline is past. */
  predicate StillDone(w: World) {
    w.app == STOP_SCAN_IN_PROGRESS && w.place.Top? && w.clock > w.stopScanDeadline
  }

  lemma AfterDeadline(w: World, ok: bool)
    requires StillDone(w)
    ensures var r := Step(w, Watcher(ok)); Ending(r, Still, w.history.sessions) && r.place.Top?
  {
  }

  lemma StillDoneOther(w: World, a: Action)
    requires StillDone(w) && !a.Watcher?
    ensures var r := Step(w, a);
            StillDone(r) && r.history.sessions == w.history.sessions
  {
    DeadlinesKept(w, a);
    if IsTrigger(a) {
      TriggerMoves(w, a);
    } else {
      LidarFrame(w, a);
    }
    hide Step;
  }

  /** After the second one it ends within five, and is saved as a stop scan. */
  lemma {:induction false} StillEnds(w: World, actions: seq<Action>) returns (k: nat)
    requires Inv(w) && StillDone(w) && WatcherSteps(actions) >= 5
    ensures k <= |actions| && WatcherSteps(actions[..k]) <= 5
    ensures Ended(Run(w, actions[..k]), Still, w.history.sessions)
    decreases actions
  {
    hide Inv, Ending, Ended, Step, Run, WatcherSteps, StillDone;
    FirstCounted(actions);
    var a := actions[0];
    InvStep(w, a);
    var j: nat;
    if a.Watcher? {
      AfterDeadline(w, a.ok);
      j := EndsSaved(Step(w, a), Still, w.history.sessions, actions[1..]);
    } else {
      StillDoneOther(w, a);
      j := StillEnds(Step(w, a), actions[1..]);
    }
    k := j + 1;
    RunOn(w, actions, j);
  }
}
