/** The scanner's controller: a watcher thread, the buttons and requests that steer it, and
  * the LiDAR callbacks that fill the buffers it saves. Any of them may act between any two
  * steps below. A trigger call is one step. The watcher's loop is cut where it sleeps, around
  * each locked region of the LiDAR client, and around each save.
  */
module Scanner {
  import opened Livox

  datatype AppState =
    | WAIT_FOR_RESOURCES | IDLE | STARTING_SCAN | SCANNING
    | STOPPING | STOPPING_STAGE_1 | STOPPING_STAGE_2 | STOPPED
    | STARTING_STOP_SCAN | STOP_SCAN_IN_PROGRESS | STOP_SCAN_IN_INITIAL_PROGRESS | STOPING_STOP_SCAN
    | LIDAR_ERROR | USB_IO_ERROR

  /** What is fixed when the program is built. */
  datatype Config = Config(oneClick: bool, autostart: bool, waitForLidarSync: bool)

  /** A session records into the directory of continuous scans or that of stop scans. */
  datatype Kind = Continuous | Still

  /** Where the watcher is, with the locals it holds there. */
  datatype Place =
    | MakeStillDirectory | MakeContinuousDirectory
    | Top
    | Waiting
    | Idling | IdleSlept
    | StartLogging | Logging | ScanStarted
    | Scanning(now: int) | ChunkDue | SaveChunk(chunk: Buffers) | TestStage1 | TestStage2
    | Retrieve(kind: Kind) | StopLogging(kindToStop: Kind, last: Buffers) | SaveLast(kindToSave: Kind, toSave: Buffers)
    | StartStill | StillStartLogging | StillLogging

  /** One save: both buffers under one chunk number. */
  datatype Save = Save(kind: Kind, chunk: nat, data: Buffers)

  /** The two clock readings of a press of the button. */
  datatype Press = Press(first: int, last: int)

  /** What was recorded between a `startLog` and its `stopLog`: the batches retrieved are
    * numbers `from` to `to` of all batches, and `lost` was still in the buffers. */
  datatype Session = Session(from: nat, to: nat, accepted: Buffers, lost: Buffers)

  /** The history of a run, which no step looks at: the batches retrieved, the saves made,
    * the sessions finished; of the session under way, where its batches begin and what was
    * accepted; and the presses since scanning was last left. */
  datatype History = History(
    batches: seq<Buffers>,
    saves: seq<Save>,
    sessions: seq<Session>,
    from: nat,
    accepted: Buffers,
    presses: seq<Press>)

  datatype World = World(
    config: Config,
    app: AppState,
    place: Place,
    live: Buffers,
    lidarError: bool,
    clock: int,
    chunkStart: int,
    stage1Deadline: int,
    stage2Deadline: int,
    stopScanInitialDeadline: int,
    stopScanDeadline: int,
    continuousDirectory: bool,
    stillDirectory: bool,
    chunksContinuous: nat,
    chunksStill: nat,
    history: History)

  function Initial(config: Config, clock: int): World {
    World(config, WAIT_FOR_RESOURCES, MakeStillDirectory, NO_BUFFERS, false, clock, clock, clock, clock, clock, clock,
          false, false, 0, 0, History([], [], [], 0, NO_BUFFERS, []))
  }

  // ---------- Triggers ----------

  function StartScan(w: World): World {
    if w.app == IDLE || w.app == STOPPED then w.(app := STARTING_SCAN) else w
  }

  function StopScan(w: World): World {
    if w.app == SCANNING then w.(app := STOPPING) else w
  }

  function TriggerStopScan(w: World): World {
    if w.app == IDLE || w.app == STOPPED then w.(app := STARTING_STOP_SCAN) else w
  }

  /** A press is noted, and takes as long as it takes. */
  function Pressed(w: World, press: Press): World {
    var presses := (if w.app == SCANNING then [] else w.history.presses) + [press];
    w.(clock := press.last, history := w.history.(presses := presses))
  }

  /** A press of the scanning button. `pause` passes between its two looks at the clock. */
  function TriggerContinousScanning(w: World, pause: nat): World {
    var press := Press(w.clock, w.clock + pause);
    var after := Pressed(w, press);
    if w.app == IDLE || w.app == STOPPED then after.(app := STARTING_SCAN)
    else if w.app == SCANNING then
      if w.config.oneClick then after.(app := STOPPING)
      else after.(app := STOPPING_STAGE_1, stage1Deadline := press.first + 2000)
    else if w.app == STOPPING_STAGE_1 then
      if press.first < w.stage1Deadline then
        after.(app := STOPPING_STAGE_2, stage2Deadline := press.last + 2000)
      else after
    else if w.app == STOPPING_STAGE_2 then
      if press.first < w.stage2Deadline then after.(app := STOPPING) else after
    else after
  }

  // ---------- The LiDAR ----------

  function LidarPoints(w: World, kind: PacketType, items: seq<Item>): World {
    w.(live := OnPoints(w.live, kind, items),
       history := w.history.(accepted := OnPoints(w.history.accepted, kind, items)))
  }

  function LidarImu(w: World, kind: PacketType, item: Item): World {
    w.(live := OnImu(w.live, kind, item),
       history := w.history.(accepted := OnImu(w.history.accepted, kind, item)))
  }

  // ---------- The watcher ----------

  function StartLog(w: World): World {
    w.(live := EMPTY_BUFFERS,
       history := w.history.(from := |w.history.batches|, accepted := EMPTY_BUFFERS))
  }

  function StopLog(w: World): World {
    var h := w.history;
    w.(live := NO_BUFFERS,
       history := h.(sessions := h.sessions + [Session(h.from, |h.batches|, h.accepted, w.live)],
                     accepted := NO_BUFFERS))
  }

  function RetrieveData(w: World): World {
    w.(live := EMPTY_BUFFERS, history := w.history.(batches := w.history.batches + [w.live]))
  }

  function SaveData(w: World, kind: Kind, data: Buffers): World {
    var saved := w.(history := w.history.(
      saves := w.history.saves + [Save(kind, w.chunksContinuous + w.chunksStill, data)]));
    match kind
    case Continuous => saved.(chunksContinuous := w.chunksContinuous + 1)
    case Still => saved.(chunksStill := w.chunksStill + 1)
  }

  function HasDirectory(w: World, kind: Kind): bool {
    match kind
    case Continuous => w.continuousDirectory
    case Still => w.stillDirectory
  }

  /** One look at the state at the top of the loop. */
  function Dispatch(w: World): World {
    w.(place := DispatchPlace(w),
       app := if w.app == STOP_SCAN_IN_PROGRESS && w.clock > w.stopScanDeadline then STOPING_STOP_SCAN else w.app)
  }

  function DispatchPlace(w: World): Place {
    match w.app
    case WAIT_FOR_RESOURCES => Waiting
    case IDLE => Idling
    case STARTING_SCAN => StartLogging
    case SCANNING => Scanning(w.clock)
    case STOPPING_STAGE_1 => Scanning(w.clock)
    case STOPPING_STAGE_2 => Scanning(w.clock)
    case STOPPING => Retrieve(Continuous)
    case STARTING_STOP_SCAN => StartStill
    case STOP_SCAN_IN_INITIAL_PROGRESS =>
      if w.clock < w.stopScanInitialDeadline then w.place else StillStartLogging
    case STOP_SCAN_IN_PROGRESS => w.place
    case STOPING_STOP_SCAN => Retrieve(Still)
    case STOPPED => w.place
    case LIDAR_ERROR => w.place
    case USB_IO_ERROR => w.place
  }

  /** The steps that leave the buffers and the files alone. `ok` answers what such a step asks
    * of the world outside: whether a directory was made, or the sensor is synchronized. */
  function WatchQuiet(w: World, ok: bool): (r: World)
    ensures r.live == w.live && r.history == w.history
    ensures r.clock == w.clock && r.config == w.config
    ensures r.chunksContinuous == w.chunksContinuous && r.chunksStill == w.chunksStill
    ensures r.stage1Deadline == w.stage1Deadline && r.stage2Deadline == w.stage2Deadline
  {
    match w.place
    case MakeStillDirectory =>
      w.(place := MakeContinuousDirectory, stillDirectory := ok, app := if ok then w.app else USB_IO_ERROR)
    case MakeContinuousDirectory =>
      w.(place := Top, continuousDirectory := ok, app := if ok then w.app else USB_IO_ERROR)
    case Top => Dispatch(w)
    case Waiting =>
      w.(place := Top, lidarError := w.lidarError || (w.config.waitForLidarSync && !ok), app := IDLE)
    case Idling => w.(place := IdleSlept, app := if w.lidarError then LIDAR_ERROR else w.app)
    case IdleSlept =>
      w.(place := Top, app := if w.config.autostart && !w.lidarError then STARTING_SCAN else w.app)
    case Logging => w.(place := ScanStarted, app := SCANNING)
    case ScanStarted => w.(place := Top, chunkStart := w.clock)
    case Scanning(now) =>
      w.(place := if now - w.chunkStart > 10000 && w.app == SCANNING then ChunkDue else TestStage1)
    case TestStage1 =>
      w.(place := TestStage2,
         app := if w.app == STOPPING_STAGE_1 && w.clock > w.stage1Deadline then SCANNING else w.app)
    case TestStage2 =>
      w.(place := Top,
         app := if w.app == STOPPING_STAGE_2 && w.clock > w.stage2Deadline then SCANNING else w.app)
    case StartStill =>
      w.(place := Top, app := STOP_SCAN_IN_INITIAL_PROGRESS,
         stopScanInitialDeadline := w.clock + 5000, stopScanDeadline := w.clock + 5000 + 30000)
    case StillLogging => w.(place := Top, app := STOP_SCAN_IN_PROGRESS)
    case _ => w
  }

  function WatchStartLog(w: World): World {
    StartLog(w).(place := if w.place.StartLogging? then Logging else StillLogging)
  }

  /** A chunk is due, or recording ends. */
  function WatchRetrieve(w: World): World {
    match w.place
    case Retrieve(kind) => RetrieveData(w).(place := StopLogging(kind, w.live))
    case _ => RetrieveData(w.(chunkStart := w.clock)).(place := SaveChunk(w.live))
  }

  function WatchStopLog(w: World): World
    requires w.place.StopLogging?
  {
    StopLog(w).(place := SaveLast(w.place.kindToStop, w.place.last))
  }

  function WatchSave(w: World): World
    requires w.place.SaveChunk? || w.place.SaveLast?
  {
    match w.place
    case SaveChunk(chunk) =>
      if !w.continuousDirectory then w.(place := TestStage1, app := USB_IO_ERROR)
      else SaveData(w, Continuous, chunk).(place := TestStage1)
    case SaveLast(kind, data) =>
      if !HasDirectory(w, kind) then w.(place := Top, app := USB_IO_ERROR)
      else SaveData(w, kind, data).(place := Top, app := IDLE)
  }

  /** The next step of the watcher. */
  function Watch(w: World, ok: bool): World {
    if w.place.StartLogging? || w.place.StillStartLogging? then WatchStartLog(w)
    else if w.place.ChunkDue? || w.place.Retrieve? then WatchRetrieve(w)
    else if w.place.StopLogging? then WatchStopLog(w)
    else if w.place.SaveChunk? || w.place.SaveLast? then WatchSave(w)
    else WatchQuiet(w, ok)
  }

  // ---------- Runs ----------

  datatype Action =
    | RequestStart | RequestStop | PressStopScan | PressScan(pause: nat)
    | Points(kind: PacketType, items: seq<Item>) | Imu(imuKind: PacketType, item: Item)
    | LidarFails | Tick(time: nat)
    | Watcher(ok: bool)

  function Step(w: World, a: Action): World {
    match a
    case RequestStart => StartScan(w)
    case RequestStop => StopScan(w)
    case PressStopScan => TriggerStopScan(w)
    case PressScan(pause) => TriggerContinousScanning(w, pause)
    case Points(kind, items) => LidarPoints(w, kind, items)
    case Imu(kind, item) => LidarImu(w, kind, item)
    case LidarFails => w.(lidarError := true)
    case Tick(time) => w.(clock := w.clock + time)
    case Watcher(ok) => Watch(w, ok)
  }

  function Run(w: World, actions: seq<Action>): World {
    if actions == [] then w else Step(Run(w, actions[..|actions| - 1]), actions[|actions| - 1])
  }

  // ---------- The program ----------

  /** The controller's globals, with the watcher's locals and place. The clock is what the
    * program reads; the readings of one call are passed in. */
  class Controller {
    const config: Config
    const client: LivoxClient
    var appState: AppState
    var place: Place
    var isLidarError: bool
    var chunkStart: int
    var stage1Deadline: int
    var stage2Deadline: int
    var stopScanInitialDeadline: int
    var stopScanDeadline: int
    var continuousDirectory: bool
    var stillDirectory: bool
    var chunksContinuous: nat
    var chunksStill: nat
    ghost var clock: int
    ghost var history: History

    ghost function Abs(): World
      reads this, client
    {
      World(config, appState, place, client.Abs(), isLidarError, clock, chunkStart, stage1Deadline, stage2Deadline,
            stopScanInitialDeadline, stopScanDeadline, continuousDirectory, stillDirectory,
            chunksContinuous, chunksStill, history)
    }

    constructor (config: Config, now: int)
      ensures Abs() == Initial(config, now) && fresh(client)
    {
      this.config := config;
      client := new LivoxClient();
      appState, place, isLidarError := WAIT_FOR_RESOURCES, MakeStillDirectory, false;
      chunkStart, stage1Deadline, stage2Deadline := now, now, now;
      stopScanInitialDeadline, stopScanDeadline := now, now;
      continuousDirectory, stillDirectory, chunksContinuous, chunksStill := false, false, 0, 0;
      clock, history := now, History([], [], [], 0, NO_BUFFERS, []);
    }

    method RequestStart() returns (done: bool)
      modifies this
      ensures Abs() == StartScan(old(Abs()))
      ensures done <==> old(appState) == IDLE || old(appState) == STOPPED
    {
      if appState == IDLE || appState == STOPPED {
        appState := STARTING_SCAN;
        return true;
      }
      return false;
    }

    method RequestStop() returns (done: bool)
      modifies this
      ensures Abs() == StopScan(old(Abs()))
      ensures done <==> old(appState) == SCANNING
    {
      if appState == SCANNING {
        appState := STOPPING;
        return true;
      }
      return false;
    }

    method PressStopScan() returns (done: bool)
      modifies this
      ensures Abs() == TriggerStopScan(old(Abs()))
      ensures done <==> old(appState) == IDLE || old(appState) == STOPPED
    {
      if appState == IDLE || appState == STOPPED {
        appState := STARTING_STOP_SCAN;
        return true;
      }
      return false;
    }

    ghost method NotePress(press: Press)
      modifies this`clock, this`history
      ensures Abs() == Pressed(old(Abs()), press)
    {
      history := history.(presses := (if appState == SCANNING then [] else history.presses) + [press]);
      clock := press.last;
    }

    /** The answer is `true` also for a press that came too late to have an effect. */
    method PressScan(now: int, later: int) returns (done: bool)
      requires now == clock && now <= later
      modifies this
      ensures Abs() == TriggerContinousScanning(old(Abs()), later - now)
      ensures done <==> old(appState) in {IDLE, STOPPED, SCANNING, STOPPING_STAGE_1, STOPPING_STAGE_2}
    {
      NotePress(Press(now, later));
      if appState == IDLE || appState == STOPPED {
        appState := STARTING_SCAN;
        return true;
      } else if appState == SCANNING {
        if config.oneClick {
          appState := STOPPING;
          return true;
        }
        appState := STOPPING_STAGE_1;
        stage1Deadline := now + 2000;
        return true;
      } else if appState == STOPPING_STAGE_1 {
        if now < stage1Deadline {
          stage2Deadline := later + 2000;
          appState := STOPPING_STAGE_2;
        }
        return true;
      } else if appState == STOPPING_STAGE_2 {
        if now < stage2Deadline {
          appState := STOPPING;
        }
        return true;
      }
      return false;
    }

    method OnPointCloud(kind: PacketType, items: seq<Item>)
      modifies this`history, client
      ensures Abs() == LidarPoints(old(Abs()), kind, items)
    {
      client.PointCloudCallback(kind, items);
      history := history.(accepted := OnPoints(history.accepted, kind, items));
    }

    method OnImuData(kind: PacketType, item: Item)
      modifies this`history, client
      ensures Abs() == LidarImu(old(Abs()), kind, item)
    {
      client.ImuDataCallback(kind, item);
      history := history.(accepted := OnImu(history.accepted, kind, item));
    }

    method StartLogStep()
      requires place.StartLogging? || place.StillStartLogging?
      modifies this`history, this`place, client
      ensures Abs() == WatchStartLog(old(Abs()))
    {
      client.StartLog();
      history := history.(from := |history.batches|, accepted := EMPTY_BUFFERS);
      place := if place.StartLogging? then Logging else StillLogging;
    }

    method RetrieveStep(now: int)
      requires place.ChunkDue? || place.Retrieve?
      requires now == clock
      modifies this`history, this`place, this`chunkStart, client
      ensures Abs() == WatchRetrieve(old(Abs()))
    {
      if place.ChunkDue? {
        chunkStart := now;
      }
      var batch := client.RetrieveData();
      history := history.(batches := history.batches + [batch]);
      place := if place.ChunkDue? then SaveChunk(batch) else StopLogging(place.kind, batch);
    }

    method StopLogStep()
      requires place.StopLogging?
      modifies this`history, this`place, client
      ensures Abs() == WatchStopLog(old(Abs()))
    {
      ghost var live := client.Abs();
      client.StopLog();
      history := history.(
        sessions := history.sessions + [Session(history.from, |history.batches|, history.accepted, live)],
        accepted := NO_BUFFERS);
      place := SaveLast(place.kindToStop, place.last);
    }

    method SaveBatch(kind: Kind, data: Buffers)
      modifies this`history, this`chunksContinuous, this`chunksStill
      ensures Abs() == SaveData(old(Abs()), kind, data)
    {
      history := history.(saves := history.saves + [Save(kind, chunksContinuous + chunksStill, data)]);
      match kind {
        case Continuous => chunksContinuous := chunksContinuous + 1;
        case Still => chunksStill := chunksStill + 1;
      }
    }

    method SaveStep()
      requires place.SaveChunk? || place.SaveLast?
      modifies this
      ensures Abs() == WatchSave(old(Abs()))
    {
      hide SaveData;
      match place {
        case SaveChunk(chunk) =>
          if !continuousDirectory {
            appState := USB_IO_ERROR;
          } else {
            SaveBatch(Continuous, chunk);
          }
          place := TestStage1;
        case SaveLast(kind, data) =>
          var directory := match kind case Continuous => continuousDirectory case Still => stillDirectory;
          if !directory {
            appState := USB_IO_ERROR;
          } else {
            SaveBatch(kind, data);
            appState := IDLE;
          }
          place := Top;
      }
    }

    /** From the top of the loop to the first place where it is cut. */
    method DispatchStep(now: int)
      requires place == Top && now == clock
      modifies this`place, this`appState
      ensures Abs() == Dispatch(old(Abs()))
    {
      if appState == WAIT_FOR_RESOURCES {
        place := Waiting;
      } else if appState == IDLE {
        place := Idling;
      } else if appState == STARTING_SCAN {
        place := StartLogging;
      } else if appState == SCANNING || appState == STOPPING_STAGE_1 || appState == STOPPING_STAGE_2 {
        place := Scanning(now);
      } else if appState == STOPPING {
        place := Retrieve(Continuous);
      } else if appState == STARTING_STOP_SCAN {
        place := StartStill;
      } else if appState == STOP_SCAN_IN_INITIAL_PROGRESS {
        if !(now < stopScanInitialDeadline) {
          place := StillStartLogging;
        }
      } else if appState == STOP_SCAN_IN_PROGRESS {
        if now > stopScanDeadline {
          appState := STOPING_STOP_SCAN;
        }
      } else if appState == STOPING_STOP_SCAN {
        place := Retrieve(Still);
      }
    }

    /** Before the loop, and where nothing is recorded. */
    method IdleStep(ok: bool)
      requires place.MakeStillDirectory? || place.MakeContinuousDirectory? || place.Waiting?
            || place.Idling? || place.IdleSlept?
      modifies this`place, this`appState, this`stillDirectory, this`continuousDirectory, this`isLidarError
      ensures Abs() == WatchQuiet(old(Abs()), ok)
    {
      hide Dispatch;
      if place == MakeStillDirectory {
        if !ok { appState := USB_IO_ERROR; }
        stillDirectory, place := ok, MakeContinuousDirectory;
      } else if place == MakeContinuousDirectory {
        if !ok { appState := USB_IO_ERROR; }
        continuousDirectory, place := ok, Top;
      } else if place == Waiting {
        if config.waitForLidarSync && !ok { isLidarError := true; }
        appState, place := IDLE, Top;
      } else if place == Idling {
        if isLidarError { appState := LIDAR_ERROR; }
        place := IdleSlept;
      } else {
        if config.autostart && !isLidarError { appState := STARTING_SCAN; }
        place := Top;
      }
    }

    /** The other steps that start a recording. */
    method StartScanStep(now: int, ok: bool)
      requires place.Logging? || place.ScanStarted?
      requires now == clock
      modifies this`place, this`appState, this`chunkStart
      ensures Abs() == WatchQuiet(old(Abs()), ok)
    {
      hide Dispatch;
      if place == Logging {
        appState, place := SCANNING, ScanStarted;
      } else {
        chunkStart, place := now, Top;
      }
    }

    method StartStillStep(now: int, ok: bool)
      requires place.StartStill? || place.StillLogging?
      requires now == clock
      modifies this`place, this`appState, this`stopScanInitialDeadline, this`stopScanDeadline
      ensures Abs() == WatchQuiet(old(Abs()), ok)
    {
      hide Dispatch;
      if place == StartStill {
        stopScanInitialDeadline := now + 5000;
        stopScanDeadline := stopScanInitialDeadline + 30000;
        appState, place := STOP_SCAN_IN_INITIAL_PROGRESS, Top;
      } else {
        appState, place := STOP_SCAN_IN_PROGRESS, Top;
      }
    }

    /** While scanning. */
    method ScanStep(now: int, ok: bool)
      requires place.Scanning? || place.TestStage1? || place.TestStage2?
      requires now == clock
      modifies this`place, this`appState
      ensures Abs() == WatchQuiet(old(Abs()), ok)
    {
      hide Dispatch;
      if place.Scanning? {
        place := if place.now - chunkStart > 10000 && appState == SCANNING then ChunkDue else TestStage1;
      } else if place == TestStage1 {
        if appState == STOPPING_STAGE_1 && now > stage1Deadline { appState := SCANNING; }
        place := TestStage2;
      } else {
        if appState == STOPPING_STAGE_2 && now > stage2Deadline { appState := SCANNING; }
        place := Top;
      }
    }

    /** One step of the watcher. */
    method WatchStep(now: int, ok: bool)
      requires now == clock
      modifies this, client
      ensures Abs() == Watch(old(Abs()), ok)
    {
      if place == Top {
        DispatchStep(now);
      } else if place.StartLogging? || place.StillStartLogging? {
        StartLogStep();
      } else if place.ChunkDue? || place.Retrieve? {
        RetrieveStep(now);
      } else if place.StopLogging? {
        StopLogStep();
      } else if place.SaveChunk? || place.SaveLast? {
        SaveStep();
      } else if place.MakeStillDirectory? || place.MakeContinuousDirectory? || place.Waiting?
                || place.Idling? || place.IdleSlept? {
        IdleStep(ok);
      } else if place.Scanning? || place.TestStage1? || place.TestStage2? {
        ScanStep(now, ok);
      } else if place.Logging? || place.ScanStarted? {
        StartScanStep(now, ok);
      } else {
        StartStillStep(now, ok);
      }
    }
  }
}
