/** What holds in every run of the controller, however triggers, callbacks, the clock and the
  * watcher are interleaved.
  */
module ScannerRuns {
  import opened Wrappers
  import opened Livox
  import opened Scanner

  // ---------- Phases ----------

  predicate IsScanState(app: AppState) {
    app == SCANNING || app == STOPPING_STAGE_1 || app == STOPPING_STAGE_2 || app == STOPPING
  }

  predicate IsRestState(app: AppState) {
    app == IDLE || app == STARTING_SCAN || app == STARTING_STOP_SCAN
  }

  /** The recording and saving phases. */
  predicate Recording(w: World) {
    match w.place
    case Top => IsScanState(w.app) || w.app == STOP_SCAN_IN_PROGRESS || w.app == STOPING_STOP_SCAN
    case MakeStillDirectory => false
    case MakeContinuousDirectory => false
    case Waiting => false
    case Idling => false
    case IdleSlept => false
    case StartLogging => false
    case StartStill => false
    case StillStartLogging => false
    case SaveLast(_, _) => false
    case _ => true
  }

  /** The states the program can be in while the watcher is at a place. */
  predicate Fits(place: Place, app: AppState) {
    match place
    case MakeStillDirectory => app == WAIT_FOR_RESOURCES
    case MakeContinuousDirectory => app == WAIT_FOR_RESOURCES || app == USB_IO_ERROR
    case Top => app != STOPPED
    case Waiting => app == WAIT_FOR_RESOURCES
    case Idling => IsRestState(app)
    case IdleSlept => IsRestState(app) || app == LIDAR_ERROR
    case StartLogging => app == STARTING_SCAN
    case Logging => app == STARTING_SCAN
    case ScanStarted => IsScanState(app)
    case Scanning(_) => IsScanState(app)
    case ChunkDue => IsScanState(app)
    case SaveChunk(_) => IsScanState(app)
    case TestStage1 => IsScanState(app)
    case TestStage2 => IsScanState(app)
    case Retrieve(kind) => app == if kind == Continuous then STOPPING else STOPING_STOP_SCAN
    case StopLogging(kind, _) => app == if kind == Continuous then STOPPING else STOPING_STOP_SCAN
    case SaveLast(kind, _) => app == if kind == Continuous then STOPPING else STOPING_STOP_SCAN
    case StartStill => app == STARTING_STOP_SCAN
    case StillStartLogging => app == STOP_SCAN_IN_INITIAL_PROGRESS
    case StillLogging => app == STOP_SCAN_IN_INITIAL_PROGRESS
  }

  /** Unless the program has failed, the directories made so far are there. */
  predicate DirectoriesMade(w: World) {
    w.app == USB_IO_ERROR
    || ((w.place.MakeStillDirectory? || w.stillDirectory)
        && (w.place.MakeStillDirectory? || w.place.MakeContinuousDirectory? || w.continuousDirectory))
  }

  predicate Phases(w: World) {
    && Fits(w.place, w.app)
    && DirectoriesMade(w)
    && (w.app == LIDAR_ERROR ==> w.lidarError)
    && w.live.points.Some? == w.live.imus.Some? == Recording(w)
  }

  // ---------- The ledger ----------

  datatype Part = PointPart | ImuPart

  function Of(b: Buffers, part: Part): Option<seq<Item>> {
    match part
    case PointPart => b.points
    case ImuPart => b.imus
  }

  /** What the batches hold, in order. */
  function Joined(batches: seq<Buffers>, part: Part): seq<Item> {
    if batches == [] then []
    else
      var last := Of(batches[|batches| - 1], part);
      Joined(batches[..|batches| - 1], part) + if last.Some? then last.value else []
  }

  /** The batches and what is in the buffers are all that was accepted. */
  predicate Balanced(batches: seq<Buffers>, rest: Buffers, accepted: Buffers, part: Part) {
    && Of(rest, part).Some? && Of(accepted, part).Some?
    && Joined(batches, part) + Of(rest, part).value == Of(accepted, part).value
  }

  /** The watcher holds at most one batch not saved yet. */
  function Held(place: Place): seq<Buffers> {
    match place
    case SaveChunk(chunk) => [chunk]
    case StopLogging(_, last) => [last]
    case SaveLast(_, data) => [data]
    case _ => []
  }

  function SavedData(saves: seq<Save>): (data: seq<Buffers>)
    ensures |data| == |saves|
  {
    seq(|saves|, k requires 0 <= k < |saves| => saves[k].data)
  }

  predicate NoNulls(b: Buffers) {
    b.points.Some? && b.imus.Some?
  }

  /** A finished session ended with a retrieval, and lost no more than it had left. */
  predicate Settled(s: Session, batches: seq<Buffers>) {
    && s.from < s.to <= |batches|
    && Balanced(batches[s.from..s.to], s.lost, s.accepted, PointPart)
    && Balanced(batches[s.from..s.to], s.lost, s.accepted, ImuPart)
  }

  /** The sessions share out the batches among them, in order, up to the returned number. */
  function SharedOut(sessions: seq<Session>): Option<nat> {
    if sessions == [] then Some(0)
    else
      var last := sessions[|sessions| - 1];
      if SharedOut(sessions[..|sessions| - 1]) == Some(last.from) then Some(last.to) else None
  }

  predicate Retrieved(w: World) {
    && (forall b | b in w.history.batches :: NoNulls(b))
    && w.history.batches == SavedData(w.history.saves) + Held(w.place)
    && (w.place.StopLogging? ==> w.history.from < |w.history.batches|)
  }

  predicate Accounted(w: World) {
    var h := w.history;
    && h.from <= |h.batches|
    && w.live.points.Some? == h.accepted.points.Some? && w.live.imus.Some? == h.accepted.imus.Some?
    && (NoNulls(w.live) ==>
          && Balanced(h.batches[h.from..], w.live, h.accepted, PointPart)
          && Balanced(h.batches[h.from..], w.live, h.accepted, ImuPart))
  }

  predicate SessionsSettled(w: World) {
    var h := w.history;
    && (forall s | s in h.sessions :: Settled(s, h.batches))
    && SharedOut(h.sessions) == Some(if NoNulls(w.live) then h.from else |h.batches|)
  }

  /** Chunks are numbered as they are saved, over both directories. */
  predicate Numbered(w: World) {
    && |w.history.saves| == w.chunksContinuous + w.chunksStill
    && forall k | 0 <= k < |w.history.saves| :: w.history.saves[k].chunk == k
  }

  // ---------- Presses ----------

  /** How far the presses have come since scanning was left, and what the deadlines are. */
  predicate Staged(w: World) {
    var ps := w.history.presses;
    && (w.app == STOPPING_STAGE_1 ==>
          && !w.config.oneClick && |ps| >= 1
          && w.stage1Deadline == ps[0].first + 2000
          && (|ps| > 1 ==> w.clock >= w.stage1Deadline))
    && (w.app == STOPPING_STAGE_2 ==>
          && !w.config.oneClick && |ps| >= 2
          && ps[1].first - ps[0].first < 2000
          && w.stage2Deadline == ps[1].last + 2000
          && (|ps| > 2 ==> w.clock >= w.stage2Deadline))
  }

  predicate Inv(w: World) {
    Phases(w) && Retrieved(w) && Accounted(w) && SessionsSettled(w) && Numbered(w) && Staged(w)
  }

  lemma InitialInv(config: Config, clock: int)
    ensures Inv(Initial(config, clock))
  {
  }

  // ---------- Triggers, the clock and the LiDAR ----------

  predicate IsTrigger(a: Action) {
    a.RequestStart? || a.RequestStop? || a.PressStopScan? || a.PressScan? || a.LidarFails? || a.Tick?
  }

  /** A trigger touches the state, the deadlines and the presses, and no record. */
  lemma TriggerFrame(w: World, a: Action)
    requires IsTrigger(a)
    ensures var r := Step(w, a);
            && r.place == w.place && r.live == w.live && r.config == w.config
            && r.history == w.history.(presses := r.history.presses)
            && r.chunksContinuous == w.chunksContinuous && r.chunksStill == w.chunksStill
            && r.continuousDirectory == w.continuousDirectory && r.stillDirectory == w.stillDirectory
            && (w.lidarError ==> r.lidarError)
  {
  }

  /** The moves a trigger can make. */
  predicate CanMove(from: AppState, to: AppState) {
    || to == from
    || ((from == IDLE || from == STOPPED) && (to == STARTING_SCAN || to == STARTING_STOP_SCAN))
    || (from == SCANNING && (to == STOPPING || to == STOPPING_STAGE_1))
    || (from == STOPPING_STAGE_1 && to == STOPPING_STAGE_2)
    || (from == STOPPING_STAGE_2 && to == STOPPING)
  }

  lemma PressMoves(w: World, pause: nat)
    ensures CanMove(w.app, TriggerContinousScanning(w, pause).app)
  {
  }

  lemma TriggerMoves(w: World, a: Action)
    requires IsTrigger(a)
    ensures CanMove(w.app, Step(w, a).app)
  {
    if a.PressScan? {
      PressMoves(w, a.pause);
    }
    hide TriggerContinousScanning;
  }

  lemma TriggerKeepsPhases(w: World, a: Action)
    requires Phases(w) && IsTrigger(a)
    ensures Phases(Step(w, a))
  {
    TriggerFrame(w, a);
    TriggerMoves(w, a);
    hide Step;
  }

  lemma TriggerKeepsRecords(w: World, a: Action)
    requires Inv(w) && IsTrigger(a)
    ensures Retrieved(Step(w, a)) && Accounted(Step(w, a)) && SessionsSettled(Step(w, a)) && Numbered(Step(w, a))
  {
    TriggerFrame(w, a);
    hide Step, Phases, Staged, Settled, Balanced, SharedOut, SavedData, Held;
  }

  lemma TriggerKeepsStages(w: World, a: Action)
    requires Staged(w) && IsTrigger(a)
    ensures Staged(Step(w, a))
  {
  }

  lemma TriggerStep(w: World, a: Action)
    requires Inv(w) && IsTrigger(a)
    ensures Inv(Step(w, a))
  {
    TriggerKeepsPhases(w, a);
    TriggerKeepsRecords(w, a);
    TriggerKeepsStages(w, a);
    hide Step, Phases, Retrieved, Accounted, SessionsSettled, Numbered, Staged;
  }

  /** What a callback adds to the buffers it adds to what was accepted. */
  lemma PointsBalanced(batches: seq<Buffers>, rest: Buffers, accepted: Buffers, kind: PacketType, items: seq<Item>)
    requires Balanced(batches, rest, accepted, PointPart)
    ensures Balanced(batches, OnPoints(rest, kind, items), OnPoints(accepted, kind, items), PointPart)
  {
    var more := AcceptedPoints(rest, kind, items);
    assert Joined(batches, PointPart) + (rest.points.value + more)
        == (Joined(batches, PointPart) + rest.points.value) + more;
  }

  lemma ImuBalanced(batches: seq<Buffers>, rest: Buffers, accepted: Buffers, kind: PacketType, item: Item)
    requires Balanced(batches, rest, accepted, ImuPart)
    ensures Balanced(batches, OnImu(rest, kind, item), OnImu(accepted, kind, item), ImuPart)
  {
    var more := AcceptedImu(rest, kind, item);
    assert Joined(batches, ImuPart) + (rest.imus.value + more)
        == (Joined(batches, ImuPart) + rest.imus.value) + more;
  }

  lemma LidarAccounted(w: World, a: Action)
    requires Accounted(w) && (a.Points? || a.Imu?)
    ensures Accounted(Step(w, a))
  {
    hide Joined, Stamped, AcceptedPoints, AcceptedImu, Balanced;
    var h := w.history;
    if NoNulls(w.live) {
      var batches := h.batches[h.from..];
      if a.Points? {
        PointsBalanced(batches, w.live, h.accepted, a.kind, a.items);
        OtherPartBalanced(batches, w.live, h.accepted, OnPoints(w.live, a.kind, a.items),
                          OnPoints(h.accepted, a.kind, a.items), ImuPart);
      } else {
        ImuBalanced(batches, w.live, h.accepted, a.imuKind, a.item);
        OtherPartBalanced(batches, w.live, h.accepted, OnImu(w.live, a.imuKind, a.item),
                          OnImu(h.accepted, a.imuKind, a.item), PointPart);
      }
    }
  }

  lemma OtherPartBalanced(batches: seq<Buffers>, rest: Buffers, accepted: Buffers,
                          rest': Buffers, accepted': Buffers, part: Part)
    requires Balanced(batches, rest, accepted, part)
    requires Of(rest', part) == Of(rest, part) && Of(accepted', part) == Of(accepted, part)
    ensures Balanced(batches, rest', accepted', part)
  {
  }

  /** A callback touches the live buffers, and creates or drops none. */
  lemma LidarFrame(w: World, a: Action)
    requires a.Points? || a.Imu?
    ensures var r := Step(w, a);
            && r == w.(live := r.live, history := w.history.(accepted := r.history.accepted))
            && r.live.points.Some? == w.live.points.Some? && r.live.imus.Some? == w.live.imus.Some?
  {
  }

  lemma LidarKeepsPhases(w: World, a: Action)
    requires Phases(w) && (a.Points? || a.Imu?)
    ensures Phases(Step(w, a))
  {
    LidarFrame(w, a);
    hide Step, Fits;
  }

  lemma LidarKeepsRest(w: World, a: Action)
    requires Retrieved(w) && SessionsSettled(w) && Numbered(w) && Staged(w) && (a.Points? || a.Imu?)
    ensures Retrieved(Step(w, a)) && SessionsSettled(Step(w, a)) && Numbered(Step(w, a)) && Staged(Step(w, a))
  {
    LidarFrame(w, a);
    hide Step, Settled, SharedOut, SavedData, Held;
  }

  lemma LidarStep(w: World, a: Action)
    requires Inv(w) && (a.Points? || a.Imu?)
    ensures Inv(Step(w, a))
  {
    LidarKeepsPhases(w, a);
    LidarAccounted(w, a);
    LidarKeepsRest(w, a);
    hide Phases, Retrieved, Accounted, SessionsSettled, Numbered, Staged, Step, WatchQuiet;
  }

  // ---------- The watcher ----------

  lemma DispatchFits(w: World)
    requires w.place.Top? && Fits(w.place, w.app)
    ensures Fits(Dispatch(w).place, Dispatch(w).app)
  {
  }

  lemma DispatchFrame(w: World)
    requires w.place.Top?
    ensures var r := Dispatch(w);
            && r == w.(place := r.place, app := r.app)
            && Recording(r) == Recording(w)
            && (r.app == LIDAR_ERROR) == (w.app == LIDAR_ERROR) && (r.app == USB_IO_ERROR) == (w.app == USB_IO_ERROR)
            && !r.place.MakeStillDirectory? && !r.place.MakeContinuousDirectory?
  {
  }

  lemma DispatchKeepsPhases(w: World)
    requires Phases(w) && w.place.Top?
    ensures Phases(Dispatch(w))
  {
    DispatchFits(w);
    DispatchFrame(w);
    hide Dispatch, Fits, Recording;
  }

  predicate IsIdlePlace(place: Place) {
    place.MakeStillDirectory? || place.MakeContinuousDirectory? || place.Waiting? || place.Idling? || place.IdleSlept?
  }

  predicate IsStartPlace(place: Place) {
    place.Logging? || place.ScanStarted? || place.StartStill? || place.StillLogging?
  }

  predicate IsScanPlace(place: Place) {
    place.Scanning? || place.TestStage1? || place.TestStage2?
  }

  predicate IsRecordPlace(place: Place) {
    place.StartLogging? || place.StillStartLogging? || place.ChunkDue? || place.Retrieve?
    || place.StopLogging? || place.SaveChunk? || place.SaveLast?
  }

  lemma IdleKeepsPhases(w: World, ok: bool)
    requires Phases(w) && IsIdlePlace(w.place)
    ensures Phases(WatchQuiet(w, ok))
  {
    hide Dispatch;
  }

  lemma StartKeepsPhases(w: World, ok: bool)
    requires Phases(w) && IsStartPlace(w.place)
    ensures Phases(WatchQuiet(w, ok))
  {
    hide Dispatch;
  }

  lemma ScanKeepsPhases(w: World, ok: bool)
    requires Phases(w) && IsScanPlace(w.place)
    ensures Phases(WatchQuiet(w, ok))
  {
    hide Dispatch;
  }

  lemma QuietKeepsPhases(w: World, ok: bool)
    requires Phases(w) && !IsRecordPlace(w.place)
    ensures Phases(WatchQuiet(w, ok))
  {
    if w.place.Top? {
      DispatchKeepsPhases(w);
      hide Phases, Dispatch;
    } else if IsIdlePlace(w.place) {
      IdleKeepsPhases(w, ok);
      hide *;
    } else if IsStartPlace(w.place) {
      StartKeepsPhases(w, ok);
      hide *;
    } else {
      assert IsScanPlace(w.place) by {
        hide Phases;
      }
      ScanKeepsPhases(w, ok);
      hide *;
    }
  }

  /** A quiet step holds nothing before or after, and the deadlines stay. */
  lemma QuietKeepsRest(w: World, ok: bool)
    requires Inv(w) && !IsRecordPlace(w.place)
    ensures Retrieved(WatchQuiet(w, ok)) && Accounted(WatchQuiet(w, ok))
    ensures SessionsSettled(WatchQuiet(w, ok)) && Numbered(WatchQuiet(w, ok))
  {
    QuietHoldsNothing(w, ok);
    hide WatchQuiet, Phases, Staged, Settled, Balanced, SharedOut, SavedData, Held;
  }

  lemma QuietHoldsNothing(w: World, ok: bool)
    requires !IsRecordPlace(w.place)
    ensures Held(WatchQuiet(w, ok).place) == Held(w.place) == []
    ensures !WatchQuiet(w, ok).place.StopLogging?
  {
  }

  /** The stages are entered by presses only. */
  lemma QuietKeepsStages(w: World, ok: bool)
    requires Staged(w) && !IsRecordPlace(w.place)
    ensures Staged(WatchQuiet(w, ok))
  {
    assert var app := WatchQuiet(w, ok).app;
      app == w.app || (app != STOPPING_STAGE_1 && app != STOPPING_STAGE_2);
    hide WatchQuiet;
  }

  lemma QuietStep(w: World, ok: bool)
    requires Inv(w) && !IsRecordPlace(w.place)
    ensures Inv(WatchQuiet(w, ok))
  {
    QuietKeepsPhases(w, ok);
    QuietKeepsRest(w, ok);
    QuietKeepsStages(w, ok);
    hide Phases, Retrieved, Accounted, SessionsSettled, Numbered, Staged, Step, WatchQuiet;
  }

  // ---------- The watcher's records ----------

  /** Recording starts where nothing is recorded. */
  lemma StartLogKeepsPhases(w: World)
    requires Phases(w) && (w.place.StartLogging? || w.place.StillStartLogging?)
    ensures w.live == NO_BUFFERS && Phases(WatchStartLog(w))
  {
  }

  lemma StartLogStep(w: World)
    requires Inv(w) && (w.place.StartLogging? || w.place.StillStartLogging?)
    ensures !NoNulls(w.live) && w.live == NO_BUFFERS
    ensures Inv(WatchStartLog(w))
  {
    var h := w.history;
    assert h.batches[|h.batches|..] == [];
    StartLogKeepsPhases(w);
    hide Phases, Settled, SharedOut, SavedData;
  }

  lemma {:induction false} JoinedAppend(batches: seq<Buffers>, b: Buffers, part: Part)
    ensures Joined(batches + [b], part) ==
      Joined(batches, part) + if Of(b, part).Some? then Of(b, part).value else []
  {
    assert (batches + [b])[..|batches|] == batches;
  }

  lemma RetrieveBalanced(batches: seq<Buffers>, live: Buffers, accepted: Buffers, part: Part)
    requires Balanced(batches, live, accepted, part)
    ensures Balanced(batches + [live], EMPTY_BUFFERS, accepted, part)
  {
    JoinedAppend(batches, live, part);
  }

  /** Settled sessions do not care about later batches. */
  lemma SettledStays(s: Session, batches: seq<Buffers>, b: Buffers)
    requires Settled(s, batches)
    ensures Settled(s, batches + [b])
  {
    assert (batches + [b])[s.from..s.to] == batches[s.from..s.to];
    hide Balanced;
  }

  lemma RetrieveKeepsPhases(w: World)
    requires Phases(w) && (w.place.ChunkDue? || w.place.Retrieve?)
    ensures NoNulls(w.live) && Phases(WatchRetrieve(w))
  {
  }

  lemma RetrieveFrame(w: World)
    requires w.place.ChunkDue? || w.place.Retrieve?
    ensures var r := WatchRetrieve(w);
            && r == w.(place := r.place, live := EMPTY_BUFFERS, chunkStart := r.chunkStart,
                       history := w.history.(batches := w.history.batches + [w.live]))
            && Held(w.place) == [] && Held(r.place) == [w.live]
  {
  }

  lemma RetrieveKeepsAccounts(w: World)
    requires Accounted(w) && NoNulls(w.live) && (w.place.ChunkDue? || w.place.Retrieve?)
    ensures Accounted(WatchRetrieve(w))
  {
    RetrieveFrame(w);
    hide WatchRetrieve, Held, Balanced;
    var h, r := w.history, WatchRetrieve(w);
    RetrieveBalanced(h.batches[h.from..], w.live, h.accepted, PointPart);
    RetrieveBalanced(h.batches[h.from..], w.live, h.accepted, ImuPart);
    assert r.history.batches[h.from..] == h.batches[h.from..] + [w.live];
  }

  lemma RetrieveKeepsSessions(w: World)
    requires SessionsSettled(w) && NoNulls(w.live) && (w.place.ChunkDue? || w.place.Retrieve?)
    ensures SessionsSettled(WatchRetrieve(w))
  {
    RetrieveFrame(w);
    hide WatchRetrieve, Held, Settled, SharedOut;
    var h := w.history;
    forall s | s in h.sessions ensures Settled(s, h.batches + [w.live]) {
      SettledStays(s, h.batches, w.live);
    }
  }

  lemma RetrieveStep(w: World)
    requires Inv(w) && (w.place.ChunkDue? || w.place.Retrieve?)
    ensures NoNulls(w.live)
    ensures Inv(WatchRetrieve(w))
  {
    RetrieveKeepsPhases(w);
    RetrieveKeepsAccounts(w);
    RetrieveKeepsSessions(w);
    RetrieveFrame(w);
    assert w.history.from <= |w.history.batches|;
    hide WatchRetrieve, Phases, Held, SavedData, Accounted, SessionsSettled;
    var h, r := w.history, WatchRetrieve(w);
    assert SavedData(h.saves) + Held(w.place) == SavedData(h.saves);
  }

  lemma StopLogFrame(w: World)
    requires w.place.StopLogging?
    ensures var r, h := WatchStopLog(w), w.history;
            && r == w.(place := r.place, live := NO_BUFFERS, history := r.history)
            && r.history == h.(sessions := h.sessions + [Session(h.from, |h.batches|, h.accepted, w.live)],
                               accepted := NO_BUFFERS)
            && Held(r.place) == Held(w.place) && !r.place.StopLogging?
  {
  }

  lemma StopLogKeepsPhases(w: World)
    requires Phases(w) && w.place.StopLogging?
    ensures NoNulls(w.live) && Phases(WatchStopLog(w))
  {
  }

  lemma StopLogStep(w: World)
    requires Inv(w) && w.place.StopLogging?
    ensures Inv(WatchStopLog(w))
  {
    StopLogKeepsPhases(w);
    StopLogFrame(w);
    hide WatchStopLog, Phases, Held, SavedData, Balanced;
    var h, r := w.history, WatchStopLog(w);
    var s := Session(h.from, |h.batches|, h.accepted, w.live);
    assert h.batches[h.from..|h.batches|] == h.batches[h.from..];
    assert Settled(s, h.batches);
    assert SharedOut(r.history.sessions) == Some(|h.batches|) by {
      assert r.history.sessions[..|r.history.sessions| - 1] == h.sessions;
    }
    assert Accounted(r) && Retrieved(r) && SessionsSettled(r) && Numbered(r) && Staged(r);
  }

  /** With the directories made, a save is made. */
  lemma DirectoriesThere(w: World)
    requires Phases(w) && (w.place.SaveChunk? || w.place.SaveLast?)
    ensures w.continuousDirectory && w.stillDirectory
  {
  }

  lemma SaveKeepsPhases(w: World)
    requires Phases(w) && (w.place.SaveChunk? || w.place.SaveLast?)
    ensures Phases(WatchSave(w))
  {
    DirectoriesThere(w);
  }

  lemma SaveFrame(w: World)
    requires Phases(w) && (w.place.SaveChunk? || w.place.SaveLast?)
    ensures var r, h := WatchSave(w), w.history;
            && Phases(r)
            && (r.app == w.app || r.app == IDLE)
            && r.live == w.live && r.clock == w.clock && r.config == w.config
            && r.stage1Deadline == w.stage1Deadline && r.stage2Deadline == w.stage2Deadline
            && r.chunksContinuous + r.chunksStill == w.chunksContinuous + w.chunksStill + 1
            && Held(r.place) == [] && !r.place.StopLogging?
            && r.history == h.(saves := r.history.saves)
            && |r.history.saves| == |h.saves| + 1
            && r.history.saves[..|h.saves|] == h.saves
            && Held(w.place) == [r.history.saves[|h.saves|].data]
            && r.history.saves[|h.saves|].chunk == w.chunksContinuous + w.chunksStill
  {
    DirectoriesThere(w);
    SaveKeepsPhases(w);
    hide Phases;
  }

  lemma SavedDataAppend(saves: seq<Save>, more: seq<Save>)
    requires |more| == |saves| + 1 && more[..|saves|] == saves
    ensures SavedData(more) == SavedData(saves) + [more[|saves|].data]
    ensures forall k | 0 <= k < |saves| :: more[k] == saves[k]
  {
    assert forall k | 0 <= k < |saves| :: more[..|saves|][k] == more[k];
  }

  lemma SaveKeepsFiles(w: World)
    requires Phases(w) && Retrieved(w) && Numbered(w) && (w.place.SaveChunk? || w.place.SaveLast?)
    ensures Retrieved(WatchSave(w)) && Numbered(WatchSave(w))
  {
    SaveFrame(w);
    SavedDataAppend(w.history.saves, WatchSave(w).history.saves);
    hide WatchSave, Phases, Held, SavedData;
  }

  lemma SaveStep(w: World)
    requires Inv(w) && (w.place.SaveChunk? || w.place.SaveLast?)
    ensures Inv(WatchSave(w))
  {
    SaveFrame(w);
    SaveKeepsFiles(w);
    hide WatchSave, Phases, Held, Balanced, Settled, SharedOut, Retrieved, Numbered;
  }

  /** Every step of anyone keeps everything. */
  lemma InvStep(w: World, a: Action)
    requires Inv(w)
    ensures Inv(Step(w, a))
  {
    if IsTrigger(a) {
      TriggerStep(w, a);
    } else if a.Points? || a.Imu? {
      LidarStep(w, a);
    } else {
      WatchKeepsInv(w, a.ok);
      hide Inv, Watch;
    }
  }

  lemma WatchKeepsInv(w: World, ok: bool)
    requires Inv(w)
    ensures Inv(Watch(w, ok))
  {
    hide Inv, WatchStartLog, WatchRetrieve, WatchStopLog, WatchSave, WatchQuiet;
    if w.place.StartLogging? || w.place.StillStartLogging? {
      StartLogStep(w);
    } else if w.place.ChunkDue? || w.place.Retrieve? {
      RetrieveStep(w);
    } else if w.place.StopLogging? {
      StopLogStep(w);
    } else if w.place.SaveChunk? || w.place.SaveLast? {
      SaveStep(w);
    } else {
      QuietStep(w, ok);
    }
  }

  lemma {:induction false} InvRun(w: World, actions: seq<Action>)
    requires Inv(w)
    ensures Inv(Run(w, actions))
  {
    if actions == [] {
    } else {
      InvRun(w, actions[..|actions| - 1]);
      InvStep(Run(w, actions[..|actions| - 1]), actions[|actions| - 1]);
      hide Inv, Step;
    }
  }

  // ---------- Theorems about every run ----------

  function Reached(config: Config, clock: int, actions: seq<Action>): World {
    Run(Initial(config, clock), actions)
  }

  lemma ConfigStep(w: World, a: Action)
    ensures Step(w, a).config == w.config
  {
    hide WatchQuiet;
  }

  lemma {:induction false} ConfigKept(w: World, actions: seq<Action>)
    ensures Run(w, actions).config == w.config
  {
    if actions != [] {
      ConfigKept(w, actions[..|actions| - 1]);
      ConfigStep(Run(w, actions[..|actions| - 1]), actions[|actions| - 1]);
      hide Step;
    }
  }

  lemma ReachedInv(config: Config, clock: int, actions: seq<Action>)
    ensures Inv(Reached(config, clock, actions)) && Reached(config, clock, actions).config == config
  {
    InitialInv(config, clock);
    InvRun(Initial(config, clock), actions);
    ConfigKept(Initial(config, clock), actions);
    assert Initial(config, clock).config == config;
    hide Inv, Run, Initial;
  }

  /** In the files of every session that has been saved, in order, lie exactly the points and
    * samples in its ledger, but for those still in the buffers at its `stopLog`. In a session
    * under way nothing at all is missing. Sessions share out the chunks among them, in order. */
  lemma Ledger(config: Config, clock: int, actions: seq<Action>)
    ensures var w := Reached(config, clock, actions); var h := w.history;
            && (forall s | s in h.sessions && s.to <= |h.saves| :: Settled(s, SavedData(h.saves)))
            && (forall s | s in h.sessions :: s.to <= |h.saves| + |Held(w.place)|)
            && (NoNulls(w.live) ==>
                  && h.from <= |h.batches|
                  && h.batches == SavedData(h.saves) + Held(w.place)
                  && Balanced(h.batches[h.from..], w.live, h.accepted, PointPart)
                  && Balanced(h.batches[h.from..], w.live, h.accepted, ImuPart))
            && SharedOut(h.sessions).Some?
  {
    ReachedInv(config, clock, actions);
    var w := Reached(config, clock, actions);
    var h := w.history;
    hide Reached, Phases, Numbered, Staged, Balanced, SharedOut, Held, SavedData;
    forall s | s in h.sessions && s.to <= |h.saves| ensures Settled(s, SavedData(h.saves)) {
      assert Settled(s, h.batches);
      assert h.batches[s.from..s.to] == SavedData(h.saves)[s.from..s.to];
    }
  }

  /** The buffers are there exactly while recording; `startLog` never replaces one, and
    * `retrieveData` never hands out a null one. */
  lemma BuffersOnlyWhileRecording(config: Config, clock: int, actions: seq<Action>)
    ensures var w := Reached(config, clock, actions);
            && (NoNulls(w.live) <==> Recording(w))
            && (w.live == NO_BUFFERS <==> !Recording(w))
            && (w.place.StartLogging? || w.place.StillStartLogging? ==> w.live == NO_BUFFERS)
            && (w.place.ChunkDue? || w.place.Retrieve? ==> NoNulls(w.live))
            && (forall b | b in w.history.batches :: NoNulls(b))
  {
    ReachedInv(config, clock, actions);
    hide Reached, Accounted, SessionsSettled, Numbered, Staged, Fits, DirectoriesMade;
  }

  /** STOPPED is never entered, and no save finds its directory missing: saving always
    * succeeds in naming a file. */
  lemma NeverStopped(config: Config, clock: int, actions: seq<Action>)
    ensures var w := Reached(config, clock, actions);
            && w.app != STOPPED
            && (w.place.SaveChunk? ==> w.continuousDirectory)
            && (w.place.SaveLast? ==> HasDirectory(w, w.place.kindToSave))
  {
    ReachedInv(config, clock, actions);
    hide Reached, Retrieved, Accounted, SessionsSettled, Numbered, Staged, Recording;
  }

  /** The k-th save has chunk number k - 1, across both directories. */
  lemma ChunksNumbered(config: Config, clock: int, actions: seq<Action>, k: nat)
    requires k < |Reached(config, clock, actions).history.saves|
    ensures Reached(config, clock, actions).history.saves[k].chunk == k
  {
    ReachedInv(config, clock, actions);
    hide Reached, Phases, Retrieved, Accounted, SessionsSettled, Staged;
  }

  predicate Failed(app: AppState) {
    app == LIDAR_ERROR || app == USB_IO_ERROR
  }

  lemma FailedStep(w: World, a: Action)
    requires Phases(w) && Failed(w.app)
    ensures Step(w, a).app == w.app
  {
    assert w.place.MakeContinuousDirectory? || w.place.Top? || w.place.IdleSlept?;
  }

  /** The two error states are left by nothing. */
  lemma {:induction false} ErrorsAbsorb(w: World, actions: seq<Action>)
    requires Inv(w) && Failed(w.app)
    ensures Run(w, actions).app == w.app
  {
    if actions == [] {
    } else {
      var before := actions[..|actions| - 1];
      ErrorsAbsorb(w, before);
      InvRun(w, before);
      FailedStep(Run(w, before), actions[|actions| - 1]);
      hide Step, Phases;
    }
  }

  // ---------- Theorems about stopping ----------

  /** Where one click does not stop, the button stops a recording exactly with the third of
    * three presses since scanning was left, each less than two seconds after the one before. */
  lemma ThreePresses(config: Config, clock: int, actions: seq<Action>, pause: nat)
    requires !config.oneClick
    requires Reached(config, clock, actions).app != STOPPING
    ensures var w := Reached(config, clock, actions);
            var r, ps := Step(w, PressScan(pause)), w.history.presses;
            && (r.app == STOPPING <==> w.app == STOPPING_STAGE_2 && |ps| == 2 && w.clock - ps[1].last < 2000)
            && (r.app == STOPPING ==>
                  && |ps| == 2 && ps[1].first - ps[0].first < 2000
                  && r.history.presses == ps + [Press(w.clock, w.clock + pause)])
  {
    ReachedInv(config, clock, actions);
    hide Reached, Phases, Retrieved, Accounted, SessionsSettled, Numbered;
  }

  /** A stage whose deadline is past. */
  predicate RunOut(w: World) {
    || (w.app == STOPPING_STAGE_1 && w.clock > w.stage1Deadline)
    || (w.app == STOPPING_STAGE_2 && w.clock > w.stage2Deadline)
  }

  /** The watcher's steps before the one that tests the stage. */
  function StepsToTest(w: World): nat {
    var toTest1 :=
      match w.place
      case TestStage1 => 0
      case SaveChunk(_) => 1
      case ChunkDue => 2
      case Scanning(_) => 3
      case Top => 4
      case _ => 5;
    if w.app == STOPPING_STAGE_1 then toTest1
    else if w.place.TestStage2? then 0
    else toTest1 + 1
  }

  lemma RunOutRecords(w: World)
    requires Phases(w) && RunOut(w)
    ensures NoNulls(w.live)
  {
  }

  lemma RunOutTrigger(w: World, a: Action)
    requires RunOut(w) && IsTrigger(a)
    ensures RunOut(Step(w, a)) && Step(w, a).app == w.app
  {
  }

  lemma RunOutOtherStep(w: World, a: Action)
    requires Inv(w) && RunOut(w) && !a.Watcher?
    ensures var r := Step(w, a);
            && RunOut(r) && StepsToTest(r) == StepsToTest(w)
            && r.history.sessions == w.history.sessions && NoNulls(w.live) && NoNulls(r.live)
  {
    RunOutRecords(w);
    if IsTrigger(a) {
      TriggerFrame(w, a);
      RunOutTrigger(w, a);
    } else {
      LidarFrame(w, a);
    }
    hide Step, Phases, Retrieved, Accounted, SessionsSettled, Numbered, Staged;
  }

  predicate Closer(w: World, r: World) {
    && (r.app == SCANNING || (RunOut(r) && StepsToTest(r) < StepsToTest(w)))
    && r.history.sessions == w.history.sessions && NoNulls(r.live)
  }

  lemma RunOutQuietStep(w: World, ok: bool)
    requires Phases(w) && RunOut(w) && !IsRecordPlace(w.place)
    ensures Closer(w, WatchQuiet(w, ok))
  {
    assert w.place.Top? || w.place.ScanStarted? || IsScanPlace(w.place);
    hide Fits, DirectoriesMade;
  }

  lemma RunOutChunkStep(w: World, ok: bool)
    requires Phases(w) && RunOut(w) && IsRecordPlace(w.place)
    ensures Closer(w, Watch(w, ok))
  {
    assert w.place.ChunkDue? || w.place.SaveChunk?;
    assert w.continuousDirectory;
    hide WatchQuiet, Fits, DirectoriesMade;
  }

  lemma RunOutWatcherStep(w: World, ok: bool)
    requires Phases(w) && RunOut(w)
    ensures Closer(w, Watch(w, ok))
  {
    if IsRecordPlace(w.place) {
      RunOutChunkStep(w, ok);
    } else {
      RunOutQuietStep(w, ok);
      hide Closer, Phases, WatchQuiet;
    }
  }

  lemma RunOutStep(w: World, a: Action)
    requires Inv(w) && RunOut(w)
    ensures var r := Step(w, a);
            && Inv(r) && r.history.sessions == w.history.sessions && NoNulls(r.live)
            && (r.app == SCANNING ||
                (RunOut(r) && (if a.Watcher? then StepsToTest(r) < StepsToTest(w) else StepsToTest(r) == StepsToTest(w))))
            && (r.app == SCANNING ==> a.Watcher?)
  {
    InvStep(w, a);
    if a.Watcher? {
      RunOutWatcherStep(w, a.ok);
      hide Inv, Watch, StepsToTest, RunOut;
    } else {
      RunOutOtherStep(w, a);
      hide Inv, Step, StepsToTest;
    }
  }

  lemma SixSteps(w: World)
    ensures StepsToTest(w) <= 6
  {
  }

  function WatcherSteps(actions: seq<Action>): nat {
    if actions == [] then 0
    else (if actions[0].Watcher? then 1 else 0) + WatcherSteps(actions[1..])
  }

  lemma {:induction false} RunFromFirst(w: World, actions: seq<Action>)
    requires actions != []
    ensures Run(w, actions) == Run(Step(w, actions[0]), actions[1..])
  {
    hide Step;
    var n := |actions|;
    if n > 1 {
      RunFromFirst(w, actions[..n - 1]);
      assert actions[..n - 1][1..] == actions[1..][..n - 2];
    } else {
      assert Run(w, actions[..0]) == w;
    }
  }

  /** Otherwise scanning goes on: once a stage has run out, whatever else happens, the
    * watcher is back at SCANNING within seven steps of its own, with the recording never
    * interrupted on the way. */
  lemma {:induction false} ReturnsToScanning(w: World, actions: seq<Action>) returns (k: nat)
    requires Inv(w) && RunOut(w)
    requires WatcherSteps(actions) > StepsToTest(w)
    ensures StepsToTest(w) <= 6
    ensures k <= |actions|
    ensures var r := Run(w, actions[..k]);
            && r.app == SCANNING && r.history.sessions == w.history.sessions && NoNulls(r.live)
    decreases actions
  {
    SixSteps(w);
    hide Inv, Step, RunOut, StepsToTest;
    var a := actions[0];
    var next := Step(w, a);
    RunOutStep(w, a);
    if next.app == SCANNING {
      k := 1;
      assert actions[..1] == [a];
      RunFromFirst(w, [a]);
    } else {
      var j := ReturnsToScanning(next, actions[1..]);
      k := j + 1;
      assert actions[..k][1..] == actions[1..][..j];
      RunFromFirst(w, actions[..k]);
    }
  }

  // ---------- Time stamps ----------

  predicate AllStamped(b: Buffers) {
    && (b.points.Some? ==> forall x | x in b.points.value :: x.timestamp > 0)
    && (b.imus.Some? ==> forall x | x in b.imus.value :: x.timestamp > 0)
  }

  predicate StampedOnly(h: History) {
    AllStamped(h.accepted) && forall s | s in h.sessions :: AllStamped(s.accepted)
  }

  lemma StampedLidar(b: Buffers, a: Action)
    requires AllStamped(b)
    ensures a.Points? ==> AllStamped(OnPoints(b, a.kind, a.items))
    ensures a.Imu? ==> AllStamped(OnImu(b, a.imuKind, a.item))
  {
  }

  lemma WatchHistory(w: World, ok: bool)
    ensures var h, r := w.history, Watch(w, ok).history;
            && (r.accepted == h.accepted || r.accepted == EMPTY_BUFFERS || r.accepted == NO_BUFFERS)
            && (r.sessions == h.sessions
                || (w.place.StopLogging? && r.sessions == h.sessions + [Session(h.from, |h.batches|, h.accepted, w.live)]))
  {
    hide WatchQuiet;
  }

  lemma StampedStep(w: World, a: Action)
    requires StampedOnly(w.history)
    ensures StampedOnly(Step(w, a).history)
  {
    if IsTrigger(a) {
      TriggerFrame(w, a);
    } else if a.Watcher? {
      WatchHistory(w, a.ok);
    } else {
      StampedLidar(w.history.accepted, a);
    }
    hide Watch, OnPoints, OnImu, TriggerContinousScanning, Pressed;
  }

  lemma {:induction false} StampedRun(config: Config, clock: int, actions: seq<Action>)
    ensures StampedOnly(Reached(config, clock, actions).history)
  {
    if actions != [] {
      StampedRun(config, clock, actions[..|actions| - 1]);
      StampedStep(Reached(config, clock, actions[..|actions| - 1]), actions[|actions| - 1]);
      hide Step, StampedOnly;
    }
  }

  lemma {:induction false} JoinedMember(batches: seq<Buffers>, part: Part, k: nat, x: Item)
    requires k < |batches| && Of(batches[k], part).Some? && x in Of(batches[k], part).value
    ensures x in Joined(batches, part)
  {
    var n := |batches| - 1;
    if k < n {
      JoinedMember(batches[..n], part, k, x);
    }
  }

  /** The IMU file leaves out samples without a time stamp, and there are none to leave out:
    * the filter of the save loses nothing of what a saved session has recorded. */
  lemma NothingFiltered(config: Config, clock: int, actions: seq<Action>, s: Session, k: nat, x: Item)
    requires var h := Reached(config, clock, actions).history;
             && s in h.sessions && s.to <= |h.saves| && s.from <= k < s.to
             && h.saves[k].data.imus.Some? && x in h.saves[k].data.imus.value
    ensures x.timestamp > 0
  {
    StampedRun(config, clock, actions);
    Ledger(config, clock, actions);
    hide Reached;
    var h := Reached(config, clock, actions).history;
    var batches := SavedData(h.saves)[s.from..s.to];
    assert Settled(s, SavedData(h.saves));
    assert batches[k - s.from] == h.saves[k].data;
    JoinedMember(batches, ImuPart, k - s.from, x);
    assert x in Of(s.accepted, ImuPart).value;
  }
}
