/** The chunks of a session: how far apart they are taken, and where they are saved. */
module ChunkRuns {
  import opened Wrappers
  import opened Livox
  import opened Scanner
  import opened ScannerRuns
  import opened SessionRuns
  import opened RequestRuns

  // ---------- How far apart ----------

  /** The watcher goes round in a continuous scan, the first chunk under way. */
  predicate InCycle(w: World) {
    || w.place.Scanning? || w.place.ChunkDue? || w.place.SaveChunk? || w.place.TestStage1? || w.place.TestStage2?
    || (w.place.Top? && IsScanState(w.app))
  }

  /** The buffers were emptied at the time given. */
  predicate Spanned(w: World, since: int) {
    && since <= w.clock
    && (InCycle(w) ==> since <= w.chunkStart)
    && (w.place.Scanning? ==> w.place.now <= w.clock)
    && (w.place.ChunkDue? ==> w.clock - w.chunkStart > 10000)
  }

  predicate Empties(w: World, a: Action) {
    a.Watcher? && (w.place.StartLogging? || w.place.StillStartLogging? || w.place.ChunkDue? || w.place.Retrieve?)
  }

  lemma SpannedTrigger(w: World, a: Action, since: int)
    requires Spanned(w, since) && !a.Watcher?
    ensures Spanned(Step(w, a), since)
  {
    if IsTrigger(a) {
      TriggerMoves(w, a);
    }
    ChunkStartKept(w, a);
    hide Step;
  }

  lemma ChunkStartKept(w: World, a: Action)
    requires !a.Watcher?
    ensures var r := Step(w, a);
            && r.chunkStart == w.chunkStart && r.clock >= w.clock && r.place == w.place
            && (!IsTrigger(a) ==> r.app == w.app)
  {
  }

  lemma SpannedQuiet(w: World, ok: bool, since: int)
    requires Phases(w) && Spanned(w, since) && !IsRecordPlace(w.place)
    ensures Spanned(WatchQuiet(w, ok), since)
  {
    hide DirectoriesMade, Recording;
    if w.place.Top? {
      DispatchFits(w);
    }
  }

  lemma SpannedRecord(w: World, ok: bool, since: int)
    requires Phases(w) && Spanned(w, since) && IsRecordPlace(w.place)
    ensures var a := Watcher(ok); Spanned(Watch(w, ok), if Empties(w, a) then Watch(w, ok).clock else since)
  {
    hide DirectoriesMade, Recording, WatchQuiet;
  }

  lemma SpannedStep(w: World, a: Action, since: int)
    requires Phases(w) && Spanned(w, since)
    ensures Spanned(Step(w, a), if Empties(w, a) then Step(w, a).clock else since)
  {
    if !a.Watcher? {
      SpannedTrigger(w, a, since);
      hide Step;
    } else if IsRecordPlace(w.place) {
      SpannedRecord(w, a.ok, since);
      hide Watch;
    } else {
      SpannedQuiet(w, a.ok, since);
      hide WatchQuiet;
    }
    hide Spanned, Phases;
  }

  lemma {:induction false} SpannedRun(config: Config, clock: int, actions: seq<Action>)
    ensures Spanned(Reached(config, clock, actions),
                    Reached(config, clock, actions[..LastEmptied(config, clock, actions)]).clock)
  {
    if actions == [] {
      assert Reached(config, clock, []) == Initial(config, clock);
      assert actions[..LastEmptied(config, clock, actions)] == [];
    } else {
      var before, a := actions[..|actions| - 1], actions[|actions| - 1];
      assert actions == before + [a];
      SpannedRun(config, clock, before);
      ReachedInv(config, clock, before);
      ReachedStep(config, clock, before, a);
      var w := Reached(config, clock, before);
      SpannedStep(w, a, Reached(config, clock, before[..LastEmptied(config, clock, before)]).clock);
      hide Spanned, Reached, Phases, Step;
      if Empties(w, a) {
        assert actions[..|actions|] == actions;
      } else {
        assert actions[..LastEmptied(config, clock, before)] == before[..LastEmptied(config, clock, before)];
      }
    }
  }

  /** A chunk is taken only more than ten seconds after the session began or gave one. */
  lemma ChunksFarApart(config: Config, clock: int, actions: seq<Action>)
    ensures var w := Reached(config, clock, actions);
            w.place.ChunkDue? ==> w.clock - Reached(config, clock, actions[..LastEmptied(config, clock, actions)]).clock > 10000
  {
    SpannedRun(config, clock, actions);
    hide Reached, LastEmptied;
  }

  /** Nothing stops or turns off scanning. */
  predicate NoStop(actions: seq<Action>) {
    forall i | 0 <= i < |actions| :: !actions[i].RequestStop? && !actions[i].PressScan?
  }

  /** More than ten seconds have gone by since the last chunk, and the watcher is to look. */
  predicate ChunkIsDue(w: World) {
    && w.app == SCANNING && w.clock - w.chunkStart > 10000
    && (w.place.Top? || w.place.ChunkDue? || (w.place.Scanning? && w.place.now - w.chunkStart > 10000))
  }

  function StepsToChunk(place: Place): nat {
    match place
    case ChunkDue => 1
    case Scanning(_) => 2
    case _ => 3
  }

  lemma ChunkIsDueStep(w: World, a: Action)
    requires ChunkIsDue(w) && !a.RequestStop? && !a.PressScan?
    ensures var r := Step(w, a);
            if a.Watcher? && w.place.ChunkDue? then r.history.batches == w.history.batches + [w.live]
            else
              && ChunkIsDue(r) && r.history.batches == w.history.batches
              && if a.Watcher? then StepsToChunk(r.place) < StepsToChunk(w.place) else r.place == w.place
  {
    if IsTrigger(a) {
      TriggerFrame(w, a);
      ChunkStartKept(w, a);
      ScanningKept(w, a);
      hide Step;
    }
  }

  lemma ScanningKept(w: World, a: Action)
    requires w.app == SCANNING && !a.Watcher? && !a.RequestStop? && !a.PressScan?
    ensures Step(w, a).app == SCANNING
  {
  }

  /** As long as nothing stops it, scanning takes the chunk within three steps of the watcher. */
  lemma {:induction false} ChunkTaken(w: World, actions: seq<Action>) returns (k: nat)
    requires ChunkIsDue(w) && NoStop(actions) && WatcherSteps(actions) >= StepsToChunk(w.place)
    ensures k <= |actions| && WatcherSteps(actions[..k]) <= StepsToChunk(w.place) <= 3
    ensures |Run(w, actions[..k]).history.batches| == |w.history.batches| + 1
    decreases actions
  {
    assert StepsToChunk(w.place) <= 3;
    var a := actions[0];
    ChunkIsDueStep(w, a);
    hide Step, ChunkIsDue, Run;
    if a.Watcher? && w.place.ChunkDue? {
      k := 1;
      RunOn(w, actions, 0);
    } else {
      var j := ChunkTaken(Step(w, a), actions[1..]);
      k := j + 1;
      RunOn(w, actions, j);
    }
  }

  // ---------- Where they are saved ----------

  /** What the session under way is recorded as. */
  function CurrentKind(w: World): Kind {
    match w.place
    case Retrieve(kind) => kind
    case StopLogging(kind, _) => kind
    case SaveLast(kind, _) => kind
    case StillLogging => Still
    case Top => if IsScanState(w.app) then Continuous else Still
    case _ => Continuous
  }

  /** A session of the kind is under way, or is to be saved. */
  predicate UnderWay(w: World, kind: Kind) {
    (NoNulls(w.live) || w.place.SaveLast?) && CurrentKind(w) == kind
  }

  /** Since the first `n` saves, all were of the kind. */
  predicate SavedAs(saves: seq<Save>, n: nat, kind: Kind) {
    n <= |saves| && forall k | n <= k < |saves| :: saves[k].kind == kind
  }

  lemma UnderWayOther(w: World, kind: Kind, a: Action)
    requires Phases(w) && UnderWay(w, kind) && !a.Watcher?
    ensures var r := Step(w, a); UnderWay(r, kind) && r.history.saves == w.history.saves
  {
    hide DirectoriesMade;
    if IsTrigger(a) {
      TriggerFrame(w, a);
      TriggerMoves(w, a);
    } else {
      LidarFrame(w, a);
    }
    hide Step;
  }

  lemma UnderWayQuiet(w: World, kind: Kind, ok: bool)
    requires Phases(w) && UnderWay(w, kind) && !IsRecordPlace(w.place)
    ensures UnderWay(WatchQuiet(w, ok), kind)
  {
    hide DirectoriesMade;
    assert w.place.Top? || IsStartPlace(w.place) || IsScanPlace(w.place);
  }

  lemma UnderWayRecord(w: World, kind: Kind, ok: bool)
    requires Phases(w) && UnderWay(w, kind) && IsRecordPlace(w.place) && !w.place.SaveChunk? && !w.place.SaveLast?
    ensures var r := Watch(w, ok); UnderWay(r, kind) && r.history.saves == w.history.saves
  {
    hide DirectoriesMade, WatchQuiet;
  }

  lemma UnderWaySave(w: World, kind: Kind, n: nat)
    requires Phases(w) && UnderWay(w, kind) && SavedAs(w.history.saves, n, kind) && (w.place.SaveChunk? || w.place.SaveLast?)
    ensures var r := WatchSave(w); SavedAs(r.history.saves, n, kind) && (UnderWay(r, kind) || r.app == IDLE)
  {
    DirectoriesThere(w);
    hide DirectoriesMade;
  }

  lemma UnderWayStep(w: World, kind: Kind, n: nat, a: Action)
    requires Inv(w) && UnderWay(w, kind) && SavedAs(w.history.saves, n, kind)
    ensures var r := Step(w, a);
            SavedAs(r.history.saves, n, kind) && (UnderWay(r, kind) || r.app == IDLE)
  {
    if !a.Watcher? {
      UnderWayOther(w, kind, a);
      hide Step;
    } else if w.place.SaveChunk? || w.place.SaveLast? {
      UnderWaySave(w, kind, n);
    } else if IsRecordPlace(w.place) {
      UnderWayRecord(w, kind, a.ok);
      hide Watch;
    } else {
      UnderWayQuiet(w, kind, a.ok);
    }
    hide Phases, UnderWay, WatchQuiet, WatchSave, SavedAs;
  }

  /** As long as the scanner has not come to rest, all that is saved since a recording was live
    * goes into the directory of its kind. */
  lemma {:induction false} SavedByKind(w: World, kind: Kind, actions: seq<Action>)
    requires Inv(w) && Records(w, kind)
    requires forall m | 0 <= m < |actions| :: Run(w, actions[..m]).app != IDLE
    ensures var r := Run(w, actions);
            SavedAs(r.history.saves, |w.history.saves|, kind) && (UnderWay(r, kind) || r.app == IDLE)
  {
    if actions == [] {
      hide Inv;
    } else {
      hide Inv, Step, Records, UnderWay, SavedAs;
      var before := actions[..|actions| - 1];
      forall m | 0 <= m < |before| ensures Run(w, before[..m]).app != IDLE {
        assert before[..m] == actions[..m];
      }
      assert Run(w, actions[..|actions| - 1]).app != IDLE;
      SavedByKind(w, kind, before);
      InvRun(w, before);
      UnderWayStep(Run(w, before), kind, |w.history.saves|, actions[|actions| - 1]);
    }
  }

  // ---------- Directories and counts ----------

  /** Were a directory missing after all, nothing would be written, and the program would fail. */
  lemma NothingWithoutDirectory(w: World, ok: bool)
    requires (w.place.SaveChunk? && !w.continuousDirectory) || (w.place.SaveLast? && !HasDirectory(w, w.place.kindToSave))
    ensures var r := Step(w, Watcher(ok)); r.app == USB_IO_ERROR && r.history.saves == w.history.saves
  {
    hide WatchQuiet;
  }

  function SavesOf(saves: seq<Save>, kind: Kind): nat {
    if saves == [] then 0
    else SavesOf(saves[..|saves| - 1], kind) + if saves[|saves| - 1].kind == kind then 1 else 0
  }

  predicate Counted(w: World) {
    && w.chunksContinuous == SavesOf(w.history.saves, Continuous)
    && w.chunksStill == SavesOf(w.history.saves, Still)
  }

  lemma CountedStep(w: World, a: Action)
    requires Counted(w)
    ensures Counted(Step(w, a))
  {
    if IsTrigger(a) {
      TriggerFrame(w, a);
      hide Step;
    } else if !a.Watcher? {
      LidarFrame(w, a);
      hide Step;
    } else if !w.place.SaveChunk? && !w.place.SaveLast? {
      SavesKept(w, a.ok);
      hide Watch, WatchQuiet;
    } else {
      CountedSave(w);
      hide WatchQuiet, WatchSave, Counted;
    }
  }

  lemma CountedSave(w: World)
    requires Counted(w) && (w.place.SaveChunk? || w.place.SaveLast?)
    ensures Counted(WatchSave(w))
  {
    hide SavesOf;
    var before, r := w.history.saves, WatchSave(w);
    if r.history.saves != before {
      var kind := if w.place.SaveChunk? then Continuous else w.place.kindToSave;
      var save := r.history.saves[|before|];
      assert save.kind == kind && r.history.saves == before + [save];
      SavesOfAppend(before, save);
    }
  }

  lemma SavesOfAppend(saves: seq<Save>, save: Save)
    ensures forall kind :: SavesOf(saves + [save], kind) == SavesOf(saves, kind) + if save.kind == kind then 1 else 0
  {
    assert (saves + [save])[..|saves + [save]| - 1] == saves;
  }

  lemma SavesKept(w: World, ok: bool)
    requires !w.place.SaveChunk? && !w.place.SaveLast?
    ensures var r := Watch(w, ok);
            r.history.saves == w.history.saves && r.chunksContinuous == w.chunksContinuous && r.chunksStill == w.chunksStill
  {
    hide WatchQuiet;
  }

  /** The two counters count what was saved into the two directories. */
  lemma {:induction false} CountedRun(config: Config, clock: int, actions: seq<Action>)
    ensures Counted(Reached(config, clock, actions))
  {
    if actions == [] {
      assert Reached(config, clock, []) == Initial(config, clock);
    } else {
      CountedRun(config, clock, actions[..|actions| - 1]);
      CountedStep(Reached(config, clock, actions[..|actions| - 1]), actions[|actions| - 1]);
      hide Step, Counted;
    }
  }
}
