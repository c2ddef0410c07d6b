/** The scanning button over time, and the start of the program. */
module ButtonRuns {
  import opened Wrappers
  import opened Livox
  import opened Scanner
  import opened ScannerRuns
  import opened RequestRuns

  // ---------- Three presses ----------

  predicate NoPress(actions: seq<Action>) {
    forall i | 0 <= i < |actions| :: !actions[i].PressScan?
  }

  /** A stage of stopping that lasts until the deadline. */
  predicate InStage(w: World, app: AppState, deadline: int) {
    && w.app == app && (app == STOPPING_STAGE_1 || app == STOPPING_STAGE_2)
    && deadline == if app == STOPPING_STAGE_1 then w.stage1Deadline else w.stage2Deadline
  }

  lemma InStageStep(w: World, app: AppState, deadline: int, a: Action)
    requires Phases(w) && InStage(w, app, deadline) && w.clock <= deadline && !a.PressScan?
    ensures InStage(Step(w, a), app, deadline)
  {
    if !a.Watcher? {
      StageOther(w, a);
      hide Step;
    } else if IsRecordPlace(w.place) {
      if w.place.SaveChunk? {
        DirectoriesThere(w);
      }
      hide DirectoriesMade, Recording, WatchQuiet;
    } else {
      hide DirectoriesMade, Recording;
    }
  }

  lemma StageOther(w: World, a: Action)
    requires (w.app == STOPPING_STAGE_1 || w.app == STOPPING_STAGE_2) && !a.Watcher? && !a.PressScan?
    ensures var r := Step(w, a); r.app == w.app && r.stage1Deadline == w.stage1Deadline && r.stage2Deadline == w.stage2Deadline
  {
  }

  /** Up to its deadline a stage is left by another press only. */
  lemma {:induction false} StageLasts(w: World, app: AppState, deadline: int, actions: seq<Action>)
    requires Inv(w) && InStage(w, app, deadline) && NoPress(actions) && Run(w, actions).clock <= deadline
    ensures InStage(Run(w, actions), app, deadline)
  {
    if actions != [] {
      var before, a := actions[..|actions| - 1], actions[|actions| - 1];
      ClockStep(Run(w, before), a);
      hide Step, InStage, Phases, Retrieved, Accounted, SessionsSettled, Numbered, Staged;
      StageLasts(w, app, deadline, before);
      InvRun(w, before);
      InStageStep(Run(w, before), app, deadline, a);
    }
  }

  lemma FirstPress(w: World, pause: nat)
    requires w.app == SCANNING && !w.config.oneClick
    ensures var r := Step(w, PressScan(pause));
            InStage(r, STOPPING_STAGE_1, w.clock + 2000) && r.clock == w.clock + pause
  {
  }

  lemma SecondPress(w: World, deadline: int, pause: nat)
    requires InStage(w, STOPPING_STAGE_1, deadline)
    ensures var r := Step(w, PressScan(pause));
            if w.clock < deadline then InStage(r, STOPPING_STAGE_2, w.clock + pause + 2000) && r.clock == w.clock + pause
            else r.app == STOPPING_STAGE_1
  {
  }

  lemma ThirdPress(w: World, deadline: int, pause: nat)
    requires InStage(w, STOPPING_STAGE_2, deadline)
    ensures Step(w, PressScan(pause)).app == if w.clock < deadline then STOPPING else STOPPING_STAGE_2
  {
  }

  /** Three presses while scanning, with anything but presses between them, stop the recording,
    * if each comes within two seconds: the second after the first began, the third after the
    * second was through. */
  lemma PressesStop(w: World, p1: nat, then1: seq<Action>, p2: nat, then2: seq<Action>, p3: nat)
    requires Inv(w) && w.app == SCANNING && !w.config.oneClick && NoPress(then1) && NoPress(then2)
    ensures var w1 := Run(Step(w, PressScan(p1)), then1);
            w1.clock - w.clock < 2000 ==>
              var w2 := Run(Step(w1, PressScan(p2)), then2);
              w2.clock - (w1.clock + p2) < 2000 ==> Step(w2, PressScan(p3)).app == STOPPING
  {
    hide Inv, Step, InStage, NoPress;
    var s1 := Step(w, PressScan(p1));
    FirstPress(w, p1);
    InvStep(w, PressScan(p1));
    var w1 := Run(s1, then1);
    if w1.clock - w.clock < 2000 {
      StageLasts(s1, STOPPING_STAGE_1, w.clock + 2000, then1);
      InvRun(s1, then1);
      SecondPress(w1, w.clock + 2000, p2);
      var s2 := Step(w1, PressScan(p2));
      InvStep(w1, PressScan(p2));
      var w2 := Run(s2, then2);
      if w2.clock - (w1.clock + p2) < 2000 {
        StageLasts(s2, STOPPING_STAGE_2, w1.clock + p2 + 2000, then2);
        ThirdPress(w2, w1.clock + p2 + 2000, p3);
      }
    }
  }

  /** A press that comes later stops nothing. */
  lemma LatePress(w: World, p1: nat, t1: nat, p2: nat, t2: nat, p3: nat)
    requires w.app == SCANNING && !w.config.oneClick
    ensures var w1 := Step(Step(w, PressScan(p1)), Tick(t1));
            var w2 := Step(Step(w1, PressScan(p2)), Tick(t2));
            Step(w2, PressScan(p3)).app == STOPPING <==> p1 + t1 < 2000 && t2 < 2000
  {
  }

  // ---------- The start of the program ----------

  /** What the watcher was answered: whether the directories were made, nothing at the look at
    * the state, and whether the sensor is synchronized. */
  function Answers(actions: seq<Action>): seq<bool> {
    if actions == [] then []
    else
      var last := actions[|actions| - 1];
      Answers(actions[..|actions| - 1]) + if last.Watcher? then [last.ok] else []
  }

  predicate Failure(actions: seq<Action>) {
    exists i :: 0 <= i < |actions| && actions[i].LidarFails?
  }

  /** Up to the third step. */
  predicate StartingUp(w: World, answers: seq<bool>, failure: bool) {
    && |answers| <= 3 && w.lidarError == failure
    && w.app == (if (|answers| > 0 && !answers[0]) || (|answers| > 1 && !answers[1]) then USB_IO_ERROR else WAIT_FOR_RESOURCES)
    && match |answers|
       case 0 => w.place.MakeStillDirectory?
       case 1 => w.place.MakeContinuousDirectory?
       case 2 => w.place.Top?
       case _ => if w.app == USB_IO_ERROR then w.place.Top? else w.place.Waiting?
  }

  lemma StartingUpOther(w: World, answers: seq<bool>, failure: bool, a: Action)
    requires StartingUp(w, answers, failure) && !a.Watcher?
    ensures StartingUp(Step(w, a), answers, failure || a.LidarFails?)
  {
    if IsTrigger(a) {
      TriggerFrame(w, a);
      TriggerMoves(w, a);
      FailureNoted(w, a);
    } else {
      LidarFrame(w, a);
    }
    hide Step;
  }

  lemma StartingUpStep(w: World, answers: seq<bool>, failure: bool, a: Action)
    requires StartingUp(w, answers, failure)
    ensures !a.Watcher? ==> StartingUp(Step(w, a), answers, failure || a.LidarFails?)
    ensures a.Watcher? && |answers| < 3 ==> StartingUp(Step(w, a), answers + [a.ok], failure)
    ensures a.Watcher? && |answers| == 3 ==> StartedUp(Step(w, a), answers + [a.ok], failure)
  {
    if !a.Watcher? {
      StartingUpOther(w, answers, failure, a);
      hide Step, StartingUp;
    }
  }

  /** The program waits for requests, or it has failed for want of a directory. */
  predicate StartedUp(w: World, answers: seq<bool>, failure: bool)
    requires |answers| == 4
  {
    if !answers[0] || !answers[1] then w.app == USB_IO_ERROR
    else w.app == IDLE && w.place.Top? && w.lidarError == (failure || (w.config.waitForLidarSync && !answers[3]))
  }

  lemma FailureOne(actions: seq<Action>, a: Action)
    ensures Failure(actions + [a]) == (Failure(actions) || a.LidarFails?)
  {
    var all := actions + [a];
    assert all[|actions|] == a && forall i | 0 <= i < |actions| :: all[i] == actions[i];
    if a.LidarFails? {
      assert all[|actions|].LidarFails?;
    }
  }

  lemma {:induction false} StartingUpRun(config: Config, clock: int, actions: seq<Action>)
    requires |Answers(actions)| <= 3
    ensures StartingUp(Reached(config, clock, actions), Answers(actions), Failure(actions))
  {
    if actions == [] {
      assert Reached(config, clock, []) == Initial(config, clock);
    } else {
      var before, a := actions[..|actions| - 1], actions[|actions| - 1];
      StartingUpRun(config, clock, before);
      FailureOne(before, a);
      assert actions == before + [a];
      StartingUpStep(Reached(config, clock, before), Answers(before), Failure(before), a);
      hide Step, StartingUp, Failure;
      assert Answers(before) + [] == Answers(before);
    }
  }

  /** After four steps of the watcher the program has started: it fails without its two
    * directories, and notes a sensor that failed, or is to be waited for and not in time. */
  lemma StartUp(config: Config, clock: int, actions: seq<Action>)
    requires actions != [] && actions[|actions| - 1].Watcher? && |Answers(actions)| == 4
    ensures StartedUp(Reached(config, clock, actions), Answers(actions), Failure(actions))
  {
    var before, a := actions[..|actions| - 1], actions[|actions| - 1];
    assert Answers(actions) == Answers(before) + [a.ok];
    FailureOne(before, a);
    hide Step, StartingUp, StartedUp, Failure, Answers;
    assert actions == before + [a];
    StartingUpRun(config, clock, before);
    StartingUpStep(Reached(config, clock, before), Answers(before), Failure(before), a);
  }
}
