/** What a recording session saves, told from what happened: the packets that came in between
  * the watcher's `startLog`, its retrievals and its `stopLog`.
  */
module SessionRuns {
  import opened Wrappers
  import opened Livox
  import opened Scanner
  import opened ScannerRuns

  // ---------- What happened ----------

  function WithStamp(items: seq<Item>): seq<Item> {
    if items == [] then []
    else (if items[0].timestamp > 0 then [items[0]] else []) + WithStamp(items[1..])
  }

  /** What one action brings: high-resolution points, or a sample, with a time stamp. */
  function Packet(a: Action, part: Part): seq<Item> {
    match a
    case Points(kind, items) => if part == PointPart && kind == CartesianHigh then WithStamp(items) else []
    case Imu(kind, item) => if part == ImuPart && kind == ImuData && item.timestamp > 0 then [item] else []
    case _ => []
  }

  function Brought(actions: seq<Action>, part: Part): seq<Item> {
    if actions == [] then []
    else Brought(actions[..|actions| - 1], part) + Packet(actions[|actions| - 1], part)
  }

  /** The last of the actions is a step of the watcher from the place. */
  predicate StartsLog(config: Config, clock: int, actions: seq<Action>) {
    && actions != [] && actions[|actions| - 1].Watcher?
    && var place := Reached(config, clock, actions[..|actions| - 1]).place;
       place.StartLogging? || place.StillStartLogging?
  }

  predicate RetrievesData(config: Config, clock: int, actions: seq<Action>) {
    && actions != [] && actions[|actions| - 1].Watcher?
    && var place := Reached(config, clock, actions[..|actions| - 1]).place;
       place.ChunkDue? || place.Retrieve?
  }

  predicate StopsLog(config: Config, clock: int, actions: seq<Action>) {
    && actions != [] && actions[|actions| - 1].Watcher?
    && Reached(config, clock, actions[..|actions| - 1]).place.StopLogging?
  }

  /** How many actions there were up to the last `startLog`. */
  function LastStart(config: Config, clock: int, actions: seq<Action>): (k: nat)
    ensures k <= |actions|
  {
    if actions == [] || StartsLog(config, clock, actions) then |actions|
    else LastStart(config, clock, actions[..|actions| - 1])
  }

  /** And up to the last retrieval, or `startLog` if that was later. */
  function LastEmptied(config: Config, clock: int, actions: seq<Action>): (k: nat)
    ensures LastStart(config, clock, actions) <= k <= |actions|
  {
    if actions == [] || StartsLog(config, clock, actions) || RetrievesData(config, clock, actions) then |actions|
    else LastEmptied(config, clock, actions[..|actions| - 1])
  }

  // ---------- What the buffers hold ----------

  lemma {:induction false} StampedIsWithStamp(items: seq<Item>)
    ensures Stamped(items) == WithStamp(items)
    decreases |items|
  {
    if items != [] {
      assert items == [items[0]] + items[1..];
      StampedConcat([items[0]], items[1..]);
      StampedOne(items[0]);
      StampedIsWithStamp(items[1..]);
    }
  }

  lemma BroughtOne(actions: seq<Action>, k: nat, a: Action, part: Part)
    requires k <= |actions|
    ensures Brought((actions + [a])[k..], part) == Brought(actions[k..], part) + Packet(a, part)
  {
    assert (actions + [a])[k..] == actions[k..] + [a];
    assert (actions[k..] + [a])[..|actions[k..]|] == actions[k..];
  }

  lemma {:induction false} BroughtConcat(a: seq<Action>, b: seq<Action>, part: Part)
    ensures Brought(a + b, part) == Brought(a, part) + Brought(b, part)
  {
    hide Packet;
    if b == [] {
      assert a + b == a;
    } else {
      var front, last := b[..|b| - 1], b[|b| - 1];
      BroughtConcat(a, front, part);
      BroughtOne(a + front, 0, last, part);
      assert (a + front + [last])[0..] == a + b && (a + front)[0..] == a + front;
    }
  }

  /** A packet adds to a buffer what it brings. */
  lemma PacketAdded(b: Buffers, a: Action, part: Part)
    requires NoNulls(b) && (a.Points? || a.Imu?)
    ensures var r := if a.Points? then OnPoints(b, a.kind, a.items) else OnImu(b, a.imuKind, a.item);
            NoNulls(r) && Of(r, part) == Some(Of(b, part).value + Packet(a, part))
  {
    if a.Points? {
      StampedIsWithStamp(a.items);
      NothingRecorded(b, a.kind, a.items, Item(0, []));
    } else {
      SampleRecorded(b, a.item);
      NothingRecorded(b, a.imuKind, [], a.item);
    }
    assert Of(b, part).value + [] == Of(b, part).value;
    hide Stamped, WithStamp;
  }

  /** The buffers hold what came since they were last emptied, and the ledger what came since
    * `startLog`. */
  predicate BuffersTold(w: World, actions: seq<Action>, start: nat, emptied: nat)
    requires start <= emptied <= |actions|
  {
    NoNulls(w.live) ==> forall part :: Holds(w.live, actions, emptied, part) && Holds(w.history.accepted, actions, start, part)
  }

  predicate Holds(b: Buffers, actions: seq<Action>, from: nat, part: Part)
    requires from <= |actions|
  {
    Of(b, part) == Some(Brought(actions[from..], part))
  }

  /** Of a session: `before` is what happened up to its `stopLog`. */
  predicate SessionTold(config: Config, clock: int, before: seq<Action>, s: Session) {
    && (forall part :: Holds(s.accepted, before, LastStart(config, clock, before), part))
    && (forall part :: Holds(s.lost, before, LastEmptied(config, clock, before), part))
    && RetrievesData(config, clock, before[..LastEmptied(config, clock, before)])
  }

  /** There is one session for every `stopLog`, in order. */
  predicate SessionsTold(config: Config, clock: int, actions: seq<Action>, sessions: seq<Session>) {
    if actions == [] then sessions == []
    else
      var before := actions[..|actions| - 1];
      if StopsLog(config, clock, actions) then
        && sessions != []
        && SessionsTold(config, clock, before, sessions[..|sessions| - 1])
        && SessionTold(config, clock, before, sessions[|sessions| - 1])
      else SessionsTold(config, clock, before, sessions)
  }

  predicate Told(config: Config, clock: int, actions: seq<Action>) {
    var w := Reached(config, clock, actions);
    && BuffersTold(w, actions, LastStart(config, clock, actions), LastEmptied(config, clock, actions))
    && (w.place.StopLogging? ==> RetrievesData(config, clock, actions[..LastEmptied(config, clock, actions)]))
    && SessionsTold(config, clock, actions, w.history.sessions)
  }

  lemma ReachedStep(config: Config, clock: int, actions: seq<Action>, a: Action)
    ensures Reached(config, clock, actions + [a]) == Step(Reached(config, clock, actions), a)
    ensures (actions + [a])[..|actions|] == actions
  {
    assert (actions + [a])[..|actions + [a]| - 1] == actions;
    hide Step;
  }

  /** A step that is none of the three. */
  predicate Unmarked(config: Config, clock: int, actions: seq<Action>) {
    !StartsLog(config, clock, actions) && !RetrievesData(config, clock, actions) && !StopsLog(config, clock, actions)
  }

  lemma UnmarkedKeeps(config: Config, clock: int, actions: seq<Action>, a: Action, sessions: seq<Session>)
    requires Unmarked(config, clock, actions + [a])
    ensures var all, last := actions + [a], LastEmptied(config, clock, actions);
            && LastStart(config, clock, all) == LastStart(config, clock, actions)
            && LastEmptied(config, clock, all) == last
            && all[..last] == actions[..last]
            && SessionsTold(config, clock, all, sessions) == SessionsTold(config, clock, actions, sessions)
  {
    hide Reached, SessionTold;
    assert (actions + [a])[..|actions + [a]| - 1] == actions;
  }

  lemma HoldsMore(b: Buffers, r: Buffers, actions: seq<Action>, from: nat, a: Action, part: Part)
    requires from <= |actions| && Holds(b, actions, from, part)
    requires Of(r, part) == Some(Of(b, part).value + Packet(a, part))
    ensures Holds(r, actions + [a], from, part)
  {
    BroughtOne(actions, from, a, part);
  }

  lemma HoldsNothingYet(actions: seq<Action>, part: Part)
    ensures Holds(EMPTY_BUFFERS, actions, |actions|, part)
  {
    assert actions[|actions|..] == [];
  }

  /** A buffer gets what the action brings, if there is a buffer. */
  predicate Filled(b: Buffers, r: Buffers, a: Action) {
    NoNulls(r) == NoNulls(b) && (NoNulls(b) ==> forall part :: Of(r, part) == Some(Of(b, part).value + Packet(a, part)))
  }

  lemma SameIsFilled(b: Buffers, a: Action)
    requires !a.Points? && !a.Imu?
    ensures Filled(b, b, a)
  {
    forall part | NoNulls(b) ensures Of(b, part).value + Packet(a, part) == Of(b, part).value {
    }
  }

  lemma PacketFills(b: Buffers, a: Action)
    requires (a.Points? || a.Imu?) && b.points.Some? == b.imus.Some?
    ensures Filled(b, if a.Points? then OnPoints(b, a.kind, a.items) else OnImu(b, a.imuKind, a.item), a)
  {
    if NoNulls(b) {
      PacketAdded(b, a, PointPart);
      PacketAdded(b, a, ImuPart);
    }
    hide Packet, Stamped, WithStamp, AcceptedPoints, AcceptedImu;
  }

  /** What an unmarked step does to buffers and records. */
  predicate Plain(w: World, r: World, a: Action) {
    && Filled(w.live, r.live, a) && Filled(w.history.accepted, r.history.accepted, a)
    && r.history.sessions == w.history.sessions
    && (r.place.StopLogging? ==> w.place.StopLogging?)
  }

  lemma UnmarkedIsPlain(w: World, a: Action)
    requires Inv(w)
    requires a.Watcher? ==> !w.place.StartLogging? && !w.place.StillStartLogging? && !w.place.ChunkDue?
                            && !w.place.Retrieve? && !w.place.StopLogging?
    ensures Plain(w, Step(w, a), a)
  {
    hide Retrieved, SessionsSettled, Numbered, Staged, Filled, Balanced, OnPoints, OnImu, Joined;
    if a.Points? || a.Imu? {
      PacketFills(w.live, a);
      PacketFills(w.history.accepted, a);
    } else {
      SameIsFilled(w.live, a);
      SameIsFilled(w.history.accepted, a);
      OtherIsQuiet(w, a);
      hide Step;
    }
  }

  lemma OtherIsQuiet(w: World, a: Action)
    requires !a.Points? && !a.Imu?
    requires a.Watcher? ==> !w.place.StartLogging? && !w.place.StillStartLogging? && !w.place.ChunkDue?
                            && !w.place.Retrieve? && !w.place.StopLogging?
    ensures var r := Step(w, a);
            && r.live == w.live && r.history.accepted == w.history.accepted && r.history.sessions == w.history.sessions
            && (r.place.StopLogging? ==> w.place.StopLogging?)
  {
    if !a.Watcher? {
      TriggerFrame(w, a);
      hide Step;
    } else if !w.place.SaveChunk? && !w.place.SaveLast? {
      QuietHoldsNothing(w, a.ok);
      hide WatchQuiet;
    } else {
      hide WatchQuiet;
    }
  }

  lemma LedgerThere(w: World)
    requires Inv(w)
    ensures NoNulls(w.live) ==> NoNulls(w.history.accepted)
  {
    hide Phases, Retrieved, SessionsSettled, Numbered, Staged, Balanced;
  }

  lemma UnmarkedTold(config: Config, clock: int, actions: seq<Action>, a: Action)
    requires Told(config, clock, actions) && Inv(Reached(config, clock, actions)) && Unmarked(config, clock, actions + [a])
    ensures Told(config, clock, actions + [a])
  {
    hide Inv, Step, SessionTold, SessionsTold, Holds;
    var w, all := Reached(config, clock, actions), actions + [a];
    ReachedStep(config, clock, actions, a);
    UnmarkedIsPlain(w, a);
    UnmarkedKeeps(config, clock, actions, a, w.history.sessions);
    var r := Step(w, a);
    hide Reached, LastStart, LastEmptied, Unmarked;
    if NoNulls(r.live) {
      LedgerThere(w);
      forall part
        ensures Holds(r.live, all, LastEmptied(config, clock, actions), part)
        ensures Holds(r.history.accepted, all, LastStart(config, clock, actions), part)
      {
        HoldsMore(w.live, r.live, actions, LastEmptied(config, clock, actions), a, part);
        HoldsMore(w.history.accepted, r.history.accepted, actions, LastStart(config, clock, actions), a, part);
      }
    }
  }

  lemma StartTold(config: Config, clock: int, actions: seq<Action>, a: Action)
    requires Told(config, clock, actions) && Inv(Reached(config, clock, actions)) && StartsLog(config, clock, actions + [a])
    ensures Told(config, clock, actions + [a])
  {
    hide Inv, SessionTold, Holds, Reached, WatchQuiet;
    var w, all := Reached(config, clock, actions), actions + [a];
    ReachedStep(config, clock, actions, a);
    assert !StopsLog(config, clock, all);
    forall part ensures Holds(EMPTY_BUFFERS, all, |all|, part) {
      HoldsNothingYet(all, part);
    }
  }

  lemma RetrievalTold(config: Config, clock: int, actions: seq<Action>, a: Action)
    requires Told(config, clock, actions) && Inv(Reached(config, clock, actions)) && RetrievesData(config, clock, actions + [a])
    ensures Told(config, clock, actions + [a])
  {
    hide Inv, SessionTold, Holds, Reached, WatchQuiet;
    var w, all := Reached(config, clock, actions), actions + [a];
    ReachedStep(config, clock, actions, a);
    assert !StopsLog(config, clock, all) && !StartsLog(config, clock, all);
    assert all[..|all|] == all;
    LiveThere(w);
    LedgerThere(w);
    forall part
      ensures Holds(EMPTY_BUFFERS, all, |all|, part)
      ensures Holds(w.history.accepted, all, LastStart(config, clock, actions), part)
    {
      HoldsNothingYet(all, part);
      SameIsFilled(w.history.accepted, a);
      HoldsMore(w.history.accepted, w.history.accepted, actions, LastStart(config, clock, actions), a, part);
    }
  }

  lemma LiveThere(w: World)
    requires Inv(w)
    ensures w.place.ChunkDue? || w.place.Retrieve? || w.place.StopLogging? ==> NoNulls(w.live)
  {
    hide Retrieved, Accounted, SessionsSettled, Numbered, Staged, Fits, DirectoriesMade;
  }

  lemma StopTold(config: Config, clock: int, actions: seq<Action>, a: Action)
    requires Told(config, clock, actions) && Inv(Reached(config, clock, actions)) && StopsLog(config, clock, actions + [a])
    ensures Told(config, clock, actions + [a])
  {
    hide Inv, Holds, Reached, WatchQuiet, StartsLog, RetrievesData;
    var w, all := Reached(config, clock, actions), actions + [a];
    ReachedStep(config, clock, actions, a);
    LiveThere(w);
    var sessions := Step(w, a).history.sessions;
    assert sessions[..|sessions| - 1] == w.history.sessions;
    hide LastStart, LastEmptied;
  }

  lemma {:induction false} ToldRun(config: Config, clock: int, actions: seq<Action>)
    ensures Told(config, clock, actions)
  {
    if actions == [] {
      assert Reached(config, clock, []) == Initial(config, clock);
    } else {
      var before, a := actions[..|actions| - 1], actions[|actions| - 1];
      assert actions == before + [a];
      ToldRun(config, clock, before);
      ReachedInv(config, clock, before);
      hide Told, Inv, Reached, StartsLog, RetrievesData, StopsLog;
      if StartsLog(config, clock, actions) {
        StartTold(config, clock, before, a);
      } else if RetrievesData(config, clock, actions) {
        RetrievalTold(config, clock, before, a);
      } else if StopsLog(config, clock, actions) {
        StopTold(config, clock, before, a);
      } else {
        UnmarkedTold(config, clock, before, a);
      }
    }
  }

  // ---------- What the files hold ----------

  /** Once its batches are saved, a session's files hold what was brought between its `startLog`
    * and its last retrieval. Lost is what came between that and `stopLog`. */
  predicate SessionSaved(config: Config, clock: int, before: seq<Action>, s: Session, saves: seq<Save>) {
    var start, last := LastStart(config, clock, before), LastEmptied(config, clock, before);
    && s.from <= s.to
    && RetrievesData(config, clock, before[..last])
    && (forall part :: Of(s.lost, part) == Some(Brought(before[last..], part)))
    && (s.to <= |saves| ==> forall part :: Joined(SavedData(saves)[s.from..s.to], part) == Brought(before[start..last], part))
  }

  /** There is one session for every `stopLog`, in order, and each is saved. */
  predicate SessionsSaved(config: Config, clock: int, actions: seq<Action>, sessions: seq<Session>, saves: seq<Save>) {
    if actions == [] then sessions == []
    else
      var before := actions[..|actions| - 1];
      if StopsLog(config, clock, actions) then
        && sessions != []
        && SessionsSaved(config, clock, before, sessions[..|sessions| - 1], saves)
        && SessionSaved(config, clock, before, sessions[|sessions| - 1], saves)
      else SessionsSaved(config, clock, before, sessions, saves)
  }

  lemma PartTakenApart(before: seq<Action>, s: Session, saved: seq<Buffers>, start: nat, last: nat, part: Part)
    requires start <= last <= |before| && Holds(s.accepted, before, start, part) && Holds(s.lost, before, last, part)
    requires Balanced(saved, s.lost, s.accepted, part)
    ensures Joined(saved, part) == Brought(before[start..last], part)
  {
    hide Joined, Brought;
    assert before[start..] == before[start..last] + before[last..];
    BroughtConcat(before[start..last], before[last..], part);
    SameRest(Joined(saved, part), Brought(before[start..last], part), Brought(before[last..], part));
  }

  lemma BothBalanced(s: Session, batches: seq<Buffers>, part: Part)
    requires Settled(s, batches)
    ensures Balanced(batches[s.from..s.to], s.lost, s.accepted, part)
  {
    hide Balanced;
    match part
    case PointPart =>
    case ImuPart =>
  }

  lemma TakenApart(config: Config, clock: int, before: seq<Action>, s: Session, saves: seq<Save>)
    requires SessionTold(config, clock, before, s) && s.from < s.to
    requires s.to <= |saves| ==> Settled(s, SavedData(saves))
    ensures SessionSaved(config, clock, before, s, saves)
  {
    hide Joined, Brought, SavedData, RetrievesData, Settled, Balanced, LastStart, LastEmptied;
    var start, last := LastStart(config, clock, before), LastEmptied(config, clock, before);
    forall part
      ensures Of(s.lost, part) == Some(Brought(before[last..], part))
      ensures s.to <= |saves| ==> Joined(SavedData(saves)[s.from..s.to], part) == Brought(before[start..last], part)
    {
      assert Holds(s.accepted, before, start, part) && Holds(s.lost, before, last, part);
      if s.to <= |saves| {
        BothBalanced(s, SavedData(saves), part);
        PartTakenApart(before, s, SavedData(saves)[s.from..s.to], start, last, part);
      }
    }
  }

  lemma SameRest(a: seq<Item>, b: seq<Item>, rest: seq<Item>)
    requires a + rest == b + rest
    ensures a == b
  {
    assert |a| == |b|;
    assert (a + rest)[..|a|] == a && (b + rest)[..|b|] == b;
  }

  lemma {:induction false} AllTakenApart(config: Config, clock: int, actions: seq<Action>, sessions: seq<Session>, saves: seq<Save>)
    requires SessionsTold(config, clock, actions, sessions)
    requires forall s | s in sessions :: s.from < s.to && (s.to <= |saves| ==> Settled(s, SavedData(saves)))
    ensures SessionsSaved(config, clock, actions, sessions, saves)
  {
    hide Settled, StopsLog, SessionTold, SessionSaved, SavedData;
    if actions != [] {
      var before := actions[..|actions| - 1];
      if StopsLog(config, clock, actions) {
        AllTakenApart(config, clock, before, sessions[..|sessions| - 1], saves);
        TakenApart(config, clock, before, sessions[|sessions| - 1], saves);
      } else {
        AllTakenApart(config, clock, before, sessions, saves);
      }
    }
  }

  /** Conservation, over every interleaving: every session is saved as said above, and of one
    * under way nothing is missing: the chunks retrieved and the buffers together hold what came
    * since its `startLog`. Sessions share out the chunks among them, in order. */
  lemma Conservation(config: Config, clock: int, actions: seq<Action>)
    ensures var w := Reached(config, clock, actions); var h := w.history;
            && SessionsSaved(config, clock, actions, h.sessions, h.saves)
            && (forall s | s in h.sessions :: s.to <= |h.saves| + |Held(w.place)|)
            && SharedOut(h.sessions).Some?
            && (NoNulls(w.live) ==>
                  && h.from <= |h.saves| + |Held(w.place)|
                  && forall part :: Joined((SavedData(h.saves) + Held(w.place))[h.from..], part) + Of(w.live, part).value
                                 == Brought(actions[LastStart(config, clock, actions)..], part))
  {
    var w := Reached(config, clock, actions);
    var h := w.history;
    Ledger(config, clock, actions);
    ReachedInv(config, clock, actions);
    ToldRun(config, clock, actions);
    hide Reached, Phases, Numbered, Staged, Held, SavedData, Brought, Joined, LastStart, LastEmptied, SharedOut, Balanced, SessionsTold;
    assert forall s | s in h.sessions :: s.from < s.to;
    AllTakenApart(config, clock, actions, h.sessions, h.saves);
    if NoNulls(w.live) {
      forall part
        ensures Joined((SavedData(h.saves) + Held(w.place))[h.from..], part) + Of(w.live, part).value
             == Brought(actions[LastStart(config, clock, actions)..], part)
      {
        UnderWay(w, actions, LastStart(config, clock, actions), part);
      }
    }
  }

  lemma UnderWay(w: World, actions: seq<Action>, start: nat, part: Part)
    requires Inv(w) && NoNulls(w.live) && start <= |actions| && Holds(w.history.accepted, actions, start, part)
    ensures w.history.from <= |w.history.batches|
    ensures w.history.batches == SavedData(w.history.saves) + Held(w.place)
    ensures Joined(w.history.batches[w.history.from..], part) + Of(w.live, part).value == Brought(actions[start..], part)
  {
    hide Phases, SessionsSettled, Numbered, Staged, Joined, Brought, SavedData, Held;
    match part
    case PointPart =>
    case ImuPart =>
  }
}
