/** What `notify` does while a deferred is pending: its list, and through it the list of the
  * handlers, are ready whenever nothing runs, and call everything attached to them.
  */
module ProgressRuns {
  import opened Wrappers
  import opened Callbacks
  import opened Deferred
  import opened FiringRuns
  import CR = CallbackRuns

  const PROGRESS := Options(false, true, false, false)

  // ---------- Ready whenever nothing runs ----------

  /** A progress list with `count` of its callbacks on the stack. */
  predicate Fit(s: State<Act, Value>, added: seq<Act>, count: nat) {
    && s.opts == PROGRESS && s.list == Some(added) && !s.locked
    && if s.firing then count == 1 && s.memory.Some? && 0 <= s.index < |added|
       else count == 0 && s.queue == [] && s.index == -1
  }

  /** An operation of the list leaves it fit. */
  predicate StaysFit(s: State<Act, Value>, added: seq<Act>, count: nat, t: Turn<Act, Value>, more: seq<Act>) {
    Fit(t.s, added + more, count + if t.call.Some? then 1 else 0)
  }

  lemma FireFit(s: State<Act, Value>, added: seq<Act>, count: nat, v: Value)
    requires Fit(s, added, count)
    ensures StaysFit(s, added, count, FireWith(s, v), [])
  {
    assert added + [] == added;
    if !s.firing {
      assert [] + [v] == [v];
      var s1 := s.(queue := [v], fired := true, firing := true);
      if added != [] {
        RoundDue(s1);
      } else {
        RoundBegins(s1);
        RoundEnds(s1.(memory := Some(v), queue := []));
        RoundBegins(s1.(memory := Some(v), queue := []));
      }
    }
    hide NextRound, NextCall;
  }

  lemma AddFit(s: State<Act, Value>, added: seq<Act>, count: nat, more: seq<Act>)
    requires Fit(s, added, count)
    ensures StaysFit(s, added, count, Add(s, more), more)
  {
    AddedToList(s, more);
    hide Add;
    if more == [] && !s.firing && s.memory.Some? {
      AddNothing(s, added);
    }
  }

  lemma AddNothing(s: State<Act, Value>, added: seq<Act>)
    requires Fit(s, added, 0) && s.memory.Some?
    ensures var t := Add(s, []); t.call.None? && Fit(t.s, added, 0)
  {
    var v := s.memory.value;
    assert [] + [v] == [v];
    var s1 := s.(index := |added| - 1, queue := [v], fired := true, firing := true);
    assert Add(s, []) == NextRound(s1);
    RoundBegins(s1);
    var s2 := s1.(queue := []);
    RoundEnds(s2);
    RoundBegins(s2.(index := -1));
    hide NextRound, NextCall;
  }

  lemma ResumeFit(s: State<Act, Value>, added: seq<Act>, no: bool)
    requires Fit(s, added, 1)
    ensures StaysFit(s, added, 0, Resume(s, no), [])
  {
    assert added + [] == added;
    Resumed(s, no);
    hide Resume;
  }

  predicate PendingFit(w: World)
    requires Shaped(w)
  {
    w.settles == [] ==>
      Fit(w.lists[0], w.added[0], Count(w.stack, 0)) && Fit(w.lists[3], w.added[3], Count(w.stack, 3))
  }

  /** As long as nothing is settled, what is built in forwards to the handlers, or is about to
    * settle. */
  lemma BuiltinWhilePending(w: World)
    requires Inv(w) && w.settles == [] && w.stack != [] && !w.stack[0].act.User?
    ensures (w.stack[0].list == 0 && w.stack[0].act == FireList(3)) || (w.stack[0].act.SetState? && !w.stack[0].begun)
  {
    hide CR.OnceFired, CR.OnceWaiting, CR.OnceDisabled, CR.Calls, Attached, Count;
    CountTop(w.stack, 0);
    if Open(w) {
      assert Allowed(w.stack[0].list, w.stack[0].act);
    }
  }

  lemma EnterFit(w: World, j: nat, t: Turn<Act, Value>)
    requires Shaped(w) && (j == 0 || j == 3)
    requires Fit(t.s, w.added[j], Count(w.stack, j) + if t.call.Some? then 1 else 0)
    ensures var u := Enter(w, j, t); Fit(u.lists[j], u.added[j], Count(u.stack, j))
  {
    var u := Enter(w, j, t);
    if t.call.Some? {
      assert u.stack[1..] == w.stack;
    }
    hide Fit;
  }

  lemma CallFit(w: World, j: nat, v: Value)
    requires Shaped(w) && PendingFit(w) && w.settles == [] && j < 6
    ensures PendingFit(Enter(w, j, FireWith(w.lists[j], v)))
  {
    hide Fit, FireWith, Enter, Count;
    var t := FireWith(w.lists[j], v);
    if j == 0 || j == 3 {
      FireFit(w.lists[j], w.added[j], Count(w.stack, j), v);
      assert w.added[j] + [] == w.added[j];
      EnterFit(w, j, t);
    }
    forall i | (i == 0 || i == 3) && i != j ensures Fit(Enter(w, j, t).lists[i], Enter(w, j, t).added[i], Count(Enter(w, j, t).stack, i)) {
      EnterOthers(w, j, t, i);
    }
    SettlesSame(w, j, t);
  }

  lemma SettlesSame(w: World, j: nat, t: Turn<Act, Value>)
    requires Shaped(w) && j < 6
    ensures Enter(w, j, t).settles == w.settles
  {
  }

  lemma AttachFit(w: World, j: nat, ids: seq<int>)
    requires Shaped(w) && PendingFit(w) && w.settles == [] && j < 6
    ensures PendingFit(Enter(Record(w, j, ids), j, Add(w.lists[j], Users(ids))))
  {
    hide Fit, Add, Enter, Count;
    var w1, t := Record(w, j, ids), Add(w.lists[j], Users(ids));
    if j == 0 || j == 3 {
      AddFit(w.lists[j], w.added[j], Count(w.stack, j), Users(ids));
      EnterFit(w1, j, t);
    }
    forall i | (i == 0 || i == 3) && i != j ensures Fit(Enter(w1, j, t).lists[i], Enter(w1, j, t).added[i], Count(Enter(w1, j, t).stack, i)) {
      EnterOthers(w1, j, t, i);
    }
    SettlesSame(w1, j, t);
  }

  lemma PopFit(w: World, no: bool)
    requires Shaped(w) && PendingFit(w) && w.settles == [] && w.stack != []
    ensures PendingFit(Pop(w, no))
  {
    hide Resume, Enter;
    PoppedAllowed(w.stack);
    var j := w.stack[0].list;
    var w1, t := w.(stack := w.stack[1..]), Resume(w.lists[j], no);
    if j == 0 || j == 3 {
      assert Count(w.stack, j) == 1;
      ResumeFit(w.lists[j], w.added[j], no);
      assert w.added[j] + [] == w.added[j];
      hide Fit, Count;
      EnterFit(w1, j, t);
    }
    hide Fit, Count;
    forall i | (i == 0 || i == 3) && i != j ensures Fit(Enter(w1, j, t).lists[i], Enter(w1, j, t).added[i], Count(Enter(w1, j, t).stack, i)) {
      EnterOthers(w1, j, t, i);
    }
    SettlesSame(w1, j, t);
  }

  lemma BeginFit(w: World)
    requires Inv(w) && PendingFit(w) && w.settles == [] && w.stack != [] && !w.stack[0].act.User?
    ensures PendingFit(Begin(w))
  {
    BuiltinWhilePending(w);
    assert Shaped(w);
    hide Fit, Count, Enter, FireWith, Inv;
    var f := w.stack[0];
    BegunSame(w.stack, true);
    var w1 := w.(stack := [f.(begun := true)] + w.stack[1..]);
    if f.act == FireList(3) && f.v.Some? {
      CallFit(w1, 3, f.v.value);
    }
  }

  lemma FitStep(w: World, e: Event)
    requires Inv(w) && PendingFit(w)
    ensures PendingFit(Step(w, e))
  {
    assert Shaped(w);
    hide Fit, Count, Enter, FireWith, Add, Resume, Inv;
    if w.settles != [] {
      SettlesStay(w, e);
    } else if Enabled(w, e) {
      match e
      case Call(j, v) =>
        CallFit(w.(first := if w.first.None? && j > 0 then Some((j, v)) else w.first), j, v);
      case Attach(j, ids) => AttachFit(w, j, ids);
      case Returns(no) => PopFit(w, no);
      case Tick =>
        if w.stack[0].begun {
          PopFit(w, false);
        } else {
          BeginFit(w);
        }
    }
  }

  lemma SettlesStay(w: World, e: Event)
    requires Shaped(w) && w.settles != []
    ensures Step(w, e).settles != []
  {
  }

  lemma StartFit()
    ensures PendingFit(Start())
  {
    hide Add;
    StartList(0);
    StartList(3);
  }

  lemma {:induction false} FitRun(events: seq<Event>)
    ensures PendingFit(Run(events))
    decreases |events|
  {
    if events == [] {
      StartFit();
    } else {
      FitRun(events[..|events| - 1]);
      RunInv(events[..|events| - 1]);
      FitStep(Run(events[..|events| - 1]), events[|events| - 1]);
      hide PendingFit, Inv, Step;
    }
  }

  // ---------- What is attached ----------

  predicate ProgressAttached(w: World)
    requires Shaped(w)
  {
    && w.added[0] != [] && w.added[0][0] == FireList(3)
    && (forall i | 1 <= i < |w.added[0]| :: w.added[0][i].User?)
    && (forall i | 0 <= i < |w.added[3]| :: w.added[3][i].User?)
  }

  lemma AddedStep(w: World, e: Event)
    requires Shaped(w)
    ensures Step(w, e).added == (if Enabled(w, e) && e.Attach? then w.added[e.j := w.added[e.j] + Users(e.ids)] else w.added)
  {
    hide FireWith, Add, Resume;
  }

  lemma {:induction false} ProgressAttachedRun(events: seq<Event>)
    ensures ProgressAttached(Run(events))
    decreases |events|
  {
    if events == [] {
      assert Start().added[0] == Builtins(0) && Start().added[3] == Builtins(3);
      hide Start;
    } else {
      ProgressAttachedRun(events[..|events| - 1]);
      AddedStep(Run(events[..|events| - 1]), events[|events| - 1]);
      hide Step;
    }
  }

  // ---------- One notification ----------

  /** The list calls callback `i` with `v`, and has nothing else to do. */
  predicate CallsAt(s: State<Act, Value>, list: seq<Act>, v: Value, i: nat) {
    Fit(s, list, 1) && s.firing && s.queue == [] && s.memory == Some(v) && s.index == i
  }

  predicate Rests(s: State<Act, Value>, list: seq<Act>) {
    Fit(s, list, 0) && !s.firing
  }

  lemma RestsFire(s: State<Act, Value>, list: seq<Act>, v: Value)
    requires Rests(s, list)
    ensures var t := FireWith(s, v);
            if list == [] then t.call.None? && Rests(t.s, list)
            else t.call == Some(list[0]) && CallsAt(t.s, list, v, 0) && t.s.memory == Some(v)
  {
    assert [] + [v] == [v];
    var s1 := s.(queue := [v], fired := true, firing := true);
    if list != [] {
      RoundDue(s1);
    } else {
      RoundBegins(s1);
      RoundEnds(s1.(memory := Some(v), queue := []));
      RoundBegins(s1.(memory := Some(v), queue := []));
    }
    hide NextRound, NextCall;
  }

  lemma CallsNext(s: State<Act, Value>, list: seq<Act>, v: Value, i: nat, no: bool)
    requires CallsAt(s, list, v, i)
    ensures var t := Resume(s, no);
            if i + 1 < |list| then t.call == Some(list[i + 1]) && CallsAt(t.s, list, v, i + 1) && t.s.memory == Some(v)
            else t.call.None? && Rests(t.s, list)
  {
    Resumed(s, no);
    hide Resume;
  }

  /** Where a notification is: about to be forwarded to the handlers, calling them, back in
    * its own list, calling the other callbacks, or over. */
  datatype Phase = ToForward | InHandlers | Forwarded | InList | Over

  /** Of the notification with `v` since `w0`, so many callbacks of list 0 and so many handlers
    * have been called, and the last of them runs. */
  ghost predicate Notified(w: World, w0: World, v: Value, n0: nat, n3: nat, phase: Phase)
    requires Shaped(w) && Shaped(w0)
  {
    var (list, handlers) := (w0.added[0], w0.added[3]);
    && w.added == w0.added && w.settles == w0.settles && 1 <= n0 <= |list| && n3 <= |handlers|
    && w.logs[0] == w0.logs[0] + CR.Calls(list[..n0], v)
    && w.logs[3] == w0.logs[3] + CR.Calls(handlers[..n3], v)
    && (if phase.Over? then Rests(w.lists[0], list) else CallsAt(w.lists[0], list, v, n0 - 1))
    && (if phase.InHandlers? then n3 > 0 && CallsAt(w.lists[3], handlers, v, n3 - 1) else Rests(w.lists[3], handlers))
    && match phase
       case ToForward => n0 == 1 && n3 == 0 && w.stack == [Frame(0, FireList(3), Some(v), false)]
       case InHandlers =>
         n0 == 1 && w.stack == [Frame(3, handlers[n3 - 1], Some(v), false), Frame(0, FireList(3), Some(v), true)]
       case Forwarded => n0 == 1 && n3 == |handlers| && w.stack == [Frame(0, FireList(3), Some(v), true)]
       case InList => n0 > 1 && n3 == |handlers| && w.stack == [Frame(0, list[n0 - 1], Some(v), false)]
       case Over => n0 == |list| && n3 == |handlers| && w.stack == []
  }

  /** A list has gone on to its next callback. */
  lemma EnterCall(w: World, j: nat, t: Turn<Act, Value>, v: Value)
    requires Shaped(w) && (j == 0 || j == 3) && (t.call.Some? ==> t.s.memory == Some(v))
    ensures var u := Enter(w, j, t);
            && u.lists[j] == t.s && u.lists[3 - j] == w.lists[3 - j] && u.logs[3 - j] == w.logs[3 - j]
            && u.added == w.added && u.settles == w.settles
            && u.stack == (if t.call.Some? then [Frame(j, t.call.value, Some(v), false)] else []) + w.stack
            && u.logs[j] == w.logs[j] + (if t.call.Some? then [(t.call.value, v)] else [])
  {
  }

  lemma OneMoreCall(acts: seq<Act>, v: Value, n: nat, log: seq<(Act, Value)>, before: seq<(Act, Value)>)
    requires n < |acts| && log == before + CR.Calls(acts[..n], v)
    ensures log + [(acts[n], v)] == before + CR.Calls(acts[..n + 1], v)
  {
    CR.CallsAppend(acts, v, n);
    hide CR.Calls;
  }

  lemma NotifiedForward(w: World, w0: World, v: Value) returns (n3: nat, phase: Phase)
    requires Shaped(w) && Shaped(w0) && Notified(w, w0, v, 1, 0, ToForward)
    ensures Notified(Begin(w), w0, v, 1, n3, phase)
  {
    var handlers := w0.added[3];
    var w1 := w.(stack := [w.stack[0].(begun := true)] + w.stack[1..]);
    var t := FireWith(w.lists[3], v);
    RestsFire(w.lists[3], handlers, v);
    hide FireWith, CR.Calls, Rests, CallsAt;
    EnterCall(w1, 3, t, v);
    if handlers == [] {
      n3, phase := 0, Forwarded;
    } else {
      n3, phase := 1, InHandlers;
      OneMoreCall(handlers, v, 0, w.logs[3], w0.logs[3]);
    }
    hide Enter;
  }

  lemma NotifiedHandler(w: World, w0: World, v: Value, n3: nat, no: bool) returns (m3: nat, phase: Phase)
    requires Shaped(w) && Shaped(w0) && Notified(w, w0, v, 1, n3, InHandlers)
    ensures Notified(Pop(w, no), w0, v, 1, m3, phase)
  {
    var handlers := w0.added[3];
    var w1 := w.(stack := w.stack[1..]);
    CallsNext(w.lists[3], handlers, v, n3 - 1, no);
    hide Resume, CR.Calls, Rests, CallsAt;
    EnterCall(w1, 3, Resume(w.lists[3], no), v);
    if n3 == |handlers| {
      m3, phase := n3, Forwarded;
    } else {
      m3, phase := n3 + 1, InHandlers;
      OneMoreCall(handlers, v, n3, w.logs[3], w0.logs[3]);
    }
    hide Enter;
  }

  lemma NotifiedCallback(w: World, w0: World, v: Value, n0: nat, n3: nat, no: bool, phase: Phase)
      returns (m0: nat, next: Phase)
    requires Shaped(w) && Shaped(w0) && Notified(w, w0, v, n0, n3, phase) && (phase.Forwarded? || phase.InList?)
    ensures Notified(Pop(w, no), w0, v, m0, n3, next)
  {
    var list := w0.added[0];
    var w1 := w.(stack := w.stack[1..]);
    CallsNext(w.lists[0], list, v, n0 - 1, no);
    hide Resume, CR.Calls, Rests, CallsAt;
    EnterCall(w1, 0, Resume(w.lists[0], no), v);
    if n0 == |list| {
      m0, next := n0, Over;
    } else {
      m0, next := n0 + 1, InList;
      OneMoreCall(list, v, n0, w.logs[0], w0.logs[0]);
    }
    hide Enter;
  }

  lemma NotifiedStep(w: World, w0: World, v: Value, n0: nat, n3: nat, phase: Phase, e: Event)
      returns (m0: nat, m3: nat, next: Phase)
    requires Shaped(w) && Shaped(w0) && ProgressAttached(w0) && Notified(w, w0, v, n0, n3, phase) && (e.Tick? || e.Returns?)
    ensures Notified(Step(w, e), w0, v, m0, m3, next)
  {
    hide Enter, Resume, FireWith, CR.Calls, Rests, CallsAt, Begin, Pop;
    m0, m3, next := n0, n3, phase;
    if Enabled(w, e) {
      match phase {
        case ToForward =>
          m3, next := NotifiedForward(w, w0, v);
        case InHandlers =>
          m3, next := NotifiedHandler(w, w0, v, n3, e.no);
        case Forwarded =>
          m0, next := NotifiedCallback(w, w0, v, n0, n3, false, phase);
        case InList =>
          m0, next := NotifiedCallback(w, w0, v, n0, n3, e.no, phase);
        case Over =>
      }
    }
  }

  predicate OnlyGoesOn(events: seq<Event>) {
    forall i | 0 <= i < |events| :: events[i].Tick? || events[i].Returns?
  }

  lemma RunSplit(events: seq<Event>, e: Event)
    ensures Run(events + [e]) == Step(Run(events), e)
  {
    assert (events + [e])[..|events + [e]| - 1] == events;
    hide Step;
  }

  lemma NotifyBegins(events: seq<Event>, v: Value)
    requires Run(events).stack == [] && Run(events).settles == []
    ensures Notified(Run(events + [Call(0, v)]), Run(events), v, 1, 0, ToForward)
  {
    var w := Run(events);
    RunSplit(events, Call(0, v));
    FitRun(events);
    ProgressAttachedRun(events);
    RestsFire(w.lists[0], w.added[0], v);
    hide FireWith, Run;
    EnterCall(w, 0, FireWith(w.lists[0], v), v);
    assert CR.Calls(w.added[3][..0], v) == [] && CR.Calls(w.added[0][..0], v) == [];
    hide CR.Calls, Enter;
    OneMoreCall(w.added[0], v, 0, w.logs[0], w.logs[0]);
  }

  lemma {:induction false} NotifiedRun(events: seq<Event>, v: Value, more: seq<Event>) returns (n0: nat, n3: nat, phase: Phase)
    requires Run(events).stack == [] && Run(events).settles == [] && OnlyGoesOn(more)
    ensures Notified(Run(events + [Call(0, v)] + more), Run(events), v, n0, n3, phase)
    decreases |more|
  {
    hide Notified, Step;
    if more == [] {
      NotifyBegins(events, v);
      assert events + [Call(0, v)] + more == events + [Call(0, v)];
      n0, n3, phase := 1, 0, ToForward;
    } else {
      var before, e := more[..|more| - 1], more[|more| - 1];
      n0, n3, phase := NotifiedRun(events, v, before);
      var all := events + [Call(0, v)] + before;
      assert all + [e] == events + [Call(0, v)] + more;
      RunSplit(all, e);
      ProgressAttachedRun(events);
      n0, n3, phase := NotifiedStep(Run(all), Run(events), v, n0, n3, phase, e);
    }
  }

  /** While the deferred is pending and nothing runs, `notify` calls every progress callback and
    * every handler that was attached, once, in order, with its value; when it is through, the
    * deferred is pending still. */
  lemma NotifyCallsAll(events: seq<Event>, v: Value, more: seq<Event>)
    requires Run(events).stack == [] && Run(events).settles == [] && OnlyGoesOn(more)
    ensures var w, r := Run(events), Run(events + [Call(0, v)] + more);
            r.stack == [] ==>
              && r.logs[0] == w.logs[0] + CR.Calls(w.added[0], v)
              && r.logs[3] == w.logs[3] + CR.Calls(w.added[3], v)
              && r.settles == []
  {
    var n0, n3, phase := NotifiedRun(events, v, more);
    var w := Run(events);
    assert w.added[0][..|w.added[0]|] == w.added[0] && w.added[3][..|w.added[3]|] == w.added[3];
    hide Run, CR.Calls, CallsAt, Rests;
  }
}
