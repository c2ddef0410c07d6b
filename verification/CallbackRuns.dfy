/** Runs of a "once memory" list under `add` and `fire`, with callbacks that use the list
  * again from inside.
  */
module CallbackRuns {
  import opened Wrappers
  import opened Callbacks

  const ONCE_MEMORY := Options(true, true, false, false)

  /** What code outside and inside callbacks can do. `Returns` ends the running callback. */
  datatype Event<F, V> = Adds(args: seq<Arg<F>>) | Fires(v: V) | Returns(no: bool)

  /** The list, the callback that is running, and the calls made so far. */
  datatype World<F, V> = World(s: State<F, V>, running: Option<F>, log: seq<(F, V)>)

  function Start<F, V>(): World<F, V> {
    World(Fresh(ONCE_MEMORY), None, [])
  }

  /** Control moves on to the next call, if the operation ended in one. */
  function Enter<F, V>(w: World<F, V>, t: Turn<F, V>): World<F, V> {
    match t.call
    case None => w.(s := t.s, running := if t.s.firing then w.running else None)
    case Some(f) => World(t.s, Some(f), if t.s.memory.Some? then w.log + [(f, t.s.memory.value)] else w.log)
  }

  function Step<F(==), V>(w: World<F, V>, e: Event<F, V>): World<F, V> {
    match e
    case Adds(args) => Enter(w, Add(w.s, Flatten(args)))
    case Fires(v) => Enter(w, FireWith(w.s, v))
    case Returns(no) => if w.running.None? then w else Enter(w, Resume(w.s, no))
  }

  function Run<F(==), V>(events: seq<Event<F, V>>): World<F, V>
    decreases |events|
  {
    if events == [] then Start()
    else Step(Run(events[..|events| - 1]), events[|events| - 1])
  }

  // ---------- The events, read on their own ----------

  /** Every callback added, in the order of adding. */
  function Added<F, V>(events: seq<Event<F, V>>): seq<F>
    decreases |events|
  {
    if events == [] then []
    else
      var last := events[|events| - 1];
      Added(events[..|events| - 1]) + (if last.Adds? then Flatten(last.args) else [])
  }

  /** The value of the first fire. */
  function FirstFire<F, V>(events: seq<Event<F, V>>): Option<V>
    decreases |events|
  {
    if events == [] then None
    else
      var (before, last) := (FirstFire(events[..|events| - 1]), events[|events| - 1]);
      if before.None? && last.Fires? then Some(last.v) else before
  }

  function Calls<F, V>(fs: seq<F>, v: V): (calls: seq<(F, V)>)
    ensures |calls| == |fs| && forall i | 0 <= i < |fs| :: calls[i] == (fs[i], v)
  {
    if fs == [] then [] else [(fs[0], v)] + Calls(fs[1..], v)
  }

  // ---------- The invariant ----------

  /** A list that has fired once with `v`: calls were made for the first `called` of the
    * callbacks `added`, and the rest of them still stands in the list. */
  ghost predicate OnceFired<F, V>(s: State<F, V>, added: seq<F>, v: V, called: nat) {
    && s.opts == ONCE_MEMORY && s.fired && s.locked
    && s.queue == [] && s.memory == Some(v) && s.list.Some?
    && called <= |added|
    && (s.firing ==> 0 <= s.index < |s.list.value| <= |added| && called == |added| - |s.list.value| + s.index + 1
                     && s.list.value == added[|added| - |s.list.value|..])
    && (!s.firing ==> s.index == -1 && s.list.value == [] && called == |added|)
  }

  ghost predicate OnceWaiting<F, V>(s: State<F, V>, added: seq<F>) {
    s == State(ONCE_MEMORY, Some(added), [], None, false, false, false, -1)
  }

  ghost predicate OnceDisabled<F, V>(s: State<F, V>) {
    s.opts == ONCE_MEMORY && s.list.None? && s.queue == [] && s.memory.None? && s.locked && !s.firing
  }

  lemma {:induction false} AppendAll<F>(list: seq<F>, fs: seq<F>)
    ensures Append(list, fs, false) == list + fs
    decreases |fs|
  {
    if fs == [] {
      assert list + [] == list;
    } else {
      AppendAll(list + [fs[0]], fs[1..]);
      assert (list + [fs[0]]) + fs[1..] == list + fs;
    }
  }

  /** A round over a single queued value, from before the first callback. */
  lemma OneRound<F, V>(s: State<F, V>, v: V)
    requires s.queue == [v] && s.index == -1
    ensures var s1 := s.(memory := Some(v), queue := []);
            NextRound(s) == if s.Callbacks() == [] then Turn(Finish(s1), None) else Turn(s1.(index := 0), Some(s.Callbacks()[0]))
  {
    var s1 := s.(memory := Some(v), queue := []);
    assert s.queue[1..] == [];
    assert NextRound(s) == NextCall(s1);
    if s.Callbacks() == [] {
      assert NextCall(s1) == NextRound(s1.(index := -1)) == NextRound(s1);
    }
  }

  /** Firing a waiting list starts the first callback, or finishes at once when there is none. */
  lemma FireWaiting<F, V>(s: State<F, V>, added: seq<F>, v: V)
    requires OnceWaiting(s, added)
    ensures var t := FireWith(s, v);
            && OnceFired(t.s, added, v, if added == [] then 0 else 1)
            && t.call == (if added == [] then None else Some(added[0]))
            && t.s.firing == (added != [])
  {
    assert [] + [v] == [v];
    OneRound(State(ONCE_MEMORY, Some(added), [v], None, true, true, true, -1), v);
    assert added == added[0..];
  }

  lemma AddWaiting<F, V>(s: State<F, V>, added: seq<F>, fs: seq<F>)
    requires OnceWaiting(s, added)
    ensures OnceWaiting(Add(s, fs).s, added + fs) && Add(s, fs).call.None?
  {
    AppendAll(added, fs);
  }

  lemma FireFired<F, V>(s: State<F, V>, added: seq<F>, v: V, called: nat, u: V)
    requires OnceFired(s, added, v, called)
    ensures FireWith(s, u) == Turn(s, None)
  {
  }

  /** Adding to a fired list joins the running round, or starts the first of the new callbacks. */
  lemma AddFired<F, V>(s: State<F, V>, added: seq<F>, v: V, called: nat, fs: seq<F>)
    requires OnceFired(s, added, v, called)
    ensures var t := Add(s, fs);
            var starts := !s.firing && fs != [];
            && OnceFired(t.s, added + fs, v, if starts then called + 1 else called)
            && t.call == (if starts then Some((added + fs)[called]) else None)
            && t.s.firing == (s.firing || fs != [])
  {
    AppendAll(s.list.value, fs);
    var all := added + fs;
    if s.firing {
      assert s.list.value + fs == all[|all| - |s.list.value + fs|..];
    } else {
      assert s.list.value + fs == fs == all[|all| - |fs|..];
      assert [] + [v] == [v];
      OneRound(s.(queue := [v], list := Some(fs), firing := true), v);
    }
  }

  lemma ResumeFired<F, V>(s: State<F, V>, added: seq<F>, v: V, called: nat, no: bool)
    requires OnceFired(s, added, v, called) && s.firing
    ensures var t := Resume(s, no);
            && OnceFired(t.s, added, v, if called < |added| then called + 1 else called)
            && t.call == (if called < |added| then Some(added[called]) else None)
            && t.s.firing == (called < |added|)
  {
    if called == |added| {
      assert s.index + 1 == |s.list.value|;
      var s1 := s.(index := -1);
      assert NextCall(s) == NextRound(s1) == Turn(Finish(s1), None);
    }
  }

  ghost predicate Inv<F, V>(w: World<F, V>, added: seq<F>, first: Option<V>) {
    match first
    case None => OnceWaiting(w.s, added) && w.running.None? && w.log == []
    case Some(v) =>
      && |w.log| <= |added|
      && OnceFired(w.s, added, v, |w.log|)
      && w.log == Calls(added[..|w.log|], v)
      && w.running.Some? == w.s.firing
      && (w.running.Some? ==> w.log != [] && w.running.value == w.log[|w.log| - 1].0)
  }

  lemma CallsAppend<F, V>(added: seq<F>, v: V, n: nat)
    requires n < |added|
    ensures Calls(added[..n + 1], v) == Calls(added[..n], v) + [(added[n], v)]
  {
  }

  lemma CallsPrefix<F, V>(added: seq<F>, fs: seq<F>, v: V, n: nat)
    requires n <= |added|
    ensures (added + fs)[..n] == added[..n]
  {
  }

  lemma WaitingAdds<F, V>(w: World<F, V>, added: seq<F>, args: seq<Arg<F>>)
    requires Inv(w, added, None)
    ensures Inv(Step(w, Adds(args)), added + Flatten(args), None)
  {
    AddWaiting(w.s, added, Flatten(args));
    hide Add, FireWith, Resume, Flatten, OnceWaiting;
  }

  lemma FirstCall<F, V>(added: seq<F>, v: V)
    ensures Calls(added[..0], v) == []
    ensures added != [] ==> Calls(added[..1], v) == [(added[0], v)]
  {
    if added != [] {
      assert added[..1] == [added[0]];
    }
  }

  lemma WaitingFires<F, V>(w: World<F, V>, added: seq<F>, v: V)
    requires Inv(w, added, None)
    ensures Inv(Step(w, Fires(v)), added, Some(v))
  {
    hide Add, FireWith, Resume, OnceFired, Calls;
    FireWaiting(w.s, added, v);
    FirstCall(added, v);
    hide OnceWaiting;
  }

  lemma WaitingStep<F, V>(w: World<F, V>, added: seq<F>, e: Event<F, V>)
    requires Inv(w, added, None)
    ensures Inv(Step(w, e),
                added + (if e.Adds? then Flatten(e.args) else []),
                if e.Fires? then Some(e.v) else None)
  {
    assert added + [] == added;
    assert Step(w, Returns(true)) == Step(w, Returns(false)) == w;
    hide Inv, Step, Flatten;
    match e
    case Adds(args) => WaitingAdds(w, added, args);
    case Fires(v) => WaitingFires(w, added, v);
    case Returns(no) =>
  }

  lemma FiredStep<F, V>(w: World<F, V>, added: seq<F>, v: V, e: Event<F, V>)
    requires Inv(w, added, Some(v))
    ensures Inv(Step(w, e), added + (if e.Adds? then Flatten(e.args) else []), Some(v))
  {
    hide Add, FireWith, Resume, Calls, Flatten, Without, Append, NextCall, NextRound;
    assert added + [] == added;
    var n := |w.log|;
    match e
    case Adds(args) =>
      var fs := Flatten(args);
      AddFired(w.s, added, v, n, fs);
      CallsPrefix(added, fs, v, n);
      if !w.s.firing && fs != [] {
        CallsAppend(added + fs, v, n);
      }
    case Fires(u) => FireFired(w.s, added, v, n, u);
    case Returns(no) =>
      if w.running.Some? {
        ResumeFired(w.s, added, v, n, no);
        if n < |added| {
          CallsAppend(added, v, n);
        }
      }
  }

  lemma InvStep<F, V>(w: World<F, V>, added: seq<F>, first: Option<V>, e: Event<F, V>)
    requires Inv(w, added, first)
    ensures Inv(Step(w, e),
                added + (if e.Adds? then Flatten(e.args) else []),
                if first.None? && e.Fires? then Some(e.v) else first)
  {
    hide Inv, Step, Flatten;
    match first
    case None => WaitingStep(w, added, e);
    case Some(v) => FiredStep(w, added, v, e);
  }

  lemma {:induction false} InvRun<F, V>(events: seq<Event<F, V>>)
    ensures Inv(Run(events), Added(events), FirstFire(events))
    decreases |events|
  {
    if events != [] {
      InvRun(events[..|events| - 1]);
      InvStep(Run(events[..|events| - 1]), Added(events[..|events| - 1]), FirstFire(events[..|events| - 1]), events[|events| - 1]);
    }
  }

  /** Over every run, re-entrant or not: before the first fire nothing is called; after it the
    * calls are the added callbacks, each once, in the order of adding, all with the first
    * fire's value; and whenever no callback is running, all of them have been called. */
  lemma CalledExactlyOnce<F, V>(events: seq<Event<F, V>>)
    ensures var (w, added) := (Run(events), Added(events));
            match FirstFire(events)
            case None => w.log == []
            case Some(v) =>
              && |w.log| <= |added|
              && (forall i | 0 <= i < |w.log| :: w.log[i] == (added[i], v))
              && (w.running.None? ==> |w.log| == |added|)
              && (w.running.Some? ==> |w.log| > 0 && w.running == Some(added[|w.log| - 1]))
  {
    InvRun(events);
  }
}
