/** Runs of a list that may be fired again and again, with callbacks that fire it from inside:
  * lists without "once", stopping on `false` or not.
  */
module FiringRuns {
  import opened Wrappers
  import opened Callbacks
  import opened CallbackRuns

  function RunFrom<F(==), V>(w: World<F, V>, events: seq<Event<F, V>>): World<F, V>
    decreases |events|
  {
    if events == [] then w
    else Step(RunFrom(w, events[..|events| - 1]), events[|events| - 1])
  }

  /** A new list with its callbacks, which nobody has fired yet. */
  function Ready<F(==), V>(opts: Options, fs: seq<F>): World<F, V> {
    World(Add(Fresh(opts), fs).s, None, [])
  }

  predicate NoneAdded<F, V>(events: seq<Event<F, V>>) {
    forall i | 0 <= i < |events| :: !events[i].Adds?
  }

  // ---------- The events, read on their own ----------

  /** The values fired, in order. */
  function Values<F, V>(events: seq<Event<F, V>>): seq<V>
    decreases |events|
  {
    if events == [] then []
    else
      var last := events[|events| - 1];
      Values(events[..|events| - 1]) + (if last.Fires? then [last.v] else [])
  }

  /** What callbacks returned, in order: whether it was `false`. */
  function Answers<F(==), V>(w: World<F, V>, events: seq<Event<F, V>>): seq<bool>
    decreases |events|
  {
    if events == [] then []
    else
      var before, last := events[..|events| - 1], events[|events| - 1];
      Answers(w, before) + (if last.Returns? && RunFrom(w, before).running.Some? then [last.no] else [])
  }

  /** The turn that is due after the answers. */
  datatype Due = Due(round: nat, index: nat)

  /** Every answer goes on to the next of `n` callbacks; after the last one, or a `false` if
    * that stops the list, to the first one and the next value. */
  function After(n: nat, stops: bool, answers: seq<bool>): Due {
    if answers == [] then Due(0, 0)
    else
      var before := After(n, stops, answers[..|answers| - 1]);
      if (stops && answers[|answers| - 1]) || before.index + 1 >= n then Due(before.round + 1, 0)
      else Due(before.round, before.index + 1)
  }

  // ---------- The invariant ----------

  /** The list `fs` with so many values fired and answers given. */
  ghost predicate InTurn<F, V>(s: State<F, V>, running: Option<F>, fs: seq<F>, values: seq<V>, due: Due) {
    && s.list == Some(fs) && !s.opts.once && !s.locked
    && if running.None? then
         && !s.firing && s.queue == [] && s.index == -1 && due == Due(|values|, 0)
       else
         && s.firing && due.round < |values| && due.index < |fs|
         && s.queue == values[due.round + 1..] && s.memory == Some(values[due.round])
         && s.index == due.index && running.value == fs[due.index]
  }

  /** The calls are those that were due, one after the other. */
  ghost predicate CalledInTurn<F, V>(log: seq<(F, V)>, fs: seq<F>, values: seq<V>, stops: bool, answers: seq<bool>) {
    && |answers| <= |log| <= |answers| + 1
    && forall k | 0 <= k < |log| ::
         var due := After(|fs|, stops, answers[..k]);
         due.index < |fs| && due.round < |values| && log[k] == (fs[due.index], values[due.round])
  }

  /** What a list at rest remembers: the last value, if it is one that remembers and its last
    * round was not stopped. */
  function Remembered<V>(opts: Options, values: seq<V>, answers: seq<bool>): Option<V> {
    if opts.memory && values != [] && !(opts.stopOnFalse && answers != [] && answers[|answers| - 1])
    then Some(values[|values| - 1]) else None
  }

  ghost predicate FiringInv<F, V>(w: World<F, V>, fs: seq<F>, values: seq<V>, answers: seq<bool>) {
    && InTurn(w.s, w.running, fs, values, After(|fs|, w.s.opts.stopOnFalse, answers))
    && CalledInTurn(w.log, fs, values, w.s.opts.stopOnFalse, answers)
    && |w.log| == |answers| + (if w.running.Some? then 1 else 0)
    && (w.running.None? ==> w.s.memory == Remembered(w.s.opts, values, answers))
  }

  // ---------- Every event keeps it ----------

  /** A round begins with the first callback, as long as there is a value. */
  lemma RoundDue<F, V>(s: State<F, V>)
    requires s.list.Some? && s.list.value != [] && s.index == -1
    ensures NextRound(s) ==
      if s.queue == [] then Turn(Finish(s), None)
      else Turn(s.(memory := Some(s.queue[0]), queue := s.queue[1..], index := 0), Some(s.list.value[0]))
  {
    RoundBegins(s);
    if s.queue != [] {
      RoundGoesOn(s.(memory := Some(s.queue[0]), queue := s.queue[1..]));
    }
    hide NextRound, NextCall;
  }

  lemma FireInTurn<F, V>(s: State<F, V>, running: Option<F>, fs: seq<F>, values: seq<V>, due: Due, v: V)
    requires fs != [] && InTurn(s, running, fs, values, due)
    ensures var t := FireWith(s, v);
            && t.s.opts == s.opts
            && InTurn(t.s, if running.None? then t.call else running, fs, values + [v], due)
            && if running.Some? then t.call.None? else t.call == Some(fs[0]) && t.s.memory == Some(v)
  {
    hide NextRound, Finish;
    var all := values + [v];
    if running.None? {
      assert [] + [v] == all[|values|..] && all[|values| + 1..] == [];
      RoundDue(State(s.opts, s.list, [v], s.memory, true, true, s.locked, s.index));
    } else {
      assert values[due.round + 1..] + [v] == all[due.round + 1..];
    }
  }

  /** A callback returns: on to the next one, or to the next value, or to the end. */
  lemma Resumed<F, V>(s: State<F, V>, no: bool)
    requires s.list.Some? && 0 <= s.index < |s.list.value|
    ensures var stopped, fs := no && s.opts.stopOnFalse, s.list.value;
            Resume(s, no) ==
              if !stopped && s.index + 1 < |fs| then Turn(s.(index := s.index + 1), Some(fs[s.index + 1]))
              else if s.queue != [] then Turn(s.(memory := Some(s.queue[0]), queue := s.queue[1..], index := 0), Some(fs[0]))
              else Turn(Finish(s.(index := -1, memory := if stopped then None else s.memory)), None)
  {
    hide NextRound, NextCall, Finish;
    var stopped := no && s.opts.stopOnFalse;
    var s1 := if stopped then s.(index := |s.list.value|, memory := None) else s;
    assert Resume(s, no) == NextCall(s1);
    if s1.index + 1 < |s.list.value| {
      RoundGoesOn(s1);
    } else {
      RoundEnds(s1);
      RoundDue(s1.(index := -1));
    }
  }

  lemma RoundInTurn<F, V>(s: State<F, V>, f: F, fs: seq<F>, values: seq<V>, due: Due, memory: Option<V>)
    requires InTurn(s, Some(f), fs, values, due)
    ensures s.list == Some(fs) && s.index == due.index < |fs| && due.round < |values|
    ensures due.index + 1 < |fs| ==>
              InTurn(s.(index := s.index + 1), Some(fs[s.index + 1]), fs, values, Due(due.round, due.index + 1))
              && s.memory == Some(values[due.round])
    ensures s.queue != [] ==>
              && due.round + 1 < |values| && s.queue[0] == values[due.round + 1]
              && InTurn(s.(memory := Some(s.queue[0]), queue := s.queue[1..], index := 0), Some(fs[0]), fs, values, Due(due.round + 1, 0))
    ensures s.queue == [] ==>
              && InTurn(Finish(s.(index := -1, memory := memory)), None, fs, values, Due(due.round + 1, 0))
              && Finish(s.(index := -1, memory := memory)).memory == (if s.opts.memory then memory else None)
              && s.memory == Some(values[|values| - 1])
  {
    assert |s.queue| == |values| - due.round - 1;
    if s.queue != [] {
      assert s.queue[1..] == values[due.round + 2..];
    }
  }

  lemma ReturnInTurn<F, V>(s: State<F, V>, f: F, fs: seq<F>, values: seq<V>, answers: seq<bool>, no: bool)
    requires InTurn(s, Some(f), fs, values, After(|fs|, s.opts.stopOnFalse, answers))
    ensures var t, due := Resume(s, no), After(|fs|, s.opts.stopOnFalse, answers + [no]);
            && t.s.opts == s.opts
            && InTurn(t.s, t.call, fs, values, due)
            && (t.call.Some? ==> t.s.memory == Some(values[due.round]))
            && (t.call.None? ==> t.s.memory == Remembered(s.opts, values, answers + [no]))
  {
    var due := After(|fs|, s.opts.stopOnFalse, answers);
    assert (answers + [no])[..|answers|] == answers;
    assert After(|fs|, s.opts.stopOnFalse, answers + [no])
        == if (s.opts.stopOnFalse && no) || due.index + 1 >= |fs| then Due(due.round + 1, 0) else Due(due.round, due.index + 1);
    Resumed(s, no);
    RoundInTurn(s, f, fs, values, due, if no && s.opts.stopOnFalse then None else s.memory);
    hide Resume, After, InTurn, Finish;
  }

  /** The call that is due is made. */
  lemma CalledNext<F, V>(log: seq<(F, V)>, fs: seq<F>, values: seq<V>, stops: bool, answers: seq<bool>)
    requires CalledInTurn(log, fs, values, stops, answers) && |log| == |answers|
    requires var due := After(|fs|, stops, answers); due.index < |fs| && due.round < |values|
    ensures var due := After(|fs|, stops, answers);
            CalledInTurn(log + [(fs[due.index], values[due.round])], fs, values, stops, answers)
  {
    assert answers[..|answers|] == answers;
    hide After;
  }

  lemma CalledMore<F, V>(log: seq<(F, V)>, fs: seq<F>, values: seq<V>, stops: bool, answers: seq<bool>, v: V, no: bool)
    requires CalledInTurn(log, fs, values, stops, answers)
    ensures CalledInTurn(log, fs, values + [v], stops, answers)
    ensures |log| == |answers| + 1 ==> CalledInTurn(log, fs, values, stops, answers + [no])
  {
    hide After;
    assert forall k | 0 <= k <= |answers| :: (answers + [no])[..k] == answers[..k];
  }

  lemma FiringStep<F, V>(w: World<F, V>, fs: seq<F>, values: seq<V>, answers: seq<bool>, e: Event<F, V>)
    requires fs != [] && FiringInv(w, fs, values, answers) && !e.Adds?
    ensures FiringInv(Step(w, e), fs,
                      values + (if e.Fires? then [e.v] else []),
                      answers + (if e.Returns? && w.running.Some? then [e.no] else []))
    ensures Step(w, e).s.opts == w.s.opts
  {
    var stops := w.s.opts.stopOnFalse;
    hide After, FireWith, Resume, CalledInTurn;
    assert values + [] == values && answers + [] == answers;
    match e {
      case Fires(v) =>
        FireInTurn(w.s, w.running, fs, values, After(|fs|, stops, answers), v);
        CalledMore(w.log, fs, values, stops, answers, v, false);
        if w.running.None? {
          CalledNext(w.log, fs, values + [v], stops, answers);
        }
      case Returns(no) =>
        if w.running.Some? {
          ReturnInTurn(w.s, w.running.value, fs, values, answers, no);
          CalledMore(w.log, fs, values, stops, answers, values[0], no);
          if Resume(w.s, no).call.Some? {
            CalledNext(w.log, fs, values, stops, answers + [no]);
          }
        }
    }
  }

  lemma {:induction false} FiringRun<F, V>(w: World<F, V>, fs: seq<F>, events: seq<Event<F, V>>)
    requires fs != [] && FiringInv(w, fs, [], []) && NoneAdded(events)
    ensures var r := RunFrom(w, events);
            FiringInv(r, fs, Values(events), Answers(w, events)) && r.s.opts == w.s.opts
    decreases |events|
  {
    if events != [] {
      var before, last := events[..|events| - 1], events[|events| - 1];
      FiringRun(w, fs, before);
      FiringStep(RunFrom(w, before), fs, Values(before), Answers(w, before), last);
      hide FiringInv, Step;
    }
  }

  lemma ReadyInv<F, V>(opts: Options, fs: seq<F>)
    requires !opts.once && Append([], fs, opts.unique) != []
    ensures FiringInv(Ready<F, V>(opts, fs), Append([], fs, opts.unique), [], [])
    ensures Ready<F, V>(opts, fs).s.opts == opts
  {
  }

  /** Over every re-entrant run without "once": every call is the one that is due, the next
    * callback with the same value or the first with the next value fired; and a callback runs
    * exactly as long as some value has callbacks to go. */
  lemma CallsInTurn<F, V>(opts: Options, fs: seq<F>, events: seq<Event<F, V>>)
    requires !opts.once && NoneAdded(events)
    ensures var w, list := RunFrom(Ready(opts, fs), events), Append([], fs, opts.unique);
            var values, answers := Values(events), Answers(Ready(opts, fs), events);
            list != [] ==>
              && CalledInTurn(w.log, list, values, opts.stopOnFalse, answers)
              && |w.log| == |answers| + (if w.running.Some? then 1 else 0)
              && (w.running.Some? <==> After(|list|, opts.stopOnFalse, answers).round < |values|)
              && (w.running.None? ==> w.s.memory == Remembered(opts, values, answers))
  {
    var list := Append([], fs, opts.unique);
    if list != [] {
      ReadyInv<F, V>(opts, fs);
      FiringRun(Ready(opts, fs), list, events);
      hide Append, RunFrom, Ready, CalledInTurn, After;
    }
  }

  lemma {:induction false} AfterCounts(n: nat, answers: seq<bool>)
    requires n > 0
    ensures After(n, false, answers) == Due(|answers| / n, |answers| % n)
  {
    if answers != [] {
      AfterCounts(n, answers[..|answers| - 1]);
      NextPlace(|answers| - 1, n);
    }
  }

  lemma NextPlace(k: nat, n: nat)
    requires n > 0
    ensures if k % n + 1 == n then (k + 1) / n == k / n + 1 && (k + 1) % n == 0
            else (k + 1) / n == k / n && (k + 1) % n == k % n + 1
  {
    assert k == n * (k / n) + k % n;
    if k % n + 1 == n {
      Divides(k + 1, n, k / n + 1, 0);
    } else {
      Divides(k + 1, n, k / n, k % n + 1);
    }
  }

  lemma Rows(n: nat, a: nat, b: nat)
    requires a < b
    ensures n * a + n <= n * b
  {
    var d := b - a - 1;
    assert n * b == n * a + n + n * d;
  }

  lemma Parts(k: nat, n: nat) returns (q: nat, r: nat)
    requires n > 0
    ensures q == k / n && r == k % n && r < n && k == n * q + r
  {
    q, r := k / n, k % n;
  }

  lemma Divides(k: nat, n: nat, q: nat, r: nat)
    requires r < n && k == n * q + r
    ensures k / n == q && k % n == r
  {
    var q', r' := Parts(k, n);
    if q' < q {
      Rows(n, q', q);
    } else if q < q' {
      Rows(n, q, q');
    }
  }

  lemma ExactRounds(k: nat, n: nat, rounds: nat)
    requires n > 0 && k / n >= rounds && (k > 0 ==> (k - 1) / n < rounds)
    ensures k == n * rounds
  {
    var q, r := Parts(k, n);
    if k > 0 {
      var q', r' := Parts(k - 1, n);
      Rows(n, q', rounds);
      if rounds < q {
        Rows(n, rounds, q);
      }
    } else if rounds < q {
      Rows(n, rounds, q);
    }
  }

  /** If `false` does not stop the list: each value is given to all callbacks, value by value in
    * the order of firing, and when nothing runs, all of it has been done. */
  lemma EveryValueToAll<F, V>(opts: Options, fs: seq<F>, events: seq<Event<F, V>>)
    requires !opts.once && !opts.stopOnFalse && !opts.unique && NoneAdded(events)
    ensures var w, values := RunFrom(Ready(opts, fs), events), Values(events);
            fs != [] ==>
              && (forall k | 0 <= k < |w.log| :: k / |fs| < |values| && w.log[k] == (fs[k % |fs|], values[k / |fs|]))
              && (w.running.None? ==> |w.log| == |fs| * |values|)
  {
    if fs != [] {
      AppendAll([], fs);
      assert [] + fs == fs;
      CallsInTurn(opts, fs, events);
      var w := RunFrom(Ready(opts, fs), events);
      var values, answers := Values(events), Answers(Ready(opts, fs), events);
      AllCalled(w.log, fs, values, answers);
      hide *;
      if w.running.None? {
        AfterCounts(|fs|, answers);
        ExactRounds(|answers|, |fs|, |values|);
      }
    }
  }

  lemma AllCalled<F, V>(log: seq<(F, V)>, fs: seq<F>, values: seq<V>, answers: seq<bool>)
    requires fs != [] && CalledInTurn(log, fs, values, false, answers)
    ensures forall k | 0 <= k < |log| :: k / |fs| < |values| && log[k] == (fs[k % |fs|], values[k / |fs|])
  {
    forall k | 0 <= k < |log|
      ensures k / |fs| < |values| && log[k] == (fs[k % |fs|], values[k / |fs|])
    {
      AfterCounts(|fs|, answers[..k]);
      assert |answers[..k]| == k;
    }
  }

  // ---------- Adding to a list that remembers ----------

  /** What is added to a list that remembers and rests is called with the last value, the first
    * of it at once; added while a callback runs, it stands behind the others. */
  lemma AddedToList<F, V>(s: State<F, V>, fs: seq<F>)
    requires s.list.Some? && !s.opts.unique && (!s.firing ==> s.queue == [])
    ensures var t, all := Add(s, fs), s.list.value + fs;
            if s.firing || s.memory.None? then t == Turn(s.(list := Some(all)), None)
            else if fs == [] then t.call.None? && (!s.locked && !s.opts.once ==> t.s.list == Some(all))
            else t == Turn(State(s.opts, Some(all), [], s.memory, true, true, s.locked || s.opts.once, |s.list.value|), Some(fs[0]))
  {
    hide NextRound, NextCall;
    AppendAll(s.list.value, fs);
    if !s.firing && s.memory.Some? {
      var v := s.memory.value;
      assert [] + [v] == [v];
      var s1 := State(s.opts, Some(s.list.value + fs), [], s.memory, true, true, s.locked || s.opts.once, |s.list.value| - 1);
      assert Add(s, fs) == NextRound(s1.(queue := [v]));
      RoundFrom(s1, v, |s.list.value|);
      hide Add, Append;
    }
  }

  /** A round that begins in the middle of the list. */
  lemma RoundFrom<F, V>(s: State<F, V>, v: V, index: nat)
    requires s.list.Some? && s.queue == [] && s.memory == Some(v) && s.index == index - 1 && index <= |s.list.value|
    ensures NextRound(s.(queue := [v])) ==
      if index < |s.list.value| then Turn(s.(index := index), Some(s.list.value[index])) else Turn(Finish(s.(index := -1)), None)
  {
    hide NextRound, NextCall, Finish;
    RoundBegins(s.(queue := [v]));
    assert [v][1..] == [];
    if index < |s.list.value| {
      RoundGoesOn(s);
    } else {
      RoundEnds(s);
      RoundBegins(s.(index := -1));
    }
  }

  /** So after any run, what is added once nothing runs is called with the last value, or not at
    * all if the list forgets or its last round was stopped. */
  lemma AddedAfterwards<F, V>(opts: Options, fs: seq<F>, events: seq<Event<F, V>>, args: seq<Arg<F>>)
    requires fs != [] && !opts.once && !opts.unique && NoneAdded(events)
    requires RunFrom(Ready(opts, fs), events).running.None?
    ensures var w, more := RunFrom(Ready(opts, fs), events), Flatten(args);
            var v, r := Remembered(opts, Values(events), Answers(Ready(opts, fs), events)), Step(w, Adds(args));
            r.log == w.log + if v.Some? && more != [] then [(more[0], v.value)] else []
  {
    AppendAll([], fs);
    assert [] + fs == fs;
    var w := RunFrom(Ready(opts, fs), events);
    ReadyInv<F, V>(opts, fs);
    FiringRun(Ready(opts, fs), fs, events);
    hide RunFrom, Ready, Append, After, CalledInTurn, Add, Flatten, Remembered;
    AddedToList(w.s, Flatten(args));
  }

  // ---------- Locked lists ----------

  /** A locked list in its last round, or at rest for good. */
  ghost predicate LastRound<F, V>(s: State<F, V>, running: Option<F>, fs: seq<F>, v: V, index: nat) {
    && s.locked && s.queue == []
    && if running.None? then !s.firing
       else s.firing && s.list == Some(fs) && s.memory == Some(v) && s.index == index < |fs|
  }

  lemma LockedStep<F, V>(w: World<F, V>, fs: seq<F>, v: V, index: nat, e: Event<F, V>)
    requires LastRound(w.s, w.running, fs, v, index) && !e.Adds?
    ensures var r, next := Step(w, e), index + 1;
            && r.s.opts == w.s.opts
            && if r.log == w.log then
                 && LastRound(r.s, r.running, fs, v, index)
                 && (r.running.None? && w.running.Some? && !r.s.opts.stopOnFalse ==> next == |fs|)
               else
                 next < |fs| && r.log == w.log + [(fs[next], v)] && LastRound(r.s, r.running, fs, v, next)
  {
    if w.running.Some? && e.Returns? {
      Resumed(w.s, e.no);
      hide Resume;
    }
  }

  /** Since a call of callback `index` was logged last, the callbacks after it were called, each
    * once, in order, with its value, and unless one stopped the list, all if nothing runs. */
  ghost predicate LockedRound<F, V>(log: seq<(F, V)>, index: nat, fs: seq<F>, v: V, r: World<F, V>) {
    var n := |r.log| - |log|;
    && 0 <= n < |fs| - index
    && r.log == log + Calls(fs[index + 1..][..n], v)
    && LastRound(r.s, r.running, fs, v, index + n)
    && (r.running.None? && !r.s.opts.stopOnFalse ==> index + 1 + n == |fs|)
  }

  lemma LockedRoundStep<F, V>(log: seq<(F, V)>, index: nat, fs: seq<F>, v: V, r: World<F, V>, e: Event<F, V>)
    requires LockedRound(log, index, fs, v, r) && !e.Adds?
    ensures LockedRound(log, index, fs, v, Step(r, e))
  {
    var n := |r.log| - |log|;
    LockedStep(r, fs, v, index + n, e);
    if n + 1 < |fs| - index {
      CallsAppend(fs[index + 1..], v, n);
    }
    hide Step, Calls, LastRound;
  }

  /** Locking drops the values that wait and refuses all others, but lets the round under way
    * come to its end. */
  lemma {:induction false} LockEndsRounds<F, V>(w: World<F, V>, fs: seq<F>, v: V, events: seq<Event<F, V>>)
    requires w.running.Some? && w.s.firing && w.s.list == Some(fs) && 0 <= w.s.index < |fs|
    requires w.s.memory == Some(v) && NoneAdded(events)
    ensures LockedRound(w.log, w.s.index, fs, v, RunFrom(w.(s := Lock(w.s)), events))
    decreases |events|
  {
    if events == [] {
      assert fs[w.s.index + 1..][..0] == [];
    } else {
      var before := events[..|events| - 1];
      LockEndsRounds(w, fs, v, before);
      LockedRoundStep(w.log, w.s.index, fs, v, RunFrom(w.(s := Lock(w.s)), before), events[|events| - 1]);
      hide LockedRound, Step, Lock;
    }
  }

  /** A list at rest that remembers nothing is disabled by locking it. */
  lemma LockDisables<F, V>(s: State<F, V>)
    ensures s.memory.None? && !s.firing ==> Lock(s) == Disable(s)
    ensures s.memory.Some? && !s.firing ==> Lock(s).list == s.list && Lock(s).memory == s.memory && Lock(s).locked && Lock(s).queue == []
  {
  }
}
