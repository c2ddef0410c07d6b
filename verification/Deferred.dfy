/** jQuery's Deferred: six callback lists wired to each other by built-in callbacks, with
  * user code running inside any of them.
  */
module Deferred {
  import opened Wrappers
  import opened Callbacks
  import CR = CallbackRuns

  /** The context and arguments a list is fired with. */
  type Value = int

  datatype Outcome = Pending | Resolved | Rejected

  /** What stands in the lists: the built-in callbacks, and functions of the user. */
  datatype Act = SetState(o: Outcome) | DisableList(j: nat) | LockList(j: nat) | FireList(j: nat) | User(id: int)

  /** Lists 0 to 2 are those behind `notify`, `resolve` and `reject`; list `j + 3` holds the
    * handlers that `then` attached for list `j`. */
  function OptionsOf(j: nat): Options {
    Options(j % 3 != 0, true, false, false)
  }

  function OutcomeOf(k: nat): Outcome {
    if k == 1 then Resolved else Rejected
  }

  /** What the constructor puts first into list `j`. */
  function Builtins(j: nat): seq<Act> {
    if j == 0 then [FireList(3)]
    else if j == 1 || j == 2 then
      [SetState(OutcomeOf(j)), DisableList(3 - j), DisableList(6 - j), LockList(0), LockList(3), FireList(j + 3)]
    else []
  }

  /** A callback on the JavaScript stack: called by the loop of `list`, with `v`; a built-in
    * one is `begun` once its own operation has been carried out. */
  datatype Frame = Frame(list: nat, act: Act, v: Option<Value>, begun: bool)

  /** The deferred, the stack, and histories: the values `state` was set to, what was attached
    * to each list, the calls each list made, and the first `resolve` or `reject`. */
  datatype World = World(
    lists: seq<State<Act, Value>>,
    state: Outcome,
    stack: seq<Frame>,
    settles: seq<Outcome>,
    added: seq<seq<Act>>,
    logs: seq<seq<(Act, Value)>>,
    first: Option<(nat, Value)>)

  /** User code calls `notify`, `resolve` or `reject` (`Call`), attaches functions (`Attach`),
    * or returns from the running callback; `Tick` lets the running built-in callback go on. */
  datatype Event = Call(j: nat, v: Value) | Attach(j: nat, ids: seq<int>) | Returns(no: bool) | Tick

  function Users(ids: seq<int>): (acts: seq<Act>)
    ensures |acts| == |ids| && forall i | 0 <= i < |ids| :: acts[i] == User(ids[i])
  {
    seq(|ids|, i requires 0 <= i < |ids| => User(ids[i]))
  }

  function Start(): World {
    World(seq(6, j requires 0 <= j < 6 => Add(Fresh(OptionsOf(j)), Builtins(j)).s), Pending, [], [],
          seq(6, j requires 0 <= j < 6 => Builtins(j)), [[], [], [], [], [], []], None)
  }

  predicate Shaped(w: World) {
    |w.lists| == |w.added| == |w.logs| == 6 && forall f | f in w.stack :: f.list < 6
  }

  /** User code runs at the top level or in a user callback. */
  predicate UserTurn(w: World) {
    w.stack == [] || w.stack[0].act.User?
  }

  predicate Enabled(w: World, e: Event) {
    match e
    case Call(j, _) => UserTurn(w) && j < 3
    case Attach(j, _) => UserTurn(w) && j < 6
    case Returns(_) => w.stack != [] && w.stack[0].act.User?
    case Tick => w.stack != [] && !w.stack[0].act.User?
  }

  /** List `j` has carried out an operation; if that ended in a call, the callback is on top. */
  function Enter(w: World, j: nat, t: Turn<Act, Value>): (u: World)
    requires Shaped(w) && j < 6
    ensures Shaped(u) && u.added == w.added
  {
    var w1 := w.(lists := w.lists[j := t.s]);
    match t.call
    case None => w1
    case Some(act) =>
      w1.(stack := [Frame(j, act, t.s.memory, false)] + w.stack,
          logs := if t.s.memory.Some? then w.logs[j := w.logs[j] + [(act, t.s.memory.value)]] else w.logs)
  }

  /** The callback on top has returned to the loop of its list. */
  function Pop(w: World, no: bool): (u: World)
    requires Shaped(w) && w.stack != []
    ensures Shaped(u) && u.added == w.added
  {
    var j := w.stack[0].list;
    Enter(w.(stack := w.stack[1..]), j, Resume(w.lists[j], no))
  }

  /** The built-in callback on top does what it is there for. */
  function Begin(w: World): (u: World)
    requires Shaped(w) && w.stack != []
    ensures Shaped(u) && u.added == w.added
  {
    var f := w.stack[0];
    var w1 := w.(stack := [f.(begun := true)] + w.stack[1..]);
    match f.act
    case SetState(o) => w1.(state := o, settles := w.settles + [o])
    case DisableList(j) => if j < 6 then w1.(lists := w.lists[j := Disable(w.lists[j])]) else w1
    case LockList(j) => if j < 6 then w1.(lists := w.lists[j := Lock(w.lists[j])]) else w1
    case FireList(j) => if j < 6 && f.v.Some? then Enter(w1, j, FireWith(w.lists[j], f.v.value)) else w1
    case User(_) => w1
  }

  function Step(w: World, e: Event): (u: World)
    requires Shaped(w)
    ensures Shaped(u)
  {
    if !Enabled(w, e) then w else
    match e
    case Call(j, v) =>
      Enter(w.(first := if w.first.None? && j > 0 then Some((j, v)) else w.first), j, FireWith(w.lists[j], v))
    case Attach(j, ids) =>
      Enter(w.(added := w.added[j := w.added[j] + Users(ids)]), j, Add(w.lists[j], Users(ids)))
    case Returns(no) => Pop(w, no)
    case Tick => if w.stack[0].begun then Pop(w, false) else Begin(w)
  }

  // ---------- The invariant ----------

  function Count(stack: seq<Frame>, j: nat): nat {
    if stack == [] then 0 else (if stack[0].list == j then 1 else 0) + Count(stack[1..], j)
  }

  predicate Allowed(j: nat, act: Act) {
    act.User? || (j < 3 && act == FireList(j + 3))
  }

  predicate AllAllowed(j: nat, acts: seq<Act>) {
    forall i | 0 <= i < |acts| :: Allowed(j, acts[i])
  }

  predicate FramesAllowed(j: nat, stack: seq<Frame>) {
    forall i | 0 <= i < |stack| && stack[i].list == j :: Allowed(j, stack[i].act)
  }

  predicate FramesFit(j: nat, v: Value, stack: seq<Frame>) {
    forall i | 0 <= i < |stack| && stack[i].list == j :: Allowed(j, stack[i].act) && stack[i].v == Some(v)
  }

  /** Lists 0 and 3 hold nothing that could settle the deferred. */
  ghost predicate Harmless(w: World)
    requires Shaped(w)
  {
    && AllAllowed(0, w.lists[0].Callbacks()) && AllAllowed(3, w.lists[3].Callbacks())
    && FramesAllowed(0, w.stack) && FramesAllowed(3, w.stack)
    && !w.lists[0].opts.unique && !w.lists[3].opts.unique
  }

  /** Whatever was attached to list `j` stands behind the built-in callbacks. */
  predicate OnlyUsersAdded(w: World, j: nat)
    requires Shaped(w) && j < 6
  {
    && Builtins(j) <= w.added[j]
    && forall i | |Builtins(j)| <= i < |w.added[j]| :: w.added[j][i].User?
  }

  predicate Attached(w: World)
    requires Shaped(w)
  {
    OnlyUsersAdded(w, 1) && OnlyUsersAdded(w, 2) && OnlyUsersAdded(w, 4) && OnlyUsersAdded(w, 5)
  }

  /** List `j` is waiting for its first fire, with nothing called yet. */
  ghost predicate Waits(w: World, j: nat)
    requires Shaped(w) && j < 6
  {
    CR.OnceWaiting(w.lists[j], w.added[j]) && w.logs[j] == [] && Count(w.stack, j) == 0
  }

  ghost predicate Dead(w: World, j: nat)
    requires Shaped(w) && j < 6
  {
    CR.OnceDisabled(w.lists[j]) && w.logs[j] == [] && Count(w.stack, j) == 0
  }

  /** List `j` was fired with `v` and has called the first callbacks attached to it, in order. */
  ghost predicate Fired(w: World, j: nat, v: Value)
    requires Shaped(w) && j < 6
  {
    var n := |w.logs[j]|;
    && n <= |w.added[j]|
    && CR.OnceFired(w.lists[j], w.added[j], v, n)
    && w.logs[j] == CR.Calls(w.added[j][..n], v)
    && Count(w.stack, j) == (if w.lists[j].firing then 1 else 0)
  }

  ghost predicate Open(w: World)
    requires Shaped(w)
  {
    && w.state == Pending && w.settles == [] && w.first.None?
    && Waits(w, 1) && Waits(w, 2) && Waits(w, 4) && Waits(w, 5)
  }

  /** The first `n` built-in callbacks of list `k` have been called and the last of them is on
    * top: nothing of the user runs until all five that settle the deferred are through. */
  ghost predicate Settling(w: World, k: nat, v: Value, n: nat, begun: bool)
    requires Shaped(w)
  {
    && 1 <= k <= 2 && 1 <= n <= 5 && w.first == Some((k, v))
    && w.stack != [] && w.stack[0] == Frame(k, Builtins(k)[n - 1], Some(v), begun)
    && Fired(w, k, v) && |w.logs[k]| == n && w.lists[k].firing
    && Waits(w, k + 3)
    && (if n > 2 || (n == 2 && begun) then Dead(w, 3 - k) else Waits(w, 3 - k))
    && (if n > 3 || (n == 3 && begun) then Dead(w, 6 - k) else Waits(w, 6 - k))
    && (n > 4 || (n == 4 && begun) ==> w.lists[0].locked)
    && (n == 5 && begun ==> w.lists[3].locked)
    && (if n == 1 && !begun then w.state == Pending && w.settles == []
        else w.state == OutcomeOf(k) && w.settles == [OutcomeOf(k)])
  }

  /** List `k` has won: the other side is dead for good. */
  ghost predicate Settled(w: World, k: nat, v: Value)
    requires Shaped(w)
  {
    && 1 <= k <= 2 && w.first == Some((k, v))
    && w.state == OutcomeOf(k) && w.settles == [OutcomeOf(k)]
    && Dead(w, 3 - k) && Dead(w, 6 - k)
    && w.lists[0].locked && w.lists[3].locked
    && Fired(w, k, v) && |w.logs[k]| >= 6
    && FramesFit(k, v, w.stack) && FramesFit(k + 3, v, w.stack)
    && (|| Fired(w, k + 3, v)
        || (Waits(w, k + 3) && w.stack != [] && w.stack[0] == Frame(k, FireList(k + 3), Some(v), false)))
  }

  ghost predicate Inv(w: World) {
    && Shaped(w) && Harmless(w) && Attached(w)
    && (|| Open(w)
        || (exists k: nat, v, n: nat, begun :: Settling(w, k, v, n, begun))
        || (exists k: nat, v :: Settled(w, k, v)))
  }

  // ---------- Frames ----------

  lemma BegunSame(stack: seq<Frame>, begun: bool)
    requires stack != []
    ensures var other := [stack[0].(begun := begun)] + stack[1..];
            && other[1..] == stack[1..]
            && (forall j :: Count(other, j) == Count(stack, j))
            && (forall j | FramesAllowed(j, stack) :: FramesAllowed(j, other))
            && (forall j, v | FramesFit(j, v, stack) :: FramesFit(j, v, other))
  {
    var other := [stack[0].(begun := begun)] + stack[1..];
    assert other[1..] == stack[1..];
    assert forall i | 0 < i < |other| :: other[i] == stack[i];
  }

  lemma PoppedAllowed(stack: seq<Frame>)
    requires stack != []
    ensures forall j | FramesAllowed(j, stack) :: FramesAllowed(j, stack[1..])
    ensures forall j, v | FramesFit(j, v, stack) :: FramesFit(j, v, stack[1..])
    ensures forall j :: Count(stack, j) == (if stack[0].list == j then 1 else 0) + Count(stack[1..], j)
  {
    assert forall i | 0 <= i < |stack[1..]| :: stack[1..][i] == stack[i + 1];
  }

  lemma PushedAllowed(f: Frame, stack: seq<Frame>)
    ensures forall j | FramesAllowed(j, stack) && (f.list == j ==> Allowed(j, f.act)) :: FramesAllowed(j, [f] + stack)
    ensures forall j, v | FramesFit(j, v, stack) && (f.list == j ==> Allowed(j, f.act) && f.v == Some(v)) :: FramesFit(j, v, [f] + stack)
  {
    assert forall i | 0 < i < |[f] + stack| :: ([f] + stack)[i] == stack[i - 1];
  }

  lemma PopHarmless(w: World)
    requires Shaped(w) && Harmless(w) && w.stack != []
    ensures Harmless(w.(stack := w.stack[1..]))
  {
    PoppedAllowed(w.stack);
  }

  lemma BegunHarmless(w: World)
    requires Shaped(w) && Harmless(w) && w.stack != []
    ensures Harmless(w.(stack := [w.stack[0].(begun := true)] + w.stack[1..]))
  {
    BegunSame(w.stack, true);
  }

  // ---------- Lists 0 and 3 ----------

  lemma {:induction false} RoundMembers(s: State<Act, Value>, j: nat)
    requires AllAllowed(j, s.Callbacks())
    ensures AllAllowed(j, NextRound(s).s.Callbacks()) && (NextRound(s).call.Some? ==> Allowed(j, NextRound(s).call.value))
    ensures NextRound(s).s.opts == s.opts && NextRound(s).s.locked == s.locked
    decreases |s.queue|
  {
    if s.queue != [] {
      var s1 := s.(memory := Some(s.queue[0]), queue := s.queue[1..]);
      if !(0 <= s1.index + 1 < |s1.Callbacks()|) {
        assert NextCall(s1) == NextRound(s1.(index := -1));
        RoundMembers(s1.(index := -1), j);
      }
    }
  }

  lemma CallMembers(s: State<Act, Value>, j: nat)
    requires AllAllowed(j, s.Callbacks())
    ensures AllAllowed(j, NextCall(s).s.Callbacks()) && (NextCall(s).call.Some? ==> Allowed(j, NextCall(s).call.value))
    ensures NextCall(s).s.opts == s.opts && NextCall(s).s.locked == s.locked
  {
    if !(0 <= s.index + 1 < |s.Callbacks()|) {
      RoundMembers(s.(index := -1), j);
    }
  }

  lemma OperationMembers(s: State<Act, Value>, j: nat, t: Turn<Act, Value>)
    requires AllAllowed(j, s.Callbacks())
    requires || (exists v :: t == FireWith(s, v)) || (exists no :: t == Resume(s, no))
             || (exists ids :: !s.opts.unique && t == Add(s, Users(ids)))
    ensures AllAllowed(j, t.s.Callbacks()) && (t.call.Some? ==> Allowed(j, t.call.value))
    ensures t.s.opts == s.opts && (s.locked ==> t.s.locked)
  {
    hide NextCall, NextRound;
    if v :| t == FireWith(s, v) {
      var s1 := s.(queue := s.queue + [v]);
      RoundMembers(s1.(locked := s1.locked || s1.opts.once, fired := true, firing := true), j);
    } else if no :| t == Resume(s, no) {
      CallMembers(if no && s.opts.stopOnFalse then s.(index := |s.Callbacks()|, memory := None) else s, j);
    } else {
      var ids :| !s.opts.unique && t == Add(s, Users(ids));
      if s.list.Some? {
        CR.AppendAll(s.list.value, Users(ids));
        var refire := s.memory.Some? && !s.firing;
        var s1 := if refire then s.(index := |s.list.value| - 1, queue := s.queue + [s.memory.value]) else s;
        var s2 := s1.(list := Some(s.list.value + Users(ids)));
        RoundMembers(s2.(locked := s2.locked || s2.opts.once, fired := true, firing := true), j);
      }
    }
  }

  /** Nothing that concerns the two sides differs between `w` and `u`, and no lock is gone. */
  ghost predicate SameSides(w: World, u: World)
    requires Shaped(w) && Shaped(u)
  {
    && w.state == u.state && w.settles == u.settles && w.first == u.first
    && (w.lists[0].locked ==> u.lists[0].locked) && (w.lists[3].locked ==> u.lists[3].locked)
    && SameSide(w, u, 1) && SameSide(w, u, 2) && SameSide(w, u, 4) && SameSide(w, u, 5)
  }

  ghost predicate SameSide(w: World, u: World, j: nat)
    requires Shaped(w) && Shaped(u) && j < 6
  {
    && w.lists[j] == u.lists[j] && w.added[j] == u.added[j] && w.logs[j] == u.logs[j]
    && Count(w.stack, j) == Count(u.stack, j)
    && (forall i | 0 <= i < |u.stack| && u.stack[i].list == j ::
          exists i' | 0 <= i' < |w.stack| :: w.stack[i'].list == j && w.stack[i'].act == u.stack[i].act && w.stack[i'].v == u.stack[i].v)
  }

  lemma SameSideKeeps(w: World, u: World, j: nat)
    requires Shaped(w) && Shaped(u) && j < 6 && SameSide(w, u, j)
    ensures OnlyUsersAdded(w, j) ==> OnlyUsersAdded(u, j)
    ensures Waits(w, j) ==> Waits(u, j)
    ensures Dead(w, j) ==> Dead(u, j)
    ensures forall v | Fired(w, j, v) :: Fired(u, j, v)
    ensures forall v | FramesFit(j, v, w.stack) :: FramesFit(j, v, u.stack)
  {
    hide Allowed, CR.OnceFired, CR.OnceWaiting, CR.OnceDisabled, CR.Calls, Count;
  }

  lemma SameSidesKeep(w: World, u: World)
    requires Shaped(w) && Shaped(u) && SameSides(w, u)
    ensures Attached(w) ==> Attached(u)
    ensures Open(w) ==> Open(u)
    ensures forall k: nat, v | Settled(w, k, v) && Fired(w, k + 3, v) :: Settled(u, k, v)
  {
    SameSideKeeps(w, u, 1);
    SameSideKeeps(w, u, 2);
    SameSideKeeps(w, u, 4);
    SameSideKeeps(w, u, 5);
    forall k: nat, v | Settled(w, k, v) && Fired(w, k + 3, v) ensures Settled(u, k, v) {
      SettledKeeps(w, u, k, v);
    }
    hide SameSide, OnlyUsersAdded, Waits, Settled;
  }

  lemma SettledKeeps(w: World, u: World, k: nat, v: Value)
    requires Shaped(w) && Shaped(u) && SameSides(w, u) && Settled(w, k, v) && Fired(w, k + 3, v)
    ensures Settled(u, k, v)
  {
    SameSideKeeps(w, u, k);
    SameSideKeeps(w, u, 3 - k);
    SameSideKeeps(w, u, 6 - k);
    SameSideKeeps(w, u, k + 3);
    assert w.logs[k] == u.logs[k];
    hide SameSide, Waits, Dead, Fired, FramesFit;
  }

  lemma FramesAside(w: World, f: Frame, rest: seq<Frame>, u: World)
    requires Shaped(w) && Shaped(u) && (f.list == 0 || f.list == 3)
    requires u == w.(stack := u.stack)
    requires (w.stack == [f] + rest && u.stack == rest) || (w.stack == rest && u.stack == [f] + rest)
    ensures SameSides(w, u)
  {
    assert ([f] + rest)[1..] == rest;
    forall j | j == 1 || j == 2 || j == 4 || j == 5
      ensures SameSide(w, u, j)
    {
      forall i | 0 <= i < |u.stack| && u.stack[i].list == j
        ensures exists i' | 0 <= i' < |w.stack| :: w.stack[i'].list == j && w.stack[i'].act == u.stack[i].act && w.stack[i'].v == u.stack[i].v
      {
        if w.stack == rest {
          assert u.stack[i] == w.stack[i - 1];
        } else {
          assert u.stack[i] == w.stack[i + 1];
        }
      }
    }
  }

  lemma SameSidesTransitive(w: World, u: World, x: World)
    requires Shaped(w) && Shaped(u) && Shaped(x) && SameSides(w, u) && SameSides(u, x)
    ensures SameSides(w, x)
  {
  }

  /** An operation of list 0 or 3 leaves the two sides alone. */
  lemma EnterAside(w: World, j: nat, t: Turn<Act, Value>)
    requires Shaped(w) && Harmless(w) && (j == 0 || j == 3)
    requires AllAllowed(j, t.s.Callbacks()) && (t.call.Some? ==> Allowed(j, t.call.value)) && !t.s.opts.unique
    requires w.lists[j].locked ==> t.s.locked
    ensures Harmless(Enter(w, j, t)) && SameSides(w, Enter(w, j, t))
  {
    var u := Enter(w, j, t);
    var w1 := w.(lists := u.lists, logs := u.logs);
    assert SameSides(w, w1);
    if t.call.Some? {
      FramesAside(w1, Frame(j, t.call.value, t.s.memory, false), w.stack, u);
      SameSidesTransitive(w, w1, u);
    }
  }

  /** Anything carried out while the running callback belongs to list 0 or 3, or while user code
    * runs, keeps the sides as they are if it is an operation of list 0 or 3. */
  lemma OperateAside(w: World, j: nat, t: Turn<Act, Value>)
    requires Shaped(w) && Harmless(w) && (j == 0 || j == 3)
    requires || (exists v :: t == FireWith(w.lists[j], v)) || (exists no :: t == Resume(w.lists[j], no))
             || (exists ids :: t == Add(w.lists[j], Users(ids)))
    ensures Harmless(Enter(w, j, t)) && SameSides(w, Enter(w, j, t))
  {
    OperationMembers(w.lists[j], j, t);
    EnterAside(w, j, t);
  }

  lemma PopAside(w: World, no: bool)
    requires Shaped(w) && Harmless(w) && w.stack != [] && (w.stack[0].list == 0 || w.stack[0].list == 3)
    ensures Harmless(Pop(w, no)) && SameSides(w, Pop(w, no))
  {
    var u := w.(stack := w.stack[1..]);
    FramesAside(w, w.stack[0], w.stack[1..], u);
    OperateAside(u, w.stack[0].list, Resume(w.lists[w.stack[0].list], no));
    SameSidesTransitive(w, u, Pop(w, no));
  }

  lemma BegunAside(w: World)
    requires Shaped(w) && Harmless(w) && w.stack != [] && (w.stack[0].list == 0 || w.stack[0].list == 3)
    ensures var u := w.(stack := [w.stack[0].(begun := true)] + w.stack[1..]); Harmless(u) && SameSides(w, u)
  {
    hide Harmless, SameSides;
    var f := w.stack[0].(begun := true);
    var u := w.(stack := w.stack[1..]);
    var u1 := w.(stack := [f] + w.stack[1..]);
    FramesAside(w, w.stack[0], w.stack[1..], u);
    FramesAside(u, f, w.stack[1..], u1);
    SameSidesTransitive(w, u, u1);
    BegunHarmless(w);
  }

  lemma BeginAside(w: World)
    requires Shaped(w) && Harmless(w) && w.stack != [] && (w.stack[0].list == 0 || w.stack[0].list == 3) && !w.stack[0].act.User?
    ensures Harmless(Begin(w)) && SameSides(w, Begin(w))
  {
    var f := w.stack[0];
    var u := w.(stack := [f.(begun := true)] + w.stack[1..]);
    BegunAside(w);
    assert f.act == FireList(3) by {
      assert Allowed(f.list, f.act);
    }
    hide Harmless, SameSides, Enter, FireWith;
    if f.v.Some? {
      OperateAside(u, 3, FireWith(w.lists[3], f.v.value));
      SameSidesTransitive(w, u, Begin(w));
    }
  }

  // ---------- The two sides ----------

  /** Operations of a side's list do not disturb lists 0 and 3. */
  lemma EnterSideHarmless(w: World, j: nat, t: Turn<Act, Value>)
    requires Shaped(w) && Harmless(w) && (j == 1 || j == 2 || j == 4 || j == 5)
    ensures Harmless(Enter(w, j, t))
  {
  }

  /** An operation takes a list fired with `v` to its next callback, or to its end. */
  ghost predicate Advances(w: World, j: nat, t: Turn<Act, Value>, v: Value)
    requires Shaped(w) && j < 6
  {
    var n := |w.logs[j]|;
    && n <= |w.added[j]| && w.logs[j] == CR.Calls(w.added[j][..n], v)
    && match t.call
       case None => CR.OnceFired(t.s, w.added[j], v, n) && Count(w.stack, j) == (if t.s.firing then 1 else 0)
       case Some(act) => n < |w.added[j]| && act == w.added[j][n] && CR.OnceFired(t.s, w.added[j], v, n + 1)
                         && t.s.firing && Count(w.stack, j) == 0
  }

  /** An operation of a waiting or fired list, seen from outside. */
  lemma EnterFired(w: World, j: nat, t: Turn<Act, Value>, v: Value)
    requires Shaped(w) && j < 6
    requires Advances(w, j, t, v)
    ensures Fired(Enter(w, j, t), j, v) && Enter(w, j, t).lists[j] == t.s
    ensures t.call.Some? ==> Enter(w, j, t).stack == [Frame(j, t.call.value, Some(v), false)] + w.stack
                             && |Enter(w, j, t).logs[j]| == |w.logs[j]| + 1
    ensures t.call.None? ==> Enter(w, j, t).stack == w.stack && Enter(w, j, t).logs[j] == w.logs[j]
  {
    var u := Enter(w, j, t);
    if t.call.Some? {
      CR.CallsAppend(w.added[j], v, |w.logs[j]|);
      assert u.stack[1..] == w.stack;
    }
  }

  /** Everything but list `j` is as before, apart from a frame of list `j`. */
  lemma EnterOthers(w: World, j: nat, t: Turn<Act, Value>, i: nat)
    requires Shaped(w) && j < 6 && i < 6 && i != j
    ensures var u := Enter(w, j, t);
            && u.lists[i] == w.lists[i] && u.logs[i] == w.logs[i] && u.added == w.added
            && Count(u.stack, i) == Count(w.stack, i)
            && u.state == w.state && u.settles == w.settles && u.first == w.first
  {
    var u := Enter(w, j, t);
    if t.call.Some? {
      assert u.stack[1..] == w.stack;
    }
  }

  lemma {:induction false} CountTop(stack: seq<Frame>, i: nat)
    requires i < |stack|
    ensures Count(stack, stack[i].list) > 0
  {
    if i > 0 {
      CountTop(stack[1..], i - 1);
    }
  }

  lemma NoFrames(stack: seq<Frame>, j: nat)
    requires Count(stack, j) == 0
    ensures FramesAllowed(j, stack) && forall v :: FramesFit(j, v, stack)
  {
    forall i | 0 <= i < |stack| && stack[i].list == j
      ensures false
    {
      CountTop(stack, i);
    }
  }

  lemma AttachAdded(w: World, j: nat, ids: seq<int>)
    requires Shaped(w) && j < 6 && Attached(w)
    ensures var u := w.(added := w.added[j := w.added[j] + Users(ids)]); Shaped(u) && Attached(u)
  {
    var more := w.added[j] + Users(ids);
    assert forall i | 0 <= i < |w.added[j]| :: more[i] == w.added[j][i];
  }

  lemma BuiltinAt(w: World, k: nat, i: nat)
    requires Shaped(w) && Attached(w) && 1 <= k <= 2 && i < 6
    ensures |w.added[k]| >= 6 && w.added[k][i] == Builtins(k)[i]
  {
  }

  lemma AttachedSame(w: World, u: World)
    requires Shaped(w) && Shaped(u) && Attached(w) && u.added == w.added
    ensures Attached(u)
  {
  }

  /** Attaching is recorded; nothing else has happened yet. */
  function Record(w: World, j: nat, ids: seq<int>): World
    requires Shaped(w) && j < 6
  {
    w.(added := w.added[j := w.added[j] + Users(ids)])
  }

  // ---------- Every step keeps the invariant ----------

  lemma OpenStep(w: World, e: Event)
    requires Shaped(w) && Harmless(w) && Attached(w) && Open(w) && Enabled(w, e)
    ensures Inv(Step(w, e))
  {
    hide Resume, FireWith, Add, CR.Calls;
    var u := Step(w, e);
    match e
    case Call(j, v) =>
      if j == 0 {
        OperateAside(w, 0, FireWith(w.lists[0], v));
        SameSidesKeep(w, u);
      } else {
        OpenFire(w, j, v);
      }
    case Attach(j, ids) =>
      AttachAdded(w, j, ids);
      var w1 := Record(w, j, ids);
      if j == 0 || j == 3 {
        AttachAside(w, j, ids);
        SameSidesKeep(w, u);
      } else {
        CR.AddWaiting(w.lists[j], w.added[j], Users(ids));
        EnterSideHarmless(w1, j, Add(w.lists[j], Users(ids)));
        assert Open(u);
      }
    case Returns(no) =>
      CountTop(w.stack, 0);
      PopAside(w, no);
      SameSidesKeep(w, u);
    case Tick =>
      CountTop(w.stack, 0);
      if w.stack[0].begun {
        PopAside(w, false);
      } else {
        BeginAside(w);
      }
      SameSidesKeep(w, u);
  }

  lemma OpenFire(w: World, k: nat, v: Value)
    requires Shaped(w) && Harmless(w) && Attached(w) && Open(w) && 1 <= k <= 2
    ensures var u := Enter(w.(first := Some((k, v))), k, FireWith(w.lists[k], v)); Inv(u) && Settling(u, k, v, 1, false)
  {
    hide FireWith, CR.Calls, Enter, Harmless, Count, Attached, OnlyUsersAdded, CR.OnceFired, CR.OnceDisabled;
    BuiltinAt(w, k, 0);
    var w1 := w.(first := Some((k, v)));
    SameHarmless(w, w1);
    var t := FireWith(w.lists[k], v);
    CR.FireWaiting(w.lists[k], w.added[k], v);
    assert w.added[k][..0] == [] && CR.Calls(w.added[k][..0], v) == [];
    EnterSideHarmless(w1, k, t);
    EnterFired(w1, k, t, v);
    EnterOthers(w1, k, t, 3 - k);
    EnterOthers(w1, k, t, 6 - k);
    EnterOthers(w1, k, t, k + 3);
    AttachedSame(w, Enter(w1, k, t));
    assert Settling(Enter(w1, k, t), k, v, 1, false);
  }

  lemma SameHarmless(w: World, u: World)
    requires Shaped(w) && Shaped(u) && Harmless(w) && u == w.(first := u.first, added := u.added, state := u.state, settles := u.settles)
    ensures Harmless(u)
  {
  }

  lemma SettlingStep(w: World, k: nat, v: Value, n: nat, begun: bool, e: Event)
    requires Shaped(w) && Harmless(w) && Attached(w) && Settling(w, k, v, n, begun) && Enabled(w, e)
    ensures Inv(Step(w, e))
  {
    assert e == Tick;
    if begun {
      SettlingPop(w, k, v, n);
    } else {
      SettlingBegin(w, k, v, n);
    }
  }

  lemma SettlingBegin(w: World, k: nat, v: Value, n: nat)
    requires Shaped(w) && Harmless(w) && Attached(w) && Settling(w, k, v, n, false)
    ensures Inv(Begin(w)) && Settling(Begin(w), k, v, n, true)
  {
    hide Harmless, Attached, Settling, Begin;
    BeginKeeps(w, k, v, n);
    assert Settling(w, k, v, n, false) && 1 <= n <= 5 by {
      SettlingRange(w, k, v, n, false);
    }
    if n == 1 {
      BeginSetState(w, k, v);
    } else if n <= 3 {
      BeginDisable(w, k, v, n);
    } else {
      BeginLock(w, k, v, n);
    }
  }

  lemma SettlingRange(w: World, k: nat, v: Value, n: nat, begun: bool)
    requires Shaped(w) && Settling(w, k, v, n, begun)
    ensures 1 <= k <= 2 && 1 <= n <= 5
  {
  }

  lemma BeginKeeps(w: World, k: nat, v: Value, n: nat)
    requires Shaped(w) && Harmless(w) && Attached(w) && Settling(w, k, v, n, false)
    ensures Harmless(Begin(w)) && Attached(Begin(w))
  {
    hide CR.Calls, Count, FramesAllowed, AllAllowed, CR.OnceFired, CR.OnceWaiting, CR.OnceDisabled, Allowed, Lock, Disable, Attached;
    BegunSame(w.stack, true);
    LockMembers(w.lists[0], 0);
    LockMembers(w.lists[3], 3);
    AttachedSame(w, Begin(w));
    assert w.stack[0].act == Builtins(k)[n - 1];
  }

  lemma BeginSetState(w: World, k: nat, v: Value)
    requires Shaped(w) && Settling(w, k, v, 1, false)
    ensures Settling(Begin(w), k, v, 1, true)
  {
    hide CR.Calls, Count, CR.OnceFired, CR.OnceWaiting, CR.OnceDisabled;
    BegunSame(w.stack, true);
  }

  lemma BeginDisable(w: World, k: nat, v: Value, n: nat)
    requires Shaped(w) && 2 <= n <= 3 && Settling(w, k, v, n, false)
    ensures Settling(Begin(w), k, v, n, true)
  {
    hide CR.Calls, Count, CR.OnceFired;
    BegunSame(w.stack, true);
    assert w.stack[0].act == DisableList(if n == 2 then 3 - k else 6 - k);
  }

  lemma BeginLock(w: World, k: nat, v: Value, n: nat)
    requires Shaped(w) && 4 <= n <= 5 && Settling(w, k, v, n, false)
    ensures Settling(Begin(w), k, v, n, true)
  {
    hide CR.Calls, Count, CR.OnceFired, CR.OnceWaiting, CR.OnceDisabled, Lock;
    BegunSame(w.stack, true);
    assert w.stack[0].act == LockList(if n == 4 then 0 else 3);
    LockLocks(w.lists[if n == 4 then 0 else 3]);
  }

  lemma LockLocks(s: State<Act, Value>)
    ensures Lock(s).locked
  {
  }

  lemma LockMembers(s: State<Act, Value>, j: nat)
    requires AllAllowed(j, s.Callbacks())
    ensures AllAllowed(j, Lock(s).Callbacks()) && Lock(s).opts == s.opts
  {
  }

  lemma SettlingPop(w: World, k: nat, v: Value, n: nat)
    requires Shaped(w) && Harmless(w) && Attached(w) && Settling(w, k, v, n, true)
    ensures Inv(Pop(w, false))
    ensures if n < 5 then Settling(Pop(w, false), k, v, n + 1, false) else Settled(Pop(w, false), k, v)
  {
    hide Pop, Harmless, FramesFit, Count, CR.OnceWaiting, CR.OnceDisabled, Attached, Fired;
    var u := Pop(w, false);
    SettlingResume(w, k, v, n);
    PoppedAllowed(w.stack);
    if n == 5 {
      NoFrames(w.stack[1..], k);
      NoFrames(w.stack[1..], k + 3);
      PushedAllowed(u.stack[0], w.stack[1..]);
      assert Settled(u, k, v);
    } else {
      assert Settling(u, k, v, n + 1, false);
    }
  }

  /** The next built-in callback is called, and nothing else changes. */
  lemma SettlingResume(w: World, k: nat, v: Value, n: nat)
    requires Shaped(w) && Harmless(w) && Attached(w) && Settling(w, k, v, n, true)
    ensures var u := Pop(w, false);
            && Harmless(u) && Attached(u) && Fired(u, k, v) && |u.logs[k]| == n + 1 && u.lists[k].firing
            && u.stack == [Frame(k, Builtins(k)[n], Some(v), false)] + w.stack[1..]
            && u.state == w.state && u.settles == w.settles && u.first == w.first && Count(w.stack[1..], k) == 0
            && (forall i: nat | i < 6 && i != k :: u.lists[i] == w.lists[i] && u.logs[i] == w.logs[i] && u.added[i] == w.added[i]
                                                 && Count(u.stack, i) == Count(w.stack, i))
  {
    hide Resume, CR.Calls, Enter, Harmless, FramesFit, Count, CR.OnceWaiting, CR.OnceDisabled, CR.OnceFired, Attached, OnlyUsersAdded;
    BuiltinAt(w, k, n);
    var w1 := w.(stack := w.stack[1..]);
    var t := Resume(w.lists[k], false);
    PopHarmless(w);
    PoppedAllowed(w.stack);
    CR.ResumeFired(w.lists[k], w.added[k], v, n, false);
    EnterSideHarmless(w1, k, t);
    EnterFired(w1, k, t, v);
    forall i: nat | i < 6 && i != k
      ensures var u := Enter(w1, k, t); u.lists[i] == w.lists[i] && u.logs[i] == w.logs[i] && Count(u.stack, i) == Count(w.stack, i)
    {
      EnterOthers(w1, k, t, i);
    }
    EnterOthers(w1, k, t, k + 3);
    AttachedSame(w, Pop(w, false));
  }

  lemma SettledStep(w: World, k: nat, v: Value, e: Event)
    requires Shaped(w) && Harmless(w) && Attached(w) && Settled(w, k, v) && Enabled(w, e)
    ensures Inv(Step(w, e))
  {
    hide Resume, FireWith, Add, CR.Calls, Disable, Lock;
    var u := Step(w, e);
    match e
    case Call(j, x) =>
      if j == 0 {
        OperateAside(w, 0, FireWith(w.lists[0], x));
        SameSidesKeep(w, u);
      } else {
        LockedFire(w.lists[j], x);
        assert u == w;
      }
    case Attach(j, ids) =>
      SettledAttach(w, k, v, j, ids);
    case Returns(no) =>
      SettledPop(w, k, v, no);
    case Tick =>
      if w.stack[0].begun {
        SettledPop(w, k, v, false);
      } else {
        SettledBegin(w, k, v);
      }
  }

  lemma LockedFire(s: State<Act, Value>, x: Value)
    requires s.locked
    ensures FireWith(s, x) == Turn(s, None)
  {
  }

  lemma DeadAdd(s: State<Act, Value>, acts: seq<Act>)
    requires s.list.None?
    ensures Add(s, acts) == Turn(s, None)
  {
  }

  lemma SettledAttach(w: World, k: nat, v: Value, j: nat, ids: seq<int>)
    requires Shaped(w) && Harmless(w) && Attached(w) && Settled(w, k, v) && UserTurn(w) && j < 6
    ensures Inv(Enter(Record(w, j, ids), j, Add(w.lists[j], Users(ids))))
  {
    hide Add, CR.Calls, Enter, Harmless, FramesAllowed, FramesFit, AllAllowed, Count, CR.OnceWaiting, CR.OnceDisabled, Attached;
    AttachAdded(w, j, ids);
    var w1 := Record(w, j, ids);
    var t := Add(w.lists[j], Users(ids));
    var u := Enter(w1, j, t);
    SameHarmless(w, w1);
    if j == 0 || j == 3 {
      AttachAside(w, j, ids);
      SameSidesKeep(w, u);
    } else if j == 3 - k || j == 6 - k {
      DeadAttach(w, k, v, j, ids);
    } else {
      var n := |w.logs[j]|;
      CR.AddFired(w.lists[j], w.added[j], v, n, Users(ids));
      CR.CallsPrefix(w.added[j], Users(ids), v, n);
      SettledEnter(w1, k, v, j, t);
    }
  }

  lemma DeadAttach(w: World, k: nat, v: Value, j: nat, ids: seq<int>)
    requires Shaped(w) && Harmless(w) && Attached(w) && Settled(w, k, v) && UserTurn(w) && (j == 3 - k || j == 6 - k)
    ensures Inv(Enter(Record(w, j, ids), j, Add(w.lists[j], Users(ids))))
  {
    hide Add, CR.Calls, FramesAllowed, FramesFit, AllAllowed, Count, CR.OnceWaiting, CR.OnceFired;
    AttachAdded(w, j, ids);
    DeadAdd(w.lists[j], Users(ids));
    var u := Enter(Record(w, j, ids), j, Add(w.lists[j], Users(ids)));
    assert u == Record(w, j, ids);
    assert Settled(u, k, v);
  }

  lemma AttachAside(w: World, j: nat, ids: seq<int>)
    requires Shaped(w) && Harmless(w) && Attached(w) && (j == 0 || j == 3)
    ensures var u := Enter(Record(w, j, ids), j, Add(w.lists[j], Users(ids))); Harmless(u) && SameSides(w, u)
  {
    hide Add, Count, FramesAllowed, FramesFit, AllAllowed;
    var w1 := Record(w, j, ids);
    AttachAdded(w, j, ids);
    SameHarmless(w, w1);
    assert SameSides(w, w1);
    hide Harmless, SameSides, Enter;
    OperateAside(w1, j, Add(w.lists[j], Users(ids)));
    SameSidesTransitive(w, w1, Enter(w1, j, Add(w.lists[j], Users(ids))));
  }

  /** An operation of a list of the winning side that has been fired. */
  lemma SettledEnter(w: World, k: nat, v: Value, j: nat, t: Turn<Act, Value>)
    requires Shaped(w) && Harmless(w) && Attached(w) && 1 <= k <= 2 && (j == k || j == k + 3)
    requires w.first == Some((k, v)) && w.state == OutcomeOf(k) && w.settles == [OutcomeOf(k)]
    requires Dead(w, 3 - k) && Dead(w, 6 - k) && |w.logs[k]| >= 6 && w.lists[0].locked && w.lists[3].locked
    requires Fired(w, if j == k then k + 3 else k, v)
    requires FramesFit(k, v, w.stack) && FramesFit(k + 3, v, w.stack)
    requires Advances(w, j, t, v)
    ensures Inv(Enter(w, j, t)) && Settled(Enter(w, j, t), k, v)
  {
    hide CR.Calls, Enter, Harmless, FramesAllowed, FramesFit, AllAllowed, Count, CR.OnceWaiting, CR.OnceDisabled, CR.OnceFired;
    var u := Enter(w, j, t);
    EnterSideHarmless(w, j, t);
    EnterFired(w, j, t, v);
    EnterOthers(w, j, t, 3 - k);
    EnterOthers(w, j, t, 6 - k);
    EnterOthers(w, j, t, if j == k then k + 3 else k);
    EnterOthers(w, j, t, 0);
    EnterOthers(w, j, t, 3);
    AttachedSame(w, u);
    if t.call.Some? {
      assert w.added[j][|w.logs[j]|].User?;
      PushedAllowed(Frame(j, t.call.value, Some(v), false), w.stack);
      assert FramesFit(k, v, u.stack) && FramesFit(k + 3, v, u.stack);
    }
    assert Settled(u, k, v);
  }

  lemma SettledPop(w: World, k: nat, v: Value, no: bool)
    requires Shaped(w) && Harmless(w) && Attached(w) && Settled(w, k, v) && w.stack != [] && (w.stack[0].act.User? || w.stack[0].begun)
    ensures Inv(Pop(w, no))
  {
    hide Resume, CR.Calls, Enter, Harmless, FramesAllowed, FramesFit, AllAllowed, Count, CR.OnceWaiting, CR.OnceDisabled;
    var j := w.stack[0].list;
    CountTop(w.stack, 0);
    if j == 0 || j == 3 {
      PopAside(w, no);
      SameSidesKeep(w, Pop(w, no));
    } else {
      var w1 := w.(stack := w.stack[1..]);
      PopHarmless(w);
      PoppedAllowed(w.stack);
      AttachedSame(w, w1);
      CR.ResumeFired(w.lists[j], w.added[j], v, |w.logs[j]|, no);
      SettledEnter(w1, k, v, j, Resume(w.lists[j], no));
    }
  }

  lemma SettledBegin(w: World, k: nat, v: Value)
    requires Shaped(w) && Harmless(w) && Attached(w) && Settled(w, k, v) && w.stack != [] && !w.stack[0].act.User?
    ensures Inv(Begin(w))
  {
    var f := w.stack[0];
    if f.list == 0 || f.list == 3 {
      hide Harmless, Attached, Begin, SameSides;
      CountTop(w.stack, 0);
      BeginAside(w);
      SameSidesKeep(w, Begin(w));
      assert Fired(w, k + 3, v);
      hide Settled;
      assert Settled(Begin(w), k, v);
    } else {
      SettledTop(w, k, v);
      SettledFire(w, k, v);
      hide Inv, Settled, Harmless, Attached, FireWith, Enter;
    }
  }

  /** The only built-in callback of a side left to begin is the one that fires the other list. */
  lemma SettledTop(w: World, k: nat, v: Value)
    requires Shaped(w) && Settled(w, k, v) && w.stack != [] && !w.stack[0].act.User?
    requires w.stack[0].list != 0 && w.stack[0].list != 3
    ensures w.stack[0].list == k && w.stack[0].act == FireList(k + 3) && w.stack[0].v == Some(v)
  {
    hide CR.Calls, Count, CR.OnceDisabled, CR.OnceFired, CR.OnceWaiting;
    CountTop(w.stack, 0);
    assert Allowed(w.stack[0].list, w.stack[0].act);
  }

  /** The winning side fires its other list. */
  lemma SettledFire(w: World, k: nat, v: Value)
    requires Shaped(w) && Harmless(w) && Attached(w) && Settled(w, k, v) && w.stack != []
    ensures Inv(Enter(w.(stack := [w.stack[0].(begun := true)] + w.stack[1..]), k + 3, FireWith(w.lists[k + 3], v)))
  {
    hide FireWith, CR.Calls, Enter, Harmless, AllAllowed, Count, CR.OnceDisabled, CR.OnceFired, FramesFit, Inv, Attached;
    var w1 := w.(stack := [w.stack[0].(begun := true)] + w.stack[1..]);
    BegunSame(w.stack, true);
    BegunHarmless(w);
    AttachedSame(w, w1);
    FireAdvances(w, k + 3, v);
    SettledEnter(w1, k, v, k + 3, FireWith(w.lists[k + 3], v));
  }

  lemma FireAdvances(w: World, j: nat, v: Value)
    requires Shaped(w) && j < 6 && (Fired(w, j, v) || Waits(w, j))
    ensures Advances(w, j, FireWith(w.lists[j], v), v)
  {
    if Fired(w, j, v) {
      FiredAdvances(w, j, v);
    } else {
      WaitingAdvances(w, j, v);
    }
    hide *;
  }

  lemma FiredAdvances(w: World, j: nat, v: Value)
    requires Shaped(w) && j < 6 && Fired(w, j, v)
    ensures Advances(w, j, FireWith(w.lists[j], v), v)
  {
    FiredLocked(w, j, v);
    LockedFire(w.lists[j], v);
    hide FireWith, CR.Calls, Count, CR.OnceFired;
  }

  lemma WaitingAdvances(w: World, j: nat, v: Value)
    requires Shaped(w) && j < 6 && Waits(w, j)
    ensures Advances(w, j, FireWith(w.lists[j], v), v)
  {
    CR.FireWaiting(w.lists[j], w.added[j], v);
    assert w.added[j][..0] == [];
    NoCalls(v);
    hide FireWith, CR.Calls, Count, CR.OnceFired, CR.OnceWaiting;
  }

  lemma FiredLocked(w: World, j: nat, v: Value)
    requires Shaped(w) && j < 6 && Fired(w, j, v)
    ensures w.lists[j].locked
  {
  }

  lemma NoCalls(v: Value)
    ensures CR.Calls<Act, Value>([], v) == []
  {
  }

  lemma InvStep(w: World, e: Event)
    requires Inv(w)
    ensures Inv(Step(w, e))
  {
    if Enabled(w, e) {
      if Open(w) {
        OpenStep(w, e);
      } else if k: nat, v, n: nat, begun :| Settling(w, k, v, n, begun) {
        SettlingStep(w, k, v, n, begun, e);
      } else {
        var k: nat, v :| Settled(w, k, v);
        SettledStep(w, k, v, e);
      }
    }
  }

  // ---------- Runs ----------

  lemma StartList(j: nat)
    requires j < 6
    ensures Add(Fresh<Act, Value>(OptionsOf(j)), Builtins(j)).s == State(OptionsOf(j), Some(Builtins(j)), [], None, false, false, false, -1)
  {
    CR.AppendAll([], Builtins(j));
    assert [] + Builtins(j) == Builtins(j);
  }

  lemma StartInv()
    ensures Inv(Start())
  {
    hide Add;
    var w := Start();
    StartList(0);
    StartList(1);
    StartList(2);
    StartList(3);
    StartList(4);
    StartList(5);
    hide Fresh, Start;
    assert Harmless(w);
    assert Attached(w);
    assert Waits(w, 1) && Waits(w, 2) && Waits(w, 4) && Waits(w, 5);
    assert Open(w);
  }

  function Run(events: seq<Event>): (w: World)
    ensures Shaped(w)
    decreases |events|
  {
    if events == [] then Start() else Step(Run(events[..|events| - 1]), events[|events| - 1])
  }

  lemma {:induction false} RunInv(events: seq<Event>)
    ensures Inv(Run(events))
    decreases |events|
  {
    if events == [] {
      StartInv();
    } else {
      RunInv(events[..|events| - 1]);
      InvStep(Run(events[..|events| - 1]), events[|events| - 1]);
    }
  }

  predicate SettledAs(w: World) {
    && w.first.Some? && w.settles == [w.state]
    && (w.state == Resolved <==> w.first.value.0 == 1) && (w.state == Rejected <==> w.first.value.0 == 2)
  }

  /** The state is set at most once, and then to what the first `resolve` or `reject` asked for,
    * and before any code of the user runs. */
  predicate AtMostOnce(w: World) {
    && |w.settles| <= 1
    && (w.settles == [] ==> w.state == Pending)
    && (w.settles != [] ==> SettledAs(w))
    && (w.first.Some? && UserTurn(w) ==> w.settles != [])
  }

  lemma SettlingOnce(w: World, k: nat, v: Value, n: nat, begun: bool)
    requires Shaped(w) && Settling(w, k, v, n, begun)
    ensures AtMostOnce(w)
  {
    hide Fired, Waits, Dead;
  }

  lemma SettledOnce(w: World, k: nat, v: Value)
    requires Shaped(w) && Settled(w, k, v)
    ensures AtMostOnce(w)
  {
    hide Fired, Waits, Dead, FramesFit;
  }

  /** Over every run. */
  lemma SettlesOnce(events: seq<Event>)
    ensures AtMostOnce(Run(events))
  {
    hide Settling, Settled, Waits, Harmless, Attached, Run;
    RunInv(events);
    var w := Run(events);
    if k: nat, v, n: nat, begun :| Settling(w, k, v, n, begun) {
      SettlingOnce(w, k, v, n, begun);
    } else if k: nat, v :| Settled(w, k, v) {
      SettledOnce(w, k, v);
    }
  }

  /** And from then on user code can notify as it likes: no callback is called for it. */
  lemma NotifyEnds(events: seq<Event>, v: Value)
    ensures var w := Run(events); w.settles != [] && UserTurn(w) ==> Step(w, Call(0, v)) == w
  {
    hide Waits, Harmless, Attached, Run, Fired, Dead, FramesFit, FireWith;
    RunInv(events);
    var w := Run(events);
    if w.settles != [] && UserTurn(w) {
      LockedFire(w.lists[0], v);
    }
  }

  /** The calls of list `j` are those of the first callbacks attached to it, in order, with the
    * value of the first `resolve` or `reject`, which was one for side `k`. */
  predicate CalledInOrder(w: World, k: nat, j: nat)
    requires Shaped(w) && j < 6
  {
    && w.first.Some? && w.first.value.0 == k
    && |w.logs[j]| <= |w.added[j]|
    && forall i | 0 <= i < |w.logs[j]| :: w.logs[j][i] == (w.added[j][i], w.first.value.1)
  }

  predicate SideReport(w: World, k: nat)
    requires Shaped(w) && 1 <= k <= 2
  {
    && (w.logs[k] != [] || w.logs[k + 3] != [] ==> w.logs[3 - k] == [] && w.logs[6 - k] == [])
    && (w.logs[k] != [] ==> CalledInOrder(w, k, k))
    && (w.logs[k + 3] != [] ==> w.state == OutcomeOf(k) && CalledInOrder(w, k, k + 3))
    && (w.state == OutcomeOf(k) && w.stack == [] ==> |w.logs[k]| == |w.added[k]| && |w.logs[k + 3]| == |w.added[k + 3]|)
  }

  lemma OpenReport(w: World, k: nat)
    requires Shaped(w) && Open(w) && 1 <= k <= 2
    ensures SideReport(w, k)
  {
    hide CR.OnceWaiting, Count;
  }

  lemma FiredCalls(w: World, j: nat, k: nat, v: Value)
    requires Shaped(w) && j < 6 && Fired(w, j, v) && w.first == Some((k, v))
    ensures CalledInOrder(w, k, j)
    ensures w.stack == [] ==> |w.logs[j]| == |w.added[j]|
  {
  }

  lemma SettlingReport(w: World, k: nat, v: Value, n: nat, begun: bool, side: nat)
    requires Shaped(w) && Settling(w, k, v, n, begun) && 1 <= side <= 2
    ensures SideReport(w, side)
  {
    hide CR.OnceFired, CR.OnceWaiting, CR.OnceDisabled, Count, CR.Calls, CalledInOrder;
    FiredCalls(w, k, k, v);
    hide Fired;
  }

  lemma SettledReport(w: World, k: nat, v: Value, side: nat)
    requires Shaped(w) && Settled(w, k, v) && 1 <= side <= 2
    ensures SideReport(w, side)
  {
    hide CR.OnceFired, CR.OnceWaiting, CR.OnceDisabled, Count, CR.Calls, CalledInOrder, FramesFit;
    FiredCalls(w, k, k, v);
    if Fired(w, k + 3, v) {
      FiredCalls(w, k + 3, k, v);
    }
    hide Fired;
  }

  /** Over every run: once a callback of one side has been called, none of the other side ever
    * is; callbacks are called in the order they were attached, each once, with the value of
    * the first `resolve` or `reject`; and when nothing is running, all of them have been. */
  lemma OneSideOnly(events: seq<Event>, side: nat)
    requires 1 <= side <= 2
    ensures SideReport(Run(events), side)
  {
    hide Settling, Settled, Open, Harmless, Attached, SideReport, Run;
    RunInv(events);
    var w := Run(events);
    if Open(w) {
      OpenReport(w, side);
    } else if k: nat, v, n: nat, begun :| Settling(w, k, v, n, begun) {
      SettlingReport(w, k, v, n, begun, side);
    } else {
      var k: nat, v :| Settled(w, k, v);
      SettledReport(w, k, v, side);
    }
  }
}
