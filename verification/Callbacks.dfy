/** jQuery's callback lists. A list calls unknown functions from inside its own loop, and
  * those may use the list again; so control is handed out at every call: an operation
  * runs until it calls a callback or is done, and `Resume` continues after the callback
  * has returned. Between the two anything may happen to the list.
  */
module Callbacks {
  import opened Wrappers

  datatype Options = Options(once: bool, memory: bool, unique: bool, stopOnFalse: bool)

  /** An argument of `add`: a function, an array of arguments, or anything else. */
  datatype Arg<F> = Fn(f: F) | Arr(items: seq<Arg<F>>) | Other

  /** The functions among the arguments, arrays opened up, in order. */
  function Flatten<F>(args: seq<Arg<F>>): seq<F>
    decreases args
  {
    if args == [] then []
    else (match args[0]
          case Fn(f) => [f]
          case Arr(items) => Flatten(items)
          case Other => []) + Flatten(args[1..])
  }

  /** The state of a list. An emptied list (`""` in the source) is `None`; so is memory that
    * is undefined, false or `""`. Each value to call back with is one `V`. */
  datatype State<F, V> = State(
    opts: Options,
    list: Option<seq<F>>,
    queue: seq<V>,
    memory: Option<V>,
    firing: bool,
    fired: bool,
    locked: bool,
    index: int)
  {
    function Callbacks(): seq<F> {
      if list.Some? then list.value else []
    }
  }

  function Fresh<F, V>(opts: Options): State<F, V> {
    State(opts, Some([]), [], None, false, false, false, -1)
  }

  /** Where an operation stops: in a call of `call`, or done. */
  datatype Turn<F, V> = Turn(s: State<F, V>, call: Option<F>)

  // ---------- The firing loop ----------

  /** The next round: take a value from the queue and start calling, or finish. */
  function NextRound<F, V>(s: State<F, V>): Turn<F, V>
    decreases |s.queue|, 0
  {
    if s.queue == [] then Turn(Finish(s), None)
    else NextCall(s.(memory := Some(s.queue[0]), queue := s.queue[1..]))
  }

  /** The next callback of the round, if any. */
  function NextCall<F, V>(s: State<F, V>): Turn<F, V>
    decreases |s.queue|, 1
  {
    var i := s.index + 1;
    if 0 <= i < |s.Callbacks()| then Turn(s.(index := i), Some(s.Callbacks()[i]))
    else NextRound(s.(index := -1))
  }

  lemma RoundBegins<F, V>(s: State<F, V>)
    ensures NextRound(s) == if s.queue == [] then Turn(Finish(s), None)
                            else NextCall(s.(memory := Some(s.queue[0]), queue := s.queue[1..]))
  {
  }

  lemma RoundGoesOn<F, V>(s: State<F, V>)
    requires 0 <= s.index + 1 < |s.Callbacks()|
    ensures NextCall(s) == Turn(s.(index := s.index + 1), Some(s.Callbacks()[s.index + 1]))
  {
  }

  lemma RoundEnds<F, V>(s: State<F, V>)
    requires s.index + 1 >= |s.Callbacks()|
    ensures NextCall(s) == NextRound(s.(index := -1))
  {
  }

  function Finish<F, V>(s: State<F, V>): State<F, V> {
    var kept := if s.opts.memory then s.memory else None;
    s.(memory := kept, firing := false,
       list := if !s.locked then s.list else if kept.Some? then Some([]) else None)
  }

  function Fire<F, V>(s: State<F, V>): Turn<F, V> {
    NextRound(s.(locked := s.locked || s.opts.once, fired := true, firing := true))
  }

  /** A callback has returned, with `false` or not. */
  function Resume<F, V>(s: State<F, V>, no: bool): Turn<F, V> {
    NextCall(if no && s.opts.stopOnFalse then s.(index := |s.Callbacks()|, memory := None) else s)
  }

  // ---------- The operations ----------

  function Append<F(==)>(list: seq<F>, fs: seq<F>, unique: bool): seq<F>
    decreases |fs|
  {
    if fs == [] then list
    else Append(if unique && fs[0] in list then list else list + [fs[0]], fs[1..], unique)
  }

  function Add<F(==), V>(s: State<F, V>, fs: seq<F>): Turn<F, V> {
    if s.list.None? then Turn(s, None)
    else
      var refire := s.memory.Some? && !s.firing;
      var s1 := if refire then s.(index := |s.list.value| - 1, queue := s.queue + [s.memory.value]) else s;
      var s2 := s1.(list := Some(Append(s.list.value, fs, s.opts.unique)));
      if refire then Fire(s2) else Turn(s2, None)
  }

  function FireWith<F, V>(s: State<F, V>, v: V): Turn<F, V> {
    if s.locked then Turn(s, None)
    else
      var s1 := s.(queue := s.queue + [v]);
      if s.firing then Turn(s1, None) else Fire(s1)
  }

  function Disable<F, V>(s: State<F, V>): State<F, V> {
    s.(locked := true, queue := [], list := None, memory := None)
  }

  function Lock<F, V>(s: State<F, V>): State<F, V> {
    var s1 := s.(locked := true, queue := []);
    if s.memory.None? && !s.firing then s1.(list := None) else s1
  }

  /** The list without the given callbacks. */
  function Without<F(==)>(list: seq<F>, f: F): seq<F> {
    if list == [] then [] else (if list[0] == f then [] else [list[0]]) + Without(list[1..], f)
  }

  // ---------- The class ----------

  class CallbackList<F(==), V> {
    const opts: Options
    var list: Option<seq<F>>
    var queue: seq<V>
    var memory: Option<V>
    var firing: bool
    var fired: bool
    var locked: bool
    var firingIndex: int

    ghost function Abs(): State<F, V>
      reads this
    {
      State(opts, list, queue, memory, firing, fired, locked, firingIndex)
    }

    /** The position of the running callback is a position, or just before the first. */
    ghost predicate Valid()
      reads this
    {
      -1 <= firingIndex
    }

    constructor (opts: Options)
      ensures Abs() == Fresh(opts) && Valid()
    {
      this.opts := opts;
      list, queue, memory := Some([]), [], None;
      firing, fired, locked, firingIndex := false, false, false, -1;
    }

    /** The loop of `fire`, up to the next call: the inner loop is about to step. */
    method Loop() returns (call: Option<F>)
      requires Valid()
      modifies this
      ensures Turn(Abs(), call) == old(NextCall(Abs())) && Valid()
    {
      hide NextCall, NextRound, Finish;
      ghost var next := NextCall(Abs());
      ghost var s := Abs();
      firingIndex := firingIndex + 1;
      while list.None? || firingIndex >= |list.value|
        invariant firingIndex == s.index + 1 >= 0 && Abs() == s.(index := firingIndex) && NextCall(s) == next
        decreases |queue|
      {
        RoundEnds(s);
        firingIndex := -1;
        RoundBegins(s.(index := -1));
        if queue == [] {
          Close();
          return None;
        }
        memory, queue := Some(queue[0]), queue[1..];
        s := Abs();
        firingIndex := firingIndex + 1;
      }
      RoundGoesOn(s);
      call := Some(list.value[firingIndex]);
    }

    /** The end of `fire`. */
    method Close()
      requires Valid()
      modifies this
      ensures Abs() == old(Finish(Abs())) && Valid()
    {
      if !opts.memory {
        memory := None;
      }
      firing := false;
      if locked {
        if memory.Some? {
          list := Some([]);
        } else {
          list := None;
        }
      }
    }

    method RunFire() returns (call: Option<F>)
      requires Valid()
      modifies this
      ensures Turn(Abs(), call) == old(Fire(Abs())) && Valid()
    {
      locked := locked || opts.once;
      fired, firing := true, true;
      if queue == [] {
        Close();
        return None;
      }
      memory, queue := Some(queue[0]), queue[1..];
      call := Loop();
    }

    method Return(no: bool) returns (call: Option<F>)
      requires Valid()
      modifies this
      ensures Turn(Abs(), call) == old(Resume(Abs(), no)) && Valid()
    {
      if no && opts.stopOnFalse {
        firingIndex := if list.Some? then |list.value| else 0;
        memory := None;
      }
      call := Loop();
    }

    /** `add` */
    method AddAll(args: seq<Arg<F>>) returns (call: Option<F>)
      requires Valid()
      modifies this
      ensures Turn(Abs(), call) == old(Add(Abs(), Flatten(args))) && Valid()
    {
      call := None;
      if list.Some? {
        var refire := memory.Some? && !firing;
        if refire {
          firingIndex := |list.value| - 1;
          queue := queue + [memory.value];
        }
        Push(args);
        if refire {
          call := RunFire();
        }
      }
    }

    /** The inner `add`: functions are pushed, arrays inspected recursively. */
    method Push(args: seq<Arg<F>>)
      requires list.Some?
      modifies this`list
      ensures list == Some(Append(old(list.value), Flatten(args), opts.unique))
      decreases args
    {
      for i := 0 to |args|
        invariant list.Some?
        invariant Append(list.value, Flatten(args[i..]), opts.unique) == Append(old(list.value), Flatten(args), opts.unique)
      {
        ghost var before := list.value;
        assert args[i..][1..] == args[i + 1..];
        match args[i] {
          case Fn(f) =>
            assert Flatten(args[i..]) == [f] + Flatten(args[i + 1..]);
            if !opts.unique || f !in list.value {
              list := Some(list.value + [f]);
            }
          case Arr(items) =>
            Push(items);
            AppendConcat(before, Flatten(items), Flatten(args[i + 1..]), opts.unique);
          case Other =>
            assert Flatten(args[i..]) == [] + Flatten(args[i + 1..]) == Flatten(args[i + 1..]);
        }
      }
      assert args[|args|..] == [];
    }

    /** `fireWith` */
    method FireAll(v: V) returns (call: Option<F>)
      requires Valid()
      modifies this
      ensures Turn(Abs(), call) == old(FireWith(Abs(), v)) && Valid()
    {
      call := None;
      if !locked {
        queue := queue + [v];
        if !firing {
          call := RunFire();
        }
      }
    }

    method DisableList()
      modifies this
      ensures Abs() == old(Disable(Abs()))
    {
      locked, queue := true, [];
      list, memory := None, None;
    }

    method LockList()
      modifies this
      ensures Abs() == old(Lock(Abs()))
    {
      locked, queue := true, [];
      if memory.None? && !firing {
        list := None;
      }
    }

    /** The callbacks still to be called in the current round. */
    ghost function Upcoming(): seq<F>
      requires Valid()
      reads this
    {
      var fs := Abs().Callbacks();
      if firingIndex + 1 <= |fs| then fs[firingIndex + 1..] else []
    }

    /** `remove` of one callback: every occurrence goes, and the loop neither skips nor repeats another one. */
    method Remove(f: F)
      requires Valid()
      modifies this`list, this`firingIndex
      ensures Valid() && list.Some? == old(list.Some?)
      ensures list.Some? ==> list.value == Without(old(list.value), f)
      ensures Upcoming() == Without(old(Upcoming()), f)
    {
      if list.None? {
        return;
      }
      var index: nat := 0;
      ghost var all, done, start: int := list.value, 0, firingIndex;
      assert all[..0] == [] && list.value[..index] == [];
      hide Without;
      while index < |list.value|
        invariant list.Some? && index <= |list.value| && 0 <= done <= |all| && -1 <= firingIndex
        invariant list.value[..index] == Without(all[..done], f) && list.value[index..] == all[done..]
        invariant done <= start + 1 ==> firingIndex - index == start - done
        invariant done > start + 1 ==> index > firingIndex && firingIndex + 1 == |Without(all[..start + 1], f)|
        decreases |list.value| - index
      {
        StepWithout(list.value, index, all, done, f);
        var next := list.value;
        if next[index] == f {
          list := Some(next[..index] + next[index + 1..]);
          if index <= firingIndex {
            firingIndex := firingIndex - 1;
          }
        } else {
          index := index + 1;
        }
        done := done + 1;
      }
      assert all[..|all|] == all && list.value[..|list.value|] == list.value;
      assert |list.value[index..]| == |all[done..]|;
      if start + 1 <= |all| {
        assert all == all[..start + 1] + all[start + 1..];
        WithoutConcat(all[..start + 1], all[start + 1..], f);
      }
    }
  }

  lemma {:induction false} AppendConcat<F>(list: seq<F>, a: seq<F>, b: seq<F>, unique: bool)
    ensures Append(list, a + b, unique) == Append(Append(list, a, unique), b, unique)
    decreases |a|
  {
    if a == [] {
      assert a + b == b;
    } else {
      assert (a + b)[1..] == a[1..] + b;
      AppendConcat(if unique && a[0] in list then list else list + [a[0]], a[1..], b, unique);
    }
  }

  /** One turn of the removal loop, seen from the original list. */
  /** Functions count, arrays are opened up at any depth, and nothing else matters. */
  lemma FlattenOne<F>(f: F, items: seq<Arg<F>>)
    ensures Flatten([Fn(f)]) == [f] && Flatten([Arr(items)]) == Flatten(items) && Flatten<F>([Other]) == []
  {
  }

  lemma {:induction false} FlattenConcat<F>(a: seq<Arg<F>>, b: seq<Arg<F>>)
    ensures Flatten(a + b) == Flatten(a) + Flatten(b)
    decreases |a|
  {
    if a == [] {
      assert a + b == b;
    } else {
      assert (a + b)[1..] == a[1..] + b;
      FlattenConcat(a[1..], b);
    }
  }

  /** A unique list takes a callback that it does not have, at the end, and no other. */
  lemma UniqueAppend<F>(list: seq<F>, fs: seq<F>, f: F)
    ensures var before := Append(list, fs, true);
            Append(list, fs + [f], true) == if f in before then before else before + [f]
  {
    AppendConcat(list, fs, [f], true);
  }

  /** So it keeps what it had, and what it has had once it has once. */
  lemma {:induction false} UniqueContents<F>(list: seq<F>, fs: seq<F>)
    ensures var r := Append(list, fs, true);
            && list <= r
            && (forall f :: f in r <==> f in list || f in fs)
            && (forall i, j | 0 <= i < j < |r| && |list| <= j :: r[i] != r[j])
    decreases |fs|
  {
    if fs != [] {
      var front, f := fs[..|fs| - 1], fs[|fs| - 1];
      UniqueContents(list, front);
      UniqueAppend(list, front, f);
      assert fs == front + [f];
    }
  }

  /** The other callbacks stay, each as often as before; with `WithoutConcat`, in their order. */
  lemma {:induction false} WithoutContents<F>(list: seq<F>, f: F, g: F)
    ensures multiset(Without(list, f))[g] == if g == f then 0 else multiset(list)[g]
  {
    if list != [] {
      WithoutContents(list[1..], f, g);
      assert list == [list[0]] + list[1..];
    }
  }

  lemma StepWithout<F>(list: seq<F>, index: nat, all: seq<F>, done: nat, f: F)
    requires index < |list| && done <= |all|
    requires list[..index] == Without(all[..done], f) && list[index..] == all[done..]
    ensures done < |all| && list[index] == all[done] && index == |Without(all[..done], f)|
    ensures list[index] == f ==>
              var next := list[..index] + list[index + 1..];
              next[..index] == Without(all[..done + 1], f) && next[index..] == all[done + 1..]
    ensures list[index] != f ==> list[..index + 1] == Without(all[..done + 1], f) && list[index + 1..] == all[done + 1..]
  {
    assert |list[index..]| == |all[done..]|;
    assert list[index] == list[index..][0] && all[done] == all[done..][0];
    WithoutConcat(all[..done], [all[done]], f);
    assert all[..done + 1] == all[..done] + [all[done]];
    assert Without([all[done]], f) == if all[done] == f then [] else [all[done]];
    assert list[index + 1..] == list[index..][1..] == all[done..][1..] == all[done + 1..];
    assert list[..index + 1] == list[..index] + [list[index]];
    var next := list[..index] + list[index + 1..];
    assert next[..index] == list[..index] && next[index..] == list[index + 1..];
  }

  lemma {:induction false} WithoutConcat<F>(a: seq<F>, b: seq<F>, f: F)
    ensures Without(a + b, f) == Without(a, f) + Without(b, f)
  {
    if a == [] {
      assert a + b == b;
    } else {
      assert (a + b)[1..] == a[1..] + b;
      WithoutConcat(a[1..], b, f);
    }
  }
}
