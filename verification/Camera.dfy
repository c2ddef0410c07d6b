/** The camera triggered by the pulse of every second: a thread that records the edges, and the
  * camera's own thread that keeps the frame next to one. They share two atomics, and any of
  * their loads and stores may fall between any two of the other's.
  */
module Camera {
  /** Nanoseconds, as both clocks count them. */
  type Time = t: nat | t < 0x8000_0000_0000_0000

  /** A kept frame: its own time, and the edge it is tagged with. */
  datatype Kept = Kept(frame: Time, tag: Time)

  /** Where the edge thread is: waiting, or between its two stores. */
  datatype EdgePlace = Waiting | EdgeStored

  /** Where the camera thread is in a request. */
  datatype CameraPlace =
    | Idle
    | LoadEdge(request: nat, frame: Time)
    | ClearPending(toKeep: nat, kept: Kept)
    | Finish(done: nat)

  /** The history: edges recorded, how often `m_ppsPending` was set, frames kept, requests
    * completed and queued again, and whether capturing was ever for one frame only. */
  datatype History = History(
    edges: seq<Time>,
    sets: nat,
    kept: seq<Kept>,
    completed: seq<nat>,
    requeued: seq<nat>,
    streaming: bool)

  datatype World = World(
    maxFrameAge: Time,
    lastPps: Time,
    ppsPending: bool,
    oneFrame: bool,
    edge: EdgePlace,
    camera: CameraPlace,
    history: History)

  function Initial(maxFrameAge: Time): World {
    World(maxFrameAge, 0, false, false, Waiting, Idle, History([], 0, [], [], [], true))
  }

  // ---------- Steps ----------

  /** The edge thread stores the time of an edge, then sets the flag. */
  function StoreEdge(w: World, t: Time): World {
    w.(lastPps := t, edge := EdgeStored, history := w.history.(edges := w.history.edges + [t]))
  }

  function SetPending(w: World): World {
    w.(ppsPending := true, edge := Waiting, history := w.history.(sets := w.history.sets + 1))
  }

  /** A request completes, and if it was not cancelled the flag is looked at. */
  function Complete(w: World, request: nat, cancelled: bool, frame: Time): World {
    w.(camera := if !cancelled && w.ppsPending then LoadEdge(request, frame) else Finish(request),
       history := w.history.(completed := w.history.completed + [request]))
  }

  function Distance(a: Time, b: Time): nat {
    if a >= b then a - b else b - a
  }

  /** The edge is looked at, and the frame kept if it is close enough. */
  function CompareEdge(w: World): World
    requires w.camera.LoadEdge?
  {
    var tag := w.lastPps;
    if Distance(w.camera.frame, tag) < w.maxFrameAge then
      w.(camera := ClearPending(w.camera.request, Kept(w.camera.frame, tag)))
    else w.(camera := Finish(w.camera.request))
  }

  function ClearFlag(w: World): World
    requires w.camera.ClearPending?
  {
    w.(ppsPending := false, camera := Finish(w.camera.toKeep),
       history := w.history.(kept := w.history.kept + [w.camera.kept]))
  }

  function Requeue(w: World): World
    requires w.camera.Finish?
  {
    w.(camera := Idle,
       history := w.history.(requeued := w.history.requeued + if w.oneFrame then [] else [w.camera.done]))
  }

  /** `capture`, which starts all over: the requests are handed to the camera. */
  function Capture(w: World, oneFrame: bool): World {
    w.(ppsPending := false, oneFrame := oneFrame,
       history := w.history.(streaming := w.history.streaming && !oneFrame))
  }

  datatype Action =
    | Edge(t: Time) | Pending
    | Completed(request: nat, cancelled: bool, frame: Time) | Camera
    | CaptureAll(oneFrame: bool)

  /** What a thread cannot do where it is leaves everything as it is. */
  function Step(w: World, a: Action): World {
    match a
    case Edge(t) => if w.edge == Waiting then StoreEdge(w, t) else w
    case Pending => if w.edge == EdgeStored then SetPending(w) else w
    case Completed(request, cancelled, frame) =>
      if w.camera == Idle then Complete(w, request, cancelled, frame) else w
    case Camera =>
      if w.camera.LoadEdge? then CompareEdge(w)
      else if w.camera.ClearPending? then ClearFlag(w)
      else if w.camera.Finish? then Requeue(w)
      else w
    case CaptureAll(oneFrame) => Capture(w, oneFrame)
  }

  function Run(w: World, actions: seq<Action>): World {
    if actions == [] then w else Step(Run(w, actions[..|actions| - 1]), actions[|actions| - 1])
  }

  // ---------- What every step keeps ----------

  /** An edge that may still pay for a frame: the flag is up, or the camera thread has seen it
    * up and has not cleared it. */
  function Due(w: World): nat {
    if w.ppsPending || w.camera.LoadEdge? || w.camera.ClearPending? then 1 else 0
  }

  predicate IsEdge(w: World, t: Time) {
    t in w.history.edges
  }

  predicate Close(maxFrameAge: Time, k: Kept) {
    Distance(k.frame, k.tag) < maxFrameAge
  }

  /** The requests completed and not queued again yet. */
  function Held(c: CameraPlace): seq<nat> {
    match c
    case Idle => []
    case LoadEdge(request, _) => [request]
    case ClearPending(request, _) => [request]
    case Finish(request) => [request]
  }

  predicate Inv(w: World) {
    var h := w.history;
    && |h.kept| + Due(w) <= h.sets
    && h.sets + (if w.edge == EdgeStored then 1 else 0) == |h.edges|
    && (h.edges != [] ==> w.lastPps == h.edges[|h.edges| - 1])
    && (forall k | k in h.kept :: IsEdge(w, k.tag) && Close(w.maxFrameAge, k))
    && (w.camera.ClearPending? ==> IsEdge(w, w.camera.kept.tag) && Close(w.maxFrameAge, w.camera.kept))
    && (h.streaming ==> !w.oneFrame && h.completed == h.requeued + Held(w.camera))
  }

  lemma EdgeKeeps(w: World, a: Action)
    requires Inv(w) && (a.Edge? || a.Pending? || a.CaptureAll?)
    ensures Inv(Step(w, a))
  {
    var r := Step(w, a);
    assert forall t | IsEdge(w, t) :: IsEdge(r, t);
    hide Distance;
  }

  lemma CameraKeeps(w: World, a: Action)
    requires Inv(w) && (a.Completed? || a.Camera?)
    ensures Inv(Step(w, a))
  {
    var r := Step(w, a);
    assert r.history.edges == w.history.edges;
    if w.camera.LoadEdge? {
      assert w.lastPps in w.history.edges;
    }
    hide Distance;
  }

  lemma InvStep(w: World, a: Action)
    requires Inv(w)
    ensures Inv(Step(w, a))
  {
    if a.Completed? || a.Camera? {
      CameraKeeps(w, a);
    } else {
      EdgeKeeps(w, a);
    }
    hide *;
  }

  lemma {:induction false} InvRun(maxFrameAge: Time, actions: seq<Action>)
    ensures Inv(Run(Initial(maxFrameAge), actions))
    ensures Run(Initial(maxFrameAge), actions).maxFrameAge == maxFrameAge
  {
    if actions != [] {
      var before := actions[..|actions| - 1];
      InvRun(maxFrameAge, before);
      InvStep(Run(Initial(maxFrameAge), before), actions[|actions| - 1]);
      hide Inv;
    }
  }

  /** Over every interleaving: no more frames are kept than there were edges, each is tagged
    * with an edge that was recorded and is within the age of it, and as long as capturing is
    * for more than one frame, every completed request is queued again, in order. */
  lemma EveryRun(maxFrameAge: Time, actions: seq<Action>)
    ensures var w := Run(Initial(maxFrameAge), actions); var h := w.history;
            && |h.kept| <= h.sets <= |h.edges| <= h.sets + 1
            && (forall k | k in h.kept :: k.tag in h.edges && Distance(k.frame, k.tag) < maxFrameAge)
            && (h.streaming ==> h.completed == h.requeued + Held(w.camera))
  {
    InvRun(maxFrameAge, actions);
    hide Run;
  }

  // ---------- When tags are distinct ----------

  /** The camera thread is about to clear the flag for a frame that it has tagged with the edge
    * being recorded, for which the edge thread is about to set the flag. */
  predicate Torn(w: World) {
    w.camera.ClearPending? && w.edge == EdgeStored && w.lastPps == w.camera.kept.tag
  }

  /** An edge that is recorded is later than the one before, and no flag is cleared in a torn
    * world. */
  predicate Orderly(w: World, a: Action) {
    && (a.Edge? && w.edge == Waiting && w.history.edges != [] ==> a.t > w.lastPps)
    && (a.Camera? ==> !Torn(w))
  }

  predicate OrderlyRun(w: World, actions: seq<Action>) {
    actions != [] ==>
      var before := actions[..|actions| - 1];
      OrderlyRun(w, before) && Orderly(Run(w, before), actions[|actions| - 1])
  }

  predicate Rising(kept: seq<Kept>) {
    forall i, j | 0 <= i < j < |kept| :: kept[i].tag < kept[j].tag
  }

  predicate AllBefore(kept: seq<Kept>, t: Time) {
    forall i | 0 <= i < |kept| :: kept[i].tag < t
  }

  predicate AllUpTo(kept: seq<Kept>, t: Time) {
    forall i | 0 <= i < |kept| :: kept[i].tag <= t
  }

  /** The tags rise, and the last edge recorded is later than all of them whenever a frame may
    * still be tagged with it. */
  predicate Ordered(w: World) {
    var h := w.history;
    && Rising(h.kept) && AllUpTo(h.kept, w.lastPps)
    && (h.kept != [] || w.camera.ClearPending? || w.ppsPending || w.edge == EdgeStored || w.camera.LoadEdge? ==> h.edges != [])
    && (w.ppsPending || w.edge == EdgeStored || w.camera.LoadEdge? ==> AllBefore(h.kept, w.lastPps))
    && (w.camera.ClearPending? ==>
          && AllBefore(h.kept, w.camera.kept.tag) && w.camera.kept.tag <= w.lastPps)
  }

  lemma OrderedStep(w: World, a: Action)
    requires Ordered(w) && Orderly(w, a)
    ensures Ordered(Step(w, a))
  {
    hide Distance;
  }

  lemma {:induction false} OrderedRun(maxFrameAge: Time, actions: seq<Action>)
    requires OrderlyRun(Initial(maxFrameAge), actions)
    ensures Ordered(Run(Initial(maxFrameAge), actions))
  {
    if actions != [] {
      var before := actions[..|actions| - 1];
      OrderedRun(maxFrameAge, before);
      OrderedStep(Run(Initial(maxFrameAge), before), actions[|actions| - 1]);
      hide Ordered, Orderly, Step;
    }
  }

  /** Over every run with rising edges in which no flag is cleared in a torn world, each kept
    * frame has an edge of its own, later than those of the frames before. */
  lemma TagsRise(maxFrameAge: Time, actions: seq<Action>)
    requires OrderlyRun(Initial(maxFrameAge), actions)
    ensures Rising(Run(Initial(maxFrameAge), actions).history.kept)
  {
    OrderedRun(maxFrameAge, actions);
    hide Run, OrderlyRun, Rising;
  }

  /** And clearing it there is what goes wrong: from any torn world, the frame kept now and any
    * next one near enough to the edge carry the same tag. */
  lemma TornTagsTwice(w: World, request: nat, frame: Time)
    requires Torn(w) && Distance(frame, w.lastPps) < w.maxFrameAge
    ensures Run(w, [Camera, Pending, Camera, Completed(request, false, frame), Camera, Camera]).history.kept
         == w.history.kept + [w.camera.kept, Kept(frame, w.camera.kept.tag)]
  {
    var tag := w.lastPps;
    var w1 := Step(w, Camera);
    assert w1.history.kept == w.history.kept + [w.camera.kept];
    var w2 := Step(w1, Pending);
    var w3 := Step(w2, Camera);
    assert w3.camera == Idle && w3.ppsPending && w3.lastPps == tag;
    var w4 := Step(w3, Completed(request, false, frame));
    var w5 := Step(w4, Camera);
    assert w5.camera == ClearPending(request, Kept(frame, tag));
    var w6 := Step(w5, Camera);
    assert w6.history.kept == (w.history.kept + [w.camera.kept]) + [Kept(frame, tag)];
    RunSix(w, Camera, Pending, Camera, Completed(request, false, frame), Camera, Camera);
    hide Step, Run;
  }

  lemma RunSix(w: World, a: Action, b: Action, c: Action, d: Action, e: Action, f: Action)
    ensures Run(w, [a, b, c, d, e, f]) == Step(Step(Step(Step(Step(Step(w, a), b), c), d), e), f)
  {
    hide Step;
    assert [a, b, c] + [d, e, f] == [a, b, c, d, e, f];
    RunConcat(w, [a, b, c], [d, e, f]);
    RunThree(w, a, b, c);
    RunThree(Run(w, [a, b, c]), d, e, f);
    hide Run;
  }

  lemma RunThree(w: World, a: Action, b: Action, c: Action)
    ensures Run(w, [a, b, c]) == Step(Step(Step(w, a), b), c)
  {
    hide Step;
    RunSnoc(w, [], a);
    assert [] + [a] == [a];
    RunSnoc(w, [a], b);
    assert [a] + [b] == [a, b];
    RunSnoc(w, [a, b], c);
    assert [a, b] + [c] == [a, b, c];
  }

  lemma {:induction false} RunConcat(w: World, before: seq<Action>, after: seq<Action>)
    ensures Run(w, before + after) == Run(Run(w, before), after)
  {
    hide Step;
    if after == [] {
      assert before + after == before;
    } else {
      RunConcat(w, before, after[..|after| - 1]);
      assert (before + after)[..|before + after| - 1] == before + after[..|after| - 1];
    }
  }

  /** Torn worlds are reached: the second edge is recorded after the camera thread has seen the
    * flag and before it looks at the edge. */
  lemma TornReached(maxFrameAge: Time, first: Time, second: Time, request: nat, frame: Time)
    requires first < second && Distance(frame, second) < maxFrameAge
    ensures var w := Run(Initial(maxFrameAge), [Edge(first), Pending, Completed(request, false, frame), Edge(second), Camera]);
            Torn(w) && w.lastPps == second && w.history.kept == []
  {
    var actions := [Edge(first), Pending, Completed(request, false, frame), Edge(second)];
    var w := Initial(maxFrameAge);
    RunSnoc(w, [], Edge(first));
    assert [] + [Edge(first)] == [Edge(first)];
    RunSnoc(w, [Edge(first)], Pending);
    assert [Edge(first)] + [Pending] == [Edge(first), Pending];
    RunSnoc(w, [Edge(first), Pending], Completed(request, false, frame));
    assert [Edge(first), Pending] + [Completed(request, false, frame)] == actions[..3];
    RunSnoc(w, actions[..3], Edge(second));
    assert actions[..3] + [Edge(second)] == actions;
    RunSnoc(w, actions, Camera);
    assert actions + [Camera] == [Edge(first), Pending, Completed(request, false, frame), Edge(second), Camera];
    hide Distance;
  }

  lemma RunSnoc(w: World, actions: seq<Action>, a: Action)
    ensures Run(w, actions + [a]) == Step(Run(w, actions), a)
  {
    assert (actions + [a])[..|actions|] == actions;
  }

  // ---------- What a request and a capture do ----------

  /** What `requestComplete` does when nobody interferes: the frame is kept, under the last edge,
    * exactly if it was not cancelled, an edge is due and the two are near enough; the edge is
    * then used up; and the request is queued again unless capturing is for one frame. */
  lemma FrameDecided(w: World, request: nat, cancelled: bool, frame: Time)
    requires w.camera == Idle
    ensures var r := Run(w, [Completed(request, cancelled, frame), Camera, Camera, Camera]);
            var delta := frame as int - w.lastPps as int;
            var keep := !cancelled && w.ppsPending && -(w.maxFrameAge as int) < delta < w.maxFrameAge as int;
            && r.history.kept == w.history.kept + (if keep then [Kept(frame, w.lastPps)] else [])
            && r.history.requeued == w.history.requeued + (if w.oneFrame then [] else [request])
            && r.ppsPending == (w.ppsPending && !keep) && r.camera == Idle
  {
    hide Run, Step, Distance;
    var a := Completed(request, cancelled, frame);
    assert [a] + [Camera, Camera, Camera] == [a, Camera, Camera, Camera];
    RunConcat(w, [a], [Camera, Camera, Camera]);
    RunSnoc(w, [], a);
    assert [] + [a] == [a] && Run(w, []) == w by {
      RunNothing(w);
    }
    RunThree(Step(w, a), Camera, Camera, Camera);
    RequestTaken(w, request, cancelled, frame);
  }

  lemma RunNothing(w: World)
    ensures Run(w, []) == w
  {
  }

  lemma RequestTaken(w: World, request: nat, cancelled: bool, frame: Time)
    requires w.camera == Idle
    ensures var r := Step(Step(Step(Step(w, Completed(request, cancelled, frame)), Camera), Camera), Camera);
            var delta := frame as int - w.lastPps as int;
            var keep := !cancelled && w.ppsPending && -(w.maxFrameAge as int) < delta < w.maxFrameAge as int;
            && r.history.kept == w.history.kept + (if keep then [Kept(frame, w.lastPps)] else [])
            && r.history.requeued == w.history.requeued + (if w.oneFrame then [] else [request])
            && r.ppsPending == (w.ppsPending && !keep) && r.camera == Idle
  {
    var w1 := Step(w, Completed(request, cancelled, frame));
    var w2 := Step(w1, Camera);
    if cancelled || !w.ppsPending {
      assert w1.camera == Finish(request) && w2.camera == Idle;
    } else if Distance(frame, w.lastPps) < w.maxFrameAge {
      assert w2.camera == ClearPending(request, Kept(frame, w.lastPps));
    } else {
      assert w2.camera == Finish(request);
    }
  }

  lemma WithoutEdgeStep(w: World, a: Action)
    requires Due(w) == 0 && !a.Pending?
    ensures Due(Step(w, a)) == 0 && Step(w, a).history.kept == w.history.kept
  {
  }

  /** Without an edge since, nothing is kept, whatever completes. */
  lemma {:induction false} WithoutEdge(w: World, actions: seq<Action>)
    requires Due(w) == 0 && forall i | 0 <= i < |actions| :: !actions[i].Pending?
    ensures Due(Run(w, actions)) == 0 && Run(w, actions).history.kept == w.history.kept
  {
    hide Step, Due;
    if actions != [] {
      WithoutEdge(w, actions[..|actions| - 1]);
      WithoutEdgeStep(Run(w, actions[..|actions| - 1]), actions[|actions| - 1]);
    }
  }

  /** Capturing waits for an edge of its own: one that was due before does not count. */
  lemma CaptureForgetsEdge(w: World, oneFrame: bool, actions: seq<Action>)
    requires w.camera.Idle? || w.camera.Finish?
    requires forall i | 0 <= i < |actions| :: !actions[i].Pending?
    ensures Run(Step(w, CaptureAll(oneFrame)), actions).history.kept == w.history.kept
  {
    WithoutEdge(Step(w, CaptureAll(oneFrame)), actions);
    hide Run;
  }

  /** Of the requests completed since there were so many, those not with the camera thread any
    * more are queued again, or none if capturing is for one frame. */
  predicate Requeues(w: World, completed: nat, requeued: nat) {
    var h := w.history;
    && completed <= |h.completed| && requeued <= |h.requeued|
    && if w.oneFrame then |h.requeued| == requeued
       else h.completed[completed..] == h.requeued[requeued..] + Held(w.camera)
  }

  lemma RequeuesStep(w: World, completed: nat, requeued: nat, a: Action)
    requires Requeues(w, completed, requeued) && !a.CaptureAll?
    ensures Requeues(Step(w, a), completed, requeued) && Step(w, a).oneFrame == w.oneFrame
  {
    var h, r := w.history, Step(w, a).history;
    if r.completed != h.completed {
      assert r.completed[completed..] == h.completed[completed..] + [r.completed[|h.completed|]];
    }
    if r.requeued != h.requeued {
      assert r.requeued[requeued..] == h.requeued[requeued..] + Held(w.camera);
    }
    hide Distance;
  }

  /** Until the next capture, one for a single frame queues nothing again, and any other queues
    * every request that completes, in order. */
  lemma {:induction false} CaptureRequeues(w: World, oneFrame: bool, actions: seq<Action>)
    requires w.camera == Idle && forall i | 0 <= i < |actions| :: !actions[i].CaptureAll?
    ensures var r := Run(Step(w, CaptureAll(oneFrame)), actions);
            r.oneFrame == oneFrame && Requeues(r, |w.history.completed|, |w.history.requeued|)
  {
    if actions != [] {
      var before := actions[..|actions| - 1];
      CaptureRequeues(w, oneFrame, before);
      RequeuesStep(Run(Step(w, CaptureAll(oneFrame)), before), |w.history.completed|, |w.history.requeued|, actions[|actions| - 1]);
      hide Step, Requeues;
    }
  }

  // ---------- The program ----------

  /** The wrapper's fields. Each method is what a thread does up to its next load or store. */
  class LibCameraWrapper {
    const maxFrameAgeNs: Time
    var lastPpsNs: Time
    var ppsPending: bool
    var oneFrame: bool
    var edge: EdgePlace
    var camera: CameraPlace
    ghost var history: History

    ghost function Abs(): World
      reads this
    {
      World(maxFrameAgeNs, lastPpsNs, ppsPending, oneFrame, edge, camera, history)
    }

    constructor (maxFrameAgeNs: Time)
      ensures Abs() == Initial(maxFrameAgeNs)
    {
      this.maxFrameAgeNs := maxFrameAgeNs;
      lastPpsNs, ppsPending, oneFrame, edge, camera := 0, false, false, Waiting, Idle;
      history := History([], 0, [], [], [], true);
    }

    method PpsStoreEdge(evUtcNs: Time)
      requires edge == Waiting
      modifies this
      ensures Abs() == Step(old(Abs()), Edge(evUtcNs))
    {
      lastPpsNs := evUtcNs;
      edge := EdgeStored;
      history := history.(edges := history.edges + [evUtcNs]);
    }

    method PpsSetPending()
      requires edge == EdgeStored
      modifies this
      ensures Abs() == Step(old(Abs()), Pending)
    {
      ppsPending := true;
      edge := Waiting;
      history := history.(sets := history.sets + 1);
    }

    method RequestComplete(request: nat, cancelled: bool, frameUtcNs: Time)
      requires camera == Idle
      modifies this
      ensures Abs() == Step(old(Abs()), Completed(request, cancelled, frameUtcNs))
    {
      history := history.(completed := history.completed + [request]);
      if cancelled {
        camera := Finish(request);
        return;
      }
      if ppsPending {
        camera := LoadEdge(request, frameUtcNs);
      } else {
        camera := Finish(request);
      }
    }

    method RequestCompare()
      requires camera.LoadEdge?
      modifies this`camera
      ensures Abs() == Step(old(Abs()), Camera)
    {
      var ppsNs := lastPpsNs;
      var delta := (camera.frame as int) - (ppsNs as int);
      if (if delta < 0 then -delta else delta) < maxFrameAgeNs as int {
        camera := ClearPending(camera.request, Kept(camera.frame, ppsNs));
      } else {
        camera := Finish(camera.request);
      }
    }

    method RequestClear()
      requires camera.ClearPending?
      modifies this
      ensures Abs() == Step(old(Abs()), Camera)
    {
      ppsPending := false;
      history := history.(kept := history.kept + [camera.kept]);
      camera := Finish(camera.toKeep);
    }

    method RequestFinish()
      requires camera.Finish?
      modifies this
      ensures Abs() == Step(old(Abs()), Camera)
    {
      if !oneFrame {
        history := history.(requeued := history.requeued + [camera.done]);
      } else {
        assert history.requeued + [] == history.requeued;
      }
      camera := Idle;
    }

    method Capture(oneFrame: bool)
      modifies this
      ensures Abs() == Step(old(Abs()), CaptureAll(oneFrame))
    {
      this.oneFrame := oneFrame;
      ppsPending := false;
      history := history.(streaming := history.streaming && !oneFrame);
    }
  }
}
