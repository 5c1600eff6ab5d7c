/** Termination: every piece of work uses up weight, and only a new root brings some in. */
module Weights {
  import opened Programs
  import opened Machine
  import opened Invariants
  import opened HeapLemmas
  import opened CallLemmas
  import opened StackLemmas
  import opened Steps
  import opened CallSteps
  import opened FirstSegments
  import opened Events

  /** What is left to execute of one frame; a suspended frame still has to be entered. */
  function FrameWeight(fr: Frame): nat {
    if fr.point.Final? then 0 else 8 * Size(fr.code) + (if fr.point.Running? then 0 else 4)
  }

  function At1(heap: map<FrameId, Frame>, f: FrameId): nat {
    if f in heap then FrameWeight(heap[f]) else 0
  }

  function HeapWeight(heap: map<FrameId, Frame>, n: nat): nat {
    if n == 0 then 0 else HeapWeight(heap, n - 1) + At1(heap, n - 1)
  }

  function Weight(s: State): nat {
    HeapWeight(s.heap, s.next) + |s.stack|
  }

  lemma {:induction false} WeightSame(h: map<FrameId, Frame>, k: map<FrameId, Frame>, n: nat)
    requires forall f: FrameId | f < n :: At1(h, f) == At1(k, f)
    ensures HeapWeight(h, n) == HeapWeight(k, n)
  {
    if n > 0 { WeightSame(h, k, n - 1); assert At1(h, n - 1) == At1(k, n - 1); }
  }

  /** One frame changes: the weight changes by as much. */
  lemma {:induction false} WeightAt(h: map<FrameId, Frame>, k: map<FrameId, Frame>, n: nat, x: FrameId)
    requires x < n && forall f: FrameId | f < n && f != x :: At1(h, f) == At1(k, f)
    ensures HeapWeight(k, n) == HeapWeight(h, n) - At1(h, x) + At1(k, x)
  {
    if x == n - 1 {
      WeightSame(h, k, n - 1);
    } else {
      WeightAt(h, k, n - 1, x);
      assert At1(h, n - 1) == At1(k, n - 1);
    }
  }

  /** Two frames change. */
  lemma WeightAt2(s: State, t: State, x: FrameId, y: FrameId)
    requires x != y && x < s.next && y < s.next && t.next == s.next && Only(s, t, {x, y})
    ensures HeapWeight(t.heap, t.next) ==
      HeapWeight(s.heap, s.next) - At1(s.heap, x) - At1(s.heap, y) + At1(t.heap, x) + At1(t.heap, y)
  {
    forall f: FrameId | f != x && f != y ensures At1(s.heap, f) == At1(t.heap, f) { Look(s, t, {x, y}, f); }
    WeightAtTwo(s.heap, t.heap, s.next, x, y);
  }

  lemma WeightAtTwo(h: map<FrameId, Frame>, k: map<FrameId, Frame>, n: nat, x: FrameId, y: FrameId)
    requires x != y && x < n && y < n
    requires forall g: FrameId | g != x && g != y :: At1(h, g) == At1(k, g)
    ensures HeapWeight(k, n) == HeapWeight(h, n) - At1(h, x) - At1(h, y) + At1(k, x) + At1(k, y)
  {
    var mid := if x in k then h[x := k[x]] else h - {x};
    WeightAt(h, mid, n, x);
    WeightAt(mid, k, n, y);
  }

  lemma WeightAt1(s: State, t: State, x: FrameId)
    requires Only(s, t, {x}) && x < s.next && t.next == s.next
    ensures HeapWeight(t.heap, t.next) == HeapWeight(s.heap, s.next) - At1(s.heap, x) + At1(t.heap, x)
  {
    forall f: FrameId | f < s.next && f != x ensures At1(s.heap, f) == At1(t.heap, f) { Look(s, t, {x}, f); }
    WeightAt(s.heap, t.heap, s.next, x);
  }

  /** A frame appears beside one or two that change. */
  lemma WeightNew(s: State, t: State, x: FrameId, y: FrameId)
    requires Only(s, t, {x, y, s.next}) && x != y && x < s.next && y < s.next && t.next == s.next + 1
    ensures HeapWeight(t.heap, t.next) ==
      HeapWeight(s.heap, s.next) - At1(s.heap, x) - At1(s.heap, y)
      + At1(t.heap, x) + At1(t.heap, y) + At1(t.heap, s.next)
  {
    var mid := if x in t.heap then s.heap[x := t.heap[x]] else s.heap - {x};
    WeightAt(s.heap, mid, s.next, x);
    forall f: FrameId | f < s.next && f != y ensures At1(mid, f) == At1(t.heap, f) { Look(s, t, {x, y, s.next}, f); }
    WeightAt(mid, t.heap, s.next, y);
  }

  // ---- bodies ----

  lemma PlainStep(s: State, f: FrameId, t: State)
    requires At(s, f) && f in s.heap
    requires s.heap[f].code.Return? || s.heap[f].code.Branch? || s.heap[f].code.Operation?
    requires StepBody(s, f) == Next(t)
    ensures Weight(t) < Weight(s)
  {
    Here(s, f);
    assert Size(s.heap[f].code) >= 1;
    WeightAt1(s, t, f);
  }

  lemma MakeLighter(s: State, f: FrameId, t: State)
    requires At(s, f) && f in s.heap && s.heap[f].code.Make?
    requires StepBody(s, f) == Next(t)
    ensures Weight(t) < Weight(s)
  {
    Here(s, f);
    NextIsFree(s);
    var u := s.(heap := s.heap[f := t.heap[f]]);
    WeightAt1(s, u, f);
    forall g: FrameId | g < s.next ensures At1(u.heap, g) == At1(t.heap, g) {}
    WeightSame(u.heap, t.heap, s.next);
  }

  lemma AwaitLighter(s: State, f: FrameId, t: State)
    requires At(s, f) && f in s.heap && s.heap[f].code.Await?
    requires StepBody(s, f) == Next(t)
    ensures Weight(t) < Weight(s)
  {
    Here(s, f);
    InVariable(s, f, s.heap[f].code.slot);
    if s.heap[s.heap[f].slots[s.heap[f].code.slot]].point.Final? {
      TakeLighter(s, f, t);
    } else {
      PendingLighter(s, f, t);
    }
  }

  lemma TakeLighter(s: State, f: FrameId, t: State)
    requires At(s, f) && IsAwait(s, f, t) && s.heap[Awaited(s, f)].point.Final?
    ensures Weight(t) < Weight(s)
  {
    Here(s, f);
    InVariable(s, f, s.heap[f].code.slot);
    WeightAt2(s, t, f, Awaited(s, f));
  }

  lemma PendingLighter(s: State, f: FrameId, t: State)
    requires At(s, f) && IsAwait(s, f, t) && !s.heap[Awaited(s, f)].point.Final?
    ensures Weight(t) < Weight(s)
  {
    Here(s, f);
    InVariable(s, f, s.heap[f].code.slot);
    AwaitPendingDoes(s, f, t);
    WeightAt2(s, t, f, Awaited(s, f));
  }

  lemma StartLighter(s: State, f: FrameId, t: State)
    requires At(s, f) && f in s.heap && s.heap[f].code.Start?
    requires StepBody(s, f) == Next(t)
    ensures Weight(t) < Weight(s)
  {
    Here(s, f);
    var Start(slot, next) := s.heap[f].code;
    InVariable(s, f, slot);
    WeightAt2(s, t, f, s.heap[f].slots[slot]);
  }

  lemma CrossLighter(s: State, f: FrameId, t: State)
    requires At(s, f) && f in s.heap && s.heap[f].code.Cross?
    requires StepBody(s, f) == Next(t)
    ensures Weight(t) < Weight(s)
  {
    Here(s, f);
    NextIsFree(s);
    var Cross(on, slot, next) := s.heap[f].code;
    InVariable(s, f, slot);
    CrossDoes(s, f, t);
    WeightNew(s, t, f, s.heap[f].slots[slot]);
  }

  lemma DetachLighter(s: State, f: FrameId, t: State)
    requires At(s, f) && f in s.heap && s.heap[f].code.Detach?
    requires StepBody(s, f) == Next(t)
    ensures Weight(t) < Weight(s)
  {
    Here(s, f);
    var Detach(on, slot, next) := s.heap[f].code;
    InVariable(s, f, slot);
    DetachDoes(s, f, t);
    WeightAt2(s, t, f, s.heap[f].slots[slot]);
  }

  lemma LaunchLighter(s: State, f: FrameId, p: FrameId, t: State)
    requires At(s, f) && IsRunning(s, f) && s.heap[f].code == Launch(p) && StepLaunch(s, f, p) == Next(t)
    ensures Weight(t) < Weight(s)
  {
    LaunchHas(s, f, p);
    var c := s.heap[p].point.held.value;
    LaunchLeaves(s, f, p, c, t);
    LaunchCosts(s, f, p, c, t);
    WeightAtTwo(s.heap, t.heap, s.next, f, c);
  }

  lemma LaunchHas(s: State, f: FrameId, p: FrameId)
    requires At(s, f) && IsRunning(s, f) && s.heap[f].code == Launch(p)
    ensures p in s.heap && s.heap[p].point.AtCross? && s.heap[p].point.held.Some?
    ensures var c := s.heap[p].point.held.value;
      c in s.heap && c != f && c != p && p != f && c < s.next && f < s.next && p < s.next
  {
    Here(s, f);
    assert CarrierOk(s, f) && HoldOk(s, p, Crossing);
    var c := s.heap[p].point.held.value;
    assert OwnerOk(s, c) && FrameOk(s, c) && FrameOk(s, p);
  }

  lemma LaunchLeaves(s: State, f: FrameId, p: FrameId, c: FrameId, t: State)
    requires IsRunning(s, f) && s.heap[f].code == Launch(p) && StepLaunch(s, f, p) == Next(t)
    requires c == s.heap[p].point.held.value
    ensures t.next == s.next
    ensures forall g: FrameId | g != f && g != c :: At1(s.heap, g) == At1(t.heap, g)
  {
    assert At1(t.heap, p) == At1(s.heap, p);
  }

  lemma LaunchCosts(s: State, f: FrameId, p: FrameId, c: FrameId, t: State)
    requires IsRunning(s, f) && s.heap[f].code == Launch(p) && StepLaunch(s, f, p) == Next(t)
    requires c == s.heap[p].point.held.value
    ensures At1(t.heap, f) + At1(t.heap, c) + |t.stack| < At1(s.heap, f) + At1(s.heap, c) + |s.stack|
  {
    hide YoungOk;
  }

  lemma HandBackLighter(s: State, f: FrameId, t: State)
    requires At(s, f) && f in s.heap && s.heap[f].code.HandBack?
    requires StepBody(s, f) == Next(t)
    ensures Weight(t) < Weight(s)
  {
    hide YoungOk, TagsOk, QueuesOk, StackOk, ActivesOk;
    Here(s, f);
    var p := s.heap[f].code.waiter;
    assert CarrierOk(s, f) && FrameOk(s, p);
    WeightAt2(s, t, f, p);
  }

  // ---- calls coming back ----

  lemma ResumerLighter(s: State, f: FrameId, t: State)
    requires AtCall(s) && Top(s) == Resumer(f) && StepResumer(s, f) == Next(t)
    ensures Weight(t) < Weight(s)
  {
    CallHere(s, f);
    if Ended(s, f) && s.heap[f].owner.HeldBy? {
      ResumeGoesUp(s, f, s.heap[f].owner.frame, t);
      ParentLighter(s, f, s.heap[f].owner.frame, t);
    } else {
      ResumeIsOver(s, f, t);
    }
  }

  /** The parent goes on with the result of f. */
  lemma ResumeGoesUp(s: State, f: FrameId, p: FrameId, t: State)
    requires AtCall(s) && Top(s) == Resumer(f) && StepResumer(s, f) == Next(t)
    requires f in s.heap && s.heap[f].point.Final? && s.heap[f].owner == HeldBy(p, Awaiting)
    ensures Took(s, t, p, f) && t.next == s.next && p < s.next && f < s.next
    ensures t.stack == Pop(s.stack) + [Resumer(p), Body(p)]
  {
    CallHere(s, f);
    assert FrameOk(s, f) && FrameOk(s, p);
  }

  /** Nobody waits for f: the call is over. */
  lemma ResumeIsOver(s: State, f: FrameId, t: State)
    requires AtCall(s) && Top(s) == Resumer(f) && StepResumer(s, f) == Next(t)
    requires f in s.heap && !(Ended(s, f) && s.heap[f].owner.HeldBy?)
    ensures Weight(t) < Weight(s)
  {
    CallHere(s, f);
    assert FrameOk(s, f);
    WeightAt1(s, t, f);
  }

  lemma ParentLighter(s: State, f: FrameId, p: FrameId, t: State)
    requires s.stack != [] && Took(s, t, p, f) && t.next == s.next && p < s.next && f < s.next
    requires t.stack == Pop(s.stack) + [Resumer(p), Body(p)]
    ensures Weight(t) < Weight(s)
  {
    WeightAt2(s, t, f, p);
  }

  lemma AwaiterLighter(s: State, p: FrameId, c: FrameId, t: State)
    requires AtCall(s) && Top(s) == Awaiter(p, c) && StepAwaiter(s, p, c) == Next(t)
    ensures Weight(t) < Weight(s)
  {
    CallHere(s, c);
    assert HoldOk(s, p, Awaiting) && FrameOk(s, p) && FrameOk(s, c);
    WeightAt2(s, t, p, c);
  }

  lemma StarterLighter(s: State, p: FrameId, c: FrameId, t: State)
    requires AtCall(s) && Top(s) == Starter(p, c) && StepStarter(s, p, c) == Next(t)
    ensures Weight(t) < Weight(s)
  {
    CallHere(s, c);
    assert HoldOk(s, p, Starting) && FrameOk(s, p) && FrameOk(s, c);
    WeightAt2(s, t, p, c);
  }

  /** Every step of a segment uses up weight. */
  lemma StepIsLighter(s: State)
    requires Inv(s) && s.stack != []
    ensures Step(s).Next? && Inv(Step(s).state) && Weight(Step(s).state) < Weight(s)
  {
    StepKeepsInv(s);
    var t := Step(s).state;
    match Top(s)
    case Resumer(f) => ResumerLighter(s, f, t);
    case Awaiter(p, c) => AwaiterLighter(s, p, c, t);
    case Starter(p, c) => StarterLighter(s, p, c, t);
    case Body(f) => BodyLighter(s, f, t);
  }

  lemma BodyLighter(s: State, f: FrameId, t: State)
    requires At(s, f) && StepBody(s, f) == Next(t)
    ensures Weight(t) < Weight(s)
  {
    Here(s, f);
    match s.heap[f].code
    case Make(_, _, _, _) => MakeLighter(s, f, t);
    case Await(_, _) => AwaitLighter(s, f, t);
    case Start(_, _) => StartLighter(s, f, t);
    case Cross(_, _, _) => CrossLighter(s, f, t);
    case Detach(_, _, _) => DetachLighter(s, f, t);
    case Launch(p) => LaunchLighter(s, f, p, t);
    case HandBack(_) => HandBackLighter(s, f, t);
    case _ => PlainStep(s, f, t);
  }

  // ---- segments and runs ----

  /** The running segment carried to its end: the outermost Resume has returned. */
  ghost function Settle(s: State): (t: State)
    requires Inv(s)
    ensures Inv(t) && t.stack == []
    decreases Weight(s)
  {
    if s.stack == [] then s else
    StepIsLighter(s);
    Settle(Step(s).state)
  }

  /** Greedy Resume terminates: a segment is over after at most Weight(s) steps. */
  lemma {:induction false} SegmentEnds(s: State) returns (events: seq<Event>)
    requires Inv(s)
    ensures |events| + Weight(Settle(s)) <= Weight(s)
    ensures forall e | e in events :: e == Internal
    ensures IsRun(s, events, Settle(s))
    decreases Weight(s)
  {
    if s.stack == [] {
      events := [];
    } else {
      StepIsLighter(s);
      var rest := SegmentEnds(Step(s).state);
      events := [Internal] + rest;
    }
  }

  /** Work: a step of a segment, a completion delivered, a job taken from a ready queue. */
  predicate IsWork(e: Event) {
    e.Internal? || e.Tick? || e.NextReady?
  }

  function Work(events: seq<Event>): nat {
    if events == [] then 0 else (if IsWork(events[0]) then 1 else 0) + Work(events[1..])
  }

  /** What the roots spawned from outside bring along. */
  function Arrivals(events: seq<Event>): nat {
    if events == [] then 0
    else (if events[0].SpawnRoot? then 8 * Size(events[0].body) + 4 else 0) + Arrivals(events[1..])
  }

  /** What an event brings in, less the work it does. */
  ghost predicate Accounted(s: State, e: Event, t: State) {
    Weight(t) + (if IsWork(e) then 1 else 0) <= Weight(s) + Arrivals([e])
  }

  lemma RootWeight(s: State, on: Executor, body: Code, t: State)
    requires Idle(s) && WellFormed(body, on, map[]) && Apply(s, SpawnRoot(on, body)) == Next(t)
    ensures Accounted(s, SpawnRoot(on, body), t)
  {
    hide WellFormed, First, LauncherOk, YoungOk, TagsOk, QueuesOk;
    NextIsFree(s);
    forall g: FrameId | g < s.next ensures At1(s.heap, g) == At1(t.heap, g) {}
    WeightSame(s.heap, t.heap, s.next);
  }

  lemma TickWeight(s: State, f: FrameId, ok: bool, t: State)
    requires Idle(s) && f in s.tags && Apply(s, Tick(f, ok)) == Next(t)
    ensures Accounted(s, Tick(f, ok), t)
  {
    TickStep(s, f, ok);
    assert FrameOk(s, f);
    WeightAt1(s, t, f);
  }

  lemma NextReadyWeight(s: State, n: nat, t: State)
    requires Idle(s) && Enabled(s, NextReady(n)) && Apply(s, NextReady(n)) == Next(t)
    ensures Accounted(s, NextReady(n), t)
  {
    NextReadyStep(s, n);
    assert FrameOk(s, s.updating[n][0]);
    WeightAt1(s, t, s.updating[n][0]);
  }

  lemma EventWeight(s: State, e: Event)
    requires Inv(s) && Enabled(s, e)
    ensures Apply(s, e).Next? && Inv(Apply(s, e).state) && Accounted(s, e, Apply(s, e).state)
  {
    ApplyKeepsInv(s, e);
    var t := Apply(s, e).state;
    match e
    case Internal => StepIsLighter(s);
    case SpawnRoot(on, body) => RootWeight(s, on, body, t);
    case Tick(f, ok) => TickWeight(s, f, ok, t);
    case NextReady(n) => NextReadyWeight(s, n, t);
    case BeginUpdate(_) =>
    case SwapReady(_) =>
    case EndUpdate(_) =>
  }

  /** Update terminates, and so does everything else: however events interleave, the work done in a
      run is bounded by the programs that were there and those spawned from outside. */
  lemma {:induction false} WorkIsBounded(s: State, events: seq<Event>, t: State)
    requires Inv(s) && IsRun(s, events, t)
    ensures Inv(t) && Weight(t) + Work(events) <= Weight(s) + Arrivals(events)
    decreases |events|
  {
    if events != [] {
      EventWeight(s, events[0]);
      assert Arrivals(events) == Arrivals(events[..1]) + Arrivals(events[1..]) && events[..1] == [events[0]];
      WorkIsBounded(Apply(s, events[0]).state, events[1..], t);
    }
  }
}
