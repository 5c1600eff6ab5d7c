/** The scheduler itself: recursive Resume, the awaitables and the two executors, updating the frames
    in place. Every method is proved to leave exactly the state the transition system reaches. */
module Scheduler {
  import opened Programs
  import opened Machine
  import opened Invariants
  import opened CallLemmas
  import opened StackLemmas
  import opened Steps
  import opened CallSteps
  import opened FirstSegments
  import opened Events
  import opened Weights
  import opened Segments
  import opened Theorems

  // ---- running a segment down to h native calls ----

  /** The state in which the native call at height h of the running segment has come back. */
  ghost function RunTo(s: State, h: nat): (t: State)
    requires Inv(s) && h <= |s.stack|
    ensures Inv(t) && t.stack == s.stack[..h] && Weight(t) <= Weight(s)
    decreases Weight(s)
  {
    if |s.stack| == h then s else
    StepIsLighter(s);
    StepKeepsLow(s, h);
    RunTo(Step(s).state, h)
  }

  lemma RunToStep(s: State, h: nat)
    requires Inv(s) && h < |s.stack|
    ensures Step(s).Next? && Inv(Step(s).state) && Weight(Step(s).state) < Weight(s) && h <= |Step(s).state.stack|
    ensures RunTo(s, h) == RunTo(Step(s).state, h)
  {
    StepIsLighter(s);
    StepKeepsLow(s, h);
  }

  lemma {:induction false} RunToTwice(s: State, k: nat, h: nat)
    requires Inv(s) && h <= k <= |s.stack|
    ensures RunTo(RunTo(s, k), h) == RunTo(s, h)
    decreases Weight(s)
  {
    if |s.stack| > k {
      RunToStep(s, k);
      RunToStep(s, h);
      RunToTwice(Step(s).state, k, h);
    }
  }

  /** From s to t the body of f went on, and is still running or has given control back. */
  ghost predicate GoesOn(s: State, t: State, f: FrameId, running: bool)
    requires At(s, f)
  {
    if running then t.stack == s.stack && At(t, f) && RunTo(t, |s.stack| - 1) == RunTo(s, |s.stack| - 1)
    else t == RunTo(s, |s.stack| - 1)
  }

  lemma GoesFurther(s: State, t: State, v: State, f: FrameId, running: bool)
    requires At(s, f) && GoesOn(s, t, f, true) && GoesOn(t, v, f, running)
    ensures GoesOn(s, v, f, running)
  {
  }

  lemma ResumeShape(s: State, job: FrameId) returns (u: State)
    requires Machine.Resume(s, job).Next?
    ensures Machine.Resume(s, job) == Next(u) && Enter(s.(stack := s.stack + [Resumer(job)]), job) == Next(u)
    ensures Top(u) == Body(job) && |u.stack| == |s.stack| + 2
    ensures u.stack[..|s.stack| + 1] == s.stack + [Resumer(job)] && u.stack[..|s.stack|] == s.stack
    ensures u.updating == s.updating
  {
    u := Machine.Resume(s, job).state;
    assert u.stack == s.stack + [Resumer(job)] + [Body(job)];
  }

  /** The state after the next operation of f. */
  lemma StepOf(s: State, f: FrameId) returns (u: State)
    requires At(s, f)
    ensures StepBody(s, f) == Next(u) && IsRunning(s, f) && Inv(u)
    ensures Weight(u) < Weight(s) && |s.stack| - 1 <= |u.stack|
    ensures RunTo(s, |s.stack| - 1) == RunTo(u, |s.stack| - 1)
  {
    Here(s, f);
    RunToStep(s, |s.stack| - 1);
    u := Step(s).state;
  }

  /** From u, the state after its operation, the body of f went on to t. */
  ghost predicate Reaches(u: State, t: State, f: FrameId, h: nat, running: bool) {
    && Inv(u) && h <= |u.stack|
    && if running then |t.stack| == h + 1 && At(t, f) && RunTo(t, h) == RunTo(u, h) && Weight(t) <= Weight(u)
       else t == RunTo(u, h)
  }

  lemma Concludes(s: State, u: State, t: State, f: FrameId, running: bool)
    requires At(s, f) && StepBody(s, f) == Next(u) && Inv(u) && Weight(u) < Weight(s) && |s.stack| - 1 <= |u.stack|
    requires RunTo(s, |s.stack| - 1) == RunTo(u, |s.stack| - 1)
    requires Reaches(u, t, f, |s.stack| - 1, running)
    requires running ==> t.stack == s.stack
    ensures GoesOn(s, t, f, running) && (running ==> Weight(t) < Weight(s))
  {
  }

  /** The call on top of the stack comes back to its host. */
  ghost predicate IsBack(back: State, call: Activation) {
    AtCall(back) && Top(back) == call
  }

  ghost function Without(back: State): State
    requires back.stack != []
  {
    back.(stack := Pop(back.stack))
  }

  lemma AwaiterReturns(back: State, f: FrameId, c: FrameId)
    requires IsBack(back, Awaiter(f, c))
    ensures c in back.heap
    ensures Step(back) == if back.heap[c].point.Final? then Enter(Without(back), f) else Next(Without(back))
  {
    CallHere(back, c);
    assert EntryOk(back, Awaiter(f, c));
  }

  lemma StarterReturns(back: State, f: FrameId, c: FrameId)
    requires IsBack(back, Starter(f, c))
    ensures Step(back) == Enter(Without(back), f)
  {
    CallHere(back, c);
    assert EntryOk(back, Starter(f, c));
  }

  /** What Resume leaves of a finished job. */
  ghost function Cleared(back: State, job: FrameId): State
    requires back.stack != [] && job in back.heap
  {
    var popped := Without(back);
    if back.heap[job].destroyOnDone then popped.(heap := popped.heap - {job}) else popped
  }

  lemma ResumerReturns(back: State, job: FrameId)
    requires IsBack(back, Resumer(job))
    ensures job in back.heap
    ensures Step(back) ==
      if !back.heap[job].point.Final? then Next(Without(back))
      else if back.heap[job].parent.Some? then Machine.Resume(Cleared(back, job), back.heap[job].parent.value)
      else Next(Cleared(back, job))
  {
    CallHere(back, job);
  }

  lemma EnterPushes(s: State, f: FrameId)
    requires Enter(s, f).Next?
    ensures Enter(s, f).state.stack == s.stack + [Body(f)]
  {
  }

  /** The host f goes on: where that leads. */
  lemma HostEntered(u: State, back: State, f: FrameId)
    requires Inv(u) && |u.stack| >= 2 && back == RunTo(u, |u.stack| - 1)
    requires Step(back) == Enter(Without(back), f)
    ensures Enter(Without(back), f).Next? && Reaches(u, Enter(Without(back), f).state, f, |u.stack| - 2, true)
    ensures Enter(Without(back), f).state.stack == Pop(back.stack) + [Body(f)]
  {
    var h := |u.stack| - 2;
    RunToTwice(u, h + 1, h);
    RunToStep(back, h);
    EnterPushes(Without(back), f);
  }

  /** The host stays suspended. */
  lemma HostLeft(u: State, back: State)
    requires Inv(u) && |u.stack| >= 2 && back == RunTo(u, |u.stack| - 1) && Step(back) == Next(Without(back))
    ensures Without(back) == RunTo(u, |u.stack| - 2)
  {
    hide Inv, Step;
    RunToTwice(u, |u.stack| - 1, |u.stack| - 2);
    RunToStep(back, |u.stack| - 2);
  }

  /** The body of c, entered through `call`, has come back. */
  lemma CalleeBack(u: State, back: State, low: seq<Activation>, call: Activation, c: FrameId)
    requires Inv(u) && u.stack == low + [call, Body(c)] && back == RunTo(u, |u.stack| - 1) && !call.Body?
    ensures IsBack(back, call) && Pop(back.stack) == low && |back.stack| == |low| + 1
  {
    assert back.stack == low + [call];
  }

  /** Spawning leaves the calls below alone. */
  lemma BodyStays(s: State, on: Executor, job: FrameId, u: State)
    requires Machine.SpawnOn(s, on, job) == Next(u)
    ensures |s.stack| <= |u.stack| && u.stack[..|s.stack|] == s.stack
  {
    if on.CompletionQueue? { var v := ResumeShape(s, job); }
  }

  /** Whether f's frame is written before the co_await or with it makes no difference. */
  lemma AwaitWritten(s: State, f: FrameId, fr: Frame, c: FrameId)
    requires s.stack != [] && c in s.heap && c != f
    ensures AwaitTask(s.(heap := s.heap[f := fr]), f, fr, c) == AwaitTask(s, f, fr, c)
  {
    if s.heap[c].point.Final? { Overwritten(s.heap, f, fr, fr.(vals := fr.vals + [s.heap[c].point.result])); }
    Overwritten(s.heap, f, fr, fr.(point := AtTask(c)));
  }

  lemma Overwritten(heap: map<FrameId, Frame>, f: FrameId, fr: Frame, to: Frame)
    ensures heap[f := fr][f := to] == heap[f := to]
  {
  }

  /** The three kinds of operation: they end the body, leave it running, or pass on where they lead. */
  lemma OperationDone(s: State, u: State, f: FrameId, running: bool)
    requires At(s, f) && Inv(u) && u.stack == if running then s.stack else Pop(s.stack)
    ensures Reaches(u, u, f, |s.stack| - 1, running)
  {
  }

  // ---- what the entry points add to a run ----

  ghost predicate AllInternal(events: seq<Event>) {
    forall e | e in events :: e == Internal
  }

  lemma AfterEvent(s: State, e: Event) returns (u: State)
    requires Inv(s) && Enabled(s, e)
    ensures Apply(s, e) == Next(u) && Inv(u)
    ensures IsWork(e) ==> Weight(u) < Weight(s)
    ensures !e.SpawnRoot? ==> Weight(u) <= Weight(s)
  {
    EventWeight(s, e);
    assert [e][1..] == [] && Arrivals([]) == 0;
    u := Apply(s, e).state;
  }

  /** What the events of Update's loop leave, written out. */
  lemma AfterLoopEvent(s: State, e: Event) returns (u: State)
    requires Idle(s) && Enabled(s, e) && (e.BeginUpdate? || e.SwapReady? || e.EndUpdate?)
    ensures Apply(s, e) == Next(u) && Idle(u) && Weight(u) <= Weight(s)
    ensures match e
      case BeginUpdate(n) => u == s.(updating := s.updating[n := []], young := map[])
      case SwapReady(n) =>
        u == s.(updating := s.updating[n := Get(s.ready, n)], ready := s.ready[n := []], young := map[])
      case EndUpdate(n) => u == s.(updating := s.updating - {n}, young := map[])
      case _ => true
  {
    u := AfterEvent(s, e);
  }

  /** The running segment as a run of its own. */
  lemma {:induction false} SettlingRun(u: State) returns (events: seq<Event>)
    requires Inv(u)
    ensures IsRun(u, events, RunTo(u, 0)) && AllInternal(events)
    decreases Weight(u)
  {
    if u.stack == [] {
      events := [];
    } else {
      RunToStep(u, 0);
      var rest := SettlingRun(Step(u).state);
      events := [Internal] + rest;
    }
  }

  lemma SegmentRun(s: State, e: Event, u: State) returns (events: seq<Event>)
    requires Enabled(s, e) && Apply(s, e) == Next(u) && Inv(u)
    ensures IsRun(s, events, RunTo(u, 0)) && events != [] && events[0] == e && AllInternal(events[1..])
  {
    var rest := SettlingRun(u);
    events := [e] + rest;
    assert events[1..] == rest;
  }

  lemma {:induction false} RunsCompose(s: State, first: seq<Event>, t: State, second: seq<Event>, v: State)
    requires IsRun(s, first, t) && IsRun(t, second, v)
    ensures IsRun(s, first + second, v)
    decreases |first|
  {
    if first == [] {
      assert first + second == second;
    } else {
      RunsCompose(Apply(s, first[0]).state, first[1..], t, second, v);
      assert (first + second)[1..] == first[1..] + second;
    }
  }

  lemma Then(start: State, before: seq<Event>, s: State, e: Event, u: State) returns (events: seq<Event>)
    requires IsRun(start, before, s) && Enabled(s, e) && Apply(s, e) == Next(u)
    ensures events == before + [e] && IsRun(start, events, u)
  {
    events := before + [e];
    assert IsRun(u, [], u);
    assert [e][1..] == [];
    RunsCompose(start, before, s, [e], u);
  }

  lemma SegmentThen(start: State, before: seq<Event>, s: State, e: Event, u: State) returns (events: seq<Event>)
    requires IsRun(start, before, s) && Enabled(s, e) && Apply(s, e) == Next(u) && Inv(u)
    ensures IsRun(start, events, RunTo(u, 0)) && before <= events
    ensures |events| > |before| && events[|before|] == e && AllInternal(events[|before| + 1..])
  {
    var rest := SegmentRun(s, e, u);
    RunsCompose(start, before, s, rest, RunTo(u, 0));
    events := before + rest;
    assert events[|before| + 1..] == rest[1..];
  }

  // ---- what happens in an Update ----

  /** Within Update's loop on n: a swap, a job of n, or a step of the segment that job began. */
  predicate InLoop(n: nat, e: Event) {
    e == Internal || e == SwapReady(n) || e == NextReady(n)
  }

  /** The loop on n and nothing else: no completion is delivered, no root spawned and no other executor driven. */
  ghost predicate OnlyLoop(n: nat, events: seq<Event>) {
    forall e | e in events :: InLoop(n, e)
  }

  /** All of an Update of n so far. */
  ghost predicate Begun(n: nat, events: seq<Event>) {
    events != [] && events[0] == BeginUpdate(n) && OnlyLoop(n, events[1..])
  }

  /** An Update of n from its beginning to its return. */
  ghost predicate IsUpdate(n: nat, events: seq<Event>) {
    && |events| >= 2 && events[|events| - 1] == EndUpdate(n)
    && Begun(n, events[..|events| - 1])
  }

  lemma LoopGrows(n: nat, before: seq<Event>, events: seq<Event>)
    requires Begun(n, before) && before <= events && OnlyLoop(n, events[|before|..])
    ensures Begun(n, events)
  {
    assert events[1..] == before[1..] + events[|before|..];
  }

  lemma SegmentInLoop(n: nat, before: seq<Event>, events: seq<Event>)
    requires Begun(n, before) && before <= events && |events| > |before|
    requires InLoop(n, events[|before|]) && AllInternal(events[|before| + 1..])
    ensures Begun(n, events)
  {
    assert events[|before|..] == [events[|before|]] + events[|before| + 1..];
    LoopGrows(n, before, events);
  }

  lemma ThenInLoop(n: nat, start: State, before: seq<Event>, s: State, e: Event, u: State) returns (events: seq<Event>)
    requires IsRun(start, before, s) && Begun(n, before) && InLoop(n, e) && Enabled(s, e) && Apply(s, e) == Next(u)
    ensures IsRun(start, events, u) && before <= events && Begun(n, events)
  {
    events := Then(start, before, s, e, u);
    assert events[|before| + 1..] == [];
    SegmentInLoop(n, before, events);
  }

  lemma BeginsUpdate(n: nat, s: State, u: State) returns (events: seq<Event>)
    requires Enabled(s, BeginUpdate(n)) && Apply(s, BeginUpdate(n)) == Next(u)
    ensures IsRun(s, events, u) && Begun(n, events)
  {
    events := [BeginUpdate(n)];
    assert events[1..] == [];
  }

  lemma EndsUpdate(n: nat, start: State, before: seq<Event>, s: State, u: State) returns (events: seq<Event>)
    requires IsRun(start, before, s) && Begun(n, before)
    requires Enabled(s, EndUpdate(n)) && Apply(s, EndUpdate(n)) == Next(u)
    ensures IsRun(start, events, u) && IsUpdate(n, events)
  {
    events := Then(start, before, s, EndUpdate(n), u);
    assert events[..|events| - 1] == before;
  }

  /** In each state the loop on n goes on in at most one way, or it ends. */
  lemma LoopHasNoChoice(s: State, n: nat, d: Event, e: Event)
    requires Enabled(s, d) && (InLoop(n, d) || d == EndUpdate(n))
    requires Enabled(s, e) && (InLoop(n, e) || e == EndUpdate(n))
    ensures d == e
  {
  }

  lemma {:induction false} LoopIsDetermined(s: State, n: nat, first: seq<Event>, t: State, second: seq<Event>, v: State)
    requires IsRun(s, first, t) && first != [] && first[|first| - 1] == EndUpdate(n)
    requires OnlyLoop(n, first[..|first| - 1])
    requires IsRun(s, second, v) && second != [] && second[|second| - 1] == EndUpdate(n)
    requires OnlyLoop(n, second[..|second| - 1])
    ensures first == second && t == v
    decreases |first|
  {
    assert |first| > 1 ==> first[0] == first[..|first| - 1][0];
    assert |second| > 1 ==> second[0] == second[..|second| - 1][0];
    LoopHasNoChoice(s, n, first[0], second[0]);
    if |first| > 1 && |second| > 1 {
      OnlyLoopTail(n, first);
      OnlyLoopTail(n, second);
      LoopIsDetermined(Apply(s, first[0]).state, n, first[1..], t, second[1..], v);
    }
  }

  lemma OnlyLoopTail(n: nat, events: seq<Event>)
    requires |events| > 1 && OnlyLoop(n, events[..|events| - 1])
    ensures events[1..][..|events[1..]| - 1] == events[1..|events| - 1] && OnlyLoop(n, events[1..|events| - 1])
  {
    assert events[..|events| - 1] == [events[0]] + events[1..|events| - 1];
  }

  /** What an Update does is determined: there is one run for it from a given state. */
  lemma UpdateIsDetermined(s: State, n: nat, first: seq<Event>, t: State, second: seq<Event>, v: State)
    requires IsRun(s, first, t) && IsUpdate(n, first) && IsRun(s, second, v) && IsUpdate(n, second)
    ensures first == second && t == v
  {
    var u := Apply(s, BeginUpdate(n)).state;
    assert first[0] == first[..|first| - 1][0] && second[0] == second[..|second| - 1][0];
    assert first[1..][..|first[1..]| - 1] == first[..|first| - 1][1..];
    assert second[1..][..|second[1..]| - 1] == second[..|second| - 1][1..];
    LoopIsDetermined(u, n, first[1..], t, second[1..], v);
  }

  /** A segment does not touch the batches of the updates in progress. */
  lemma {:induction false} KeysKept(u: State, h: nat)
    requires Inv(u) && h <= |u.stack|
    ensures RunTo(u, h).updating == u.updating
    decreases Weight(u)
  {
    if |u.stack| > h {
      RunToStep(u, h);
      StepKeepsBatches(u);
      KeysKept(Step(u).state, h);
    }
  }

  lemma StepKeepsBatches(s: State)
    requires Inv(s) && s.stack != [] && Step(s).Next?
    ensures Step(s).state.updating == s.updating
  {
    if Top(s).Body? {
      var f := Top(s).frame;
      Here(s, f);
      if Spawns(s.heap[f].code) { SpawnKeepsBatches(s, f); } else { BodyKeepsQueues(s, f, Step(s).state); }
    } else {
      CallKeepsQueues(s, Step(s).state);
    }
  }

  lemma SpawnKeepsBatches(s: State, f: FrameId)
    requires IsRunning(s, f) && Spawns(s.heap[f].code) && StepBody(s, f).Next?
    ensures StepBody(s, f).state.updating == s.updating
  {
    match s.heap[f].code
    case Cross(on, slot, next) => assert StepBody(s, f) == StepCross(s, f, on, slot, next);
    case Detach(on, slot, next) => assert StepBody(s, f) == StepDetach(s, f, on, slot, next);
    case HandBack(p) => assert StepBody(s, f) == StepHandBack(s, f, p);
  }

  class Runtime {
    var heap: map<FrameId, Frame>
    var next: FrameId
    var ready: map<nat, seq<FrameId>>
    var updating: map<nat, seq<FrameId>>
    var tags: multiset<FrameId>
    ghost var stack: seq<Activation>
    ghost var young: map<FrameId, Option<Value>>

    ghost function Now(): State
      reads this
    {
      State(heap, next, ready, updating, tags, stack, young)
    }

    constructor ()
      ensures Now() == EMPTY && Idle(Now())
    {
      heap, next, ready, updating, tags, stack, young := map[], 0, map[], map[], multiset{}, [], map[];
      new;
      EmptyIsGood(_ => true);
    }

    // ---- async_game::Executor::MarkReady ----

    method MarkReady(n: nat, job: FrameId)
      modifies this`ready
      ensures Now() == Machine.MarkReady(old(Now()), n, job)
    {
      ready := ready[n := (if n in ready then ready[n] else []) + [job]];
    }

    // ---- the pending await_resume, then the body ----

    method AwaitResume(f: FrameId)
      requires Enter(Now(), f).Next?
      modifies this`heap, this`stack, this`young
      ensures Now() == Enter(old(Now()), f).state
    {
      var fr := heap[f];
      match fr.point {
        case Initial =>
          heap := heap[f := fr.(point := Running)];
          young := young[f := FirstOf(fr.code, fr.home)];
        case AtTask(c) =>
          heap := heap[f := fr.(vals := fr.vals + [heap[c].point.result], point := Running)];
          heap := heap - {c};
        case AtStart(slot, c) =>
          heap := heap[f := fr.(slots := fr.slots[slot := c], point := Running)];
          heap := heap[c := heap[c].(owner := HeldBy(f, Slot(slot)))];
        case AtOperation(_, ok) =>
          heap := heap[f := fr.(vals := fr.vals + [Flag(ok)], point := Running)];
        case AtCross(_, _, _, _, delivered) =>
          heap := heap[f := fr.(vals := fr.vals + [delivered.value], point := Running)];
      }
      stack := stack + [Body(f)];
    }

    // ---- async_lib::Resume ----

    method Resume(job: FrameId)
      requires Machine.Resume(Now(), job).Next? && Inv(Machine.Resume(Now(), job).state)
      modifies this
      ensures Now() == RunTo(old(Machine.Resume(Now(), job).state), |old(stack)|)
      decreases Weight(Machine.Resume(Now(), job).state), 2
    {
      hide Inv, Step, Enter;
      ghost var u := ResumeShape(Now(), job);
      stack := stack + [Resumer(job)];
      // job.handle.resume()
      AwaitResume(job);
      assert Now() == u;
      RunBody(job);
      assert stack == old(stack) + [Resumer(job)];
      RunToTwice(u, |stack|, |stack| - 1);
      WhenResumed(job);
    }

    /** The rest of Resume, once handle.resume() came back. */
    method WhenResumed(job: FrameId)
      requires AtCall(Now()) && Top(Now()) == Resumer(job)
      modifies this
      ensures Now() == RunTo(old(Now()), |old(stack)| - 1)
      decreases Weight(Now()), 1
    {
      hide Inv, Step, Enter;
      ghost var back := Now();
      ResumerReturns(back, job);
      RunToStep(back, |stack| - 1);
      stack := Pop(stack);
      // if (job.handle.done())
      if heap[job].point.Final? {
        var parent := heap[job].parent;
        if heap[job].destroyOnDone {
          heap := heap - {job};
        }
        assert Now() == Cleared(back, job);
        if parent.Some? {
          Resume(parent.value);
        }
      }
    }

    /** The body of f runs until it suspends or finishes. */
    method RunBody(f: FrameId)
      requires At(Now(), f)
      modifies this
      ensures Now() == RunTo(old(Now()), |old(stack)| - 1)
      decreases Weight(Now()), 1
    {
      hide Inv, Step, Enter;
      ghost var s := Now();
      var running := true;
      while running
        invariant GoesOn(s, Now(), f, running)
        decreases running, Weight(Now())
        invariant running ==> Weight(Now()) <= Weight(s)
      {
        ghost var t := Now();
        running := Execute(f);
        GoesFurther(s, t, Now(), f, running);
      }
    }

    // ---- TaskAwait ----

    /** co_await of the task c, which has left its variable: u is the state once its first part is done. */
    method CoAwait(f: FrameId, c: FrameId, ghost u: State) returns (running: bool)
      requires stack != [] && Top(Now()) == Body(f) && f in heap && c in heap && c != f
      requires AwaitTask(Now(), f, heap[f], c) == Next(u) && Inv(u)
      modifies this
      ensures Reaches(u, Now(), f, |old(stack)| - 1, running) && (running ==> stack == old(stack))
      decreases Weight(u), 4
    {
      hide Inv, Step, Enter;
      // await_ready
      if heap[c].point.Final? {
        heap := heap[f := heap[f].(vals := heap[f].vals + [heap[c].point.result])];
        heap := heap - {c};
        assert Now() == u;
        running := true;
      } else {
        var suspended := AwaitSuspend(f, c, u);
        if !suspended {
          AwaitResume(f);
        }
        running := !suspended;
      }
    }

    method AwaitSuspend(f: FrameId, c: FrameId, ghost u: State) returns (suspended: bool)
      requires stack != [] && Top(Now()) == Body(f) && f in heap && c in heap && c != f
      requires AwaitTask(Now(), f, heap[f], c) == Next(u) && Inv(u) && !heap[c].point.Final?
      modifies this
      ensures stack == Pop(old(stack))
      ensures suspended ==> Reaches(u, Now(), f, |stack|, false)
      ensures !suspended ==> Enter(Now(), f).Next? && Reaches(u, Enter(Now(), f).state, f, |stack|, true)
      ensures !suspended ==> Enter(Now(), f).state.stack == old(stack)
      decreases Weight(u), 3
    {
      hide Inv, Step, Enter;
      ghost var low := Pop(stack);
      assert stack == low + [Body(f)];
      heap := heap[f := heap[f].(point := AtTask(c))];
      // the task has not been started yet
      if heap[c].executor.None? {
        young := young[c := FirstOf(heap[c].code, heap[c].home)];
        heap := heap[c := heap[c].(parent := Some(f), executor := heap[f].executor, point := Running,
                                   owner := HeldBy(f, Awaiting))];
        stack := low + [Awaiter(f, c), Body(c)];
        suspended := RunChild(f, c, low, u);
      } else {
        heap := heap[c := heap[c].(parent := Some(f), owner := HeldBy(f, Awaiting))];
        stack := low;
        suspended := true;
      }
    }

    /** The rest of await_suspend for a task started inline: cur.resume(), then !cur.done(). */
    method RunChild(f: FrameId, c: FrameId, ghost low: seq<Activation>, ghost u: State) returns (suspended: bool)
      requires Now() == u && Inv(u) && stack == low + [Awaiter(f, c), Body(c)]
      modifies this
      ensures stack == low
      ensures suspended ==> Reaches(u, Now(), f, |stack|, false)
      ensures !suspended ==> Enter(Now(), f).Next? && Reaches(u, Enter(Now(), f).state, f, |stack|, true)
      ensures !suspended ==> Enter(Now(), f).state.stack == low + [Body(f)]
      decreases Weight(u), 2
    {
      hide Inv, Step, Enter;
      RunBody(c);
      ghost var back := Now();
      CalleeBack(u, back, low, Awaiter(f, c), c);
      AwaiterReturns(back, f, c);
      if heap[c].point.Final? { HostEntered(u, back, f); } else { HostLeft(u, back); }
      suspended := !heap[c].point.Final?;
      stack := Pop(stack);
    }

    // ---- StartSubroutine ----

    method StartSubroutine(f: FrameId, slot: nat, rest: Code, ghost u: State)
      requires At(Now(), f) && IsRunning(Now(), f) && StepStart(Now(), f, slot, rest) == Next(u) && Inv(u)
      modifies this
      ensures Reaches(u, Now(), f, |old(stack)| - 1, true) && stack == old(stack)
      decreases Weight(u), 3
    {
      hide Inv, Step, Enter;
      ghost var low := Pop(stack);
      assert stack == low + [Body(f)];
      var c := heap[f].slots[slot];
      heap := heap[f := heap[f].(code := rest, slots := heap[f].slots - {slot}, types := heap[f].types[slot := Started],
                                 point := AtStart(slot, c))];
      young := young[c := FirstOf(heap[c].code, heap[c].home)];
      heap := heap[c := heap[c].(executor := heap[f].executor, point := Running, owner := HeldBy(f, Starting))];
      stack := low + [Starter(f, c), Body(c)];
      RunStarted(f, c, low, u);
    }

    /** The rest of StartSubroutine::await_suspend: cur.resume(), then false. */
    method RunStarted(f: FrameId, c: FrameId, ghost low: seq<Activation>, ghost u: State)
      requires Now() == u && Inv(u) && stack == low + [Starter(f, c), Body(c)]
      modifies this
      ensures Reaches(u, Now(), f, |low|, true) && stack == low + [Body(f)]
      decreases Weight(u), 2
    {
      hide Inv, Step, Enter;
      RunBody(c);
      ghost var back := Now();
      CalleeBack(u, back, low, Starter(f, c), c);
      StarterReturns(back, f, c);
      HostEntered(u, back, f);
      stack := Pop(stack);
      AwaitResume(f);
    }

    // ---- Spawn ----

    /** executor.Spawn(job): a game executor queues it, a completion-queue executor resumes it. */
    method SpawnOn(on: Executor, job: FrameId, ghost u: State)
      requires Machine.SpawnOn(Now(), on, job) == Next(u) && Inv(u)
      modifies this
      ensures |old(stack)| <= |u.stack| && Now() == RunTo(u, |old(stack)|)
      decreases Weight(u), 3
    {
      match on {
        case Game(n) => MarkReady(n, job);
        case CompletionQueue(_) =>
          ghost var v := ResumeShape(Now(), job);
          Resume(job);
      }
    }

    /** SpawnCrossTask::await_suspend. */
    method SpawnCrossTask(f: FrameId, on: Executor, slot: nat, rest: Code, ghost u: State)
      requires IsRunning(Now(), f) && StepCross(Now(), f, on, slot, rest) == Next(u) && Inv(u)
      modifies this
      ensures |old(stack)| - 1 <= |u.stack| && Now() == RunTo(u, |old(stack)| - 1)
      decreases Weight(u), 4
    {
      var launcher := MakeLauncher(f, on, slot, rest);
      SpawnOn(on, launcher, u);
    }

    method MakeLauncher(f: FrameId, on: Executor, slot: nat, rest: Code) returns (launcher: FrameId)
      requires IsRunning(Now(), f) && CanUse(Now(), f, slot)
      modifies this
      ensures Now() == WithLauncher(old(Now()), f, on, slot, rest) && launcher == old(next)
    {
      var fr := heap[f];
      var c := fr.slots[slot];
      var body := heap[c].role.body;
      launcher := next;
      heap := heap[f := fr.(code := rest, slots := fr.slots - {slot}, types := fr.types - {slot},
                            point := AtCross(on, body, launcher, Some(c), None))];
      heap := heap[c := heap[c].(owner := HeldBy(f, Crossing))];
      heap := heap[launcher := NewLauncher(f, body, on)];
      next := next + 1;
      stack := Pop(stack);
    }

    /** async_lib::Spawn from a body. */
    method SpawnTask(f: FrameId, on: Executor, slot: nat, rest: Code, ghost u: State)
      requires At(Now(), f) && IsRunning(Now(), f) && StepDetach(Now(), f, on, slot, rest) == Next(u) && Inv(u)
      modifies this
      ensures Reaches(u, Now(), f, |old(stack)| - 1, true) && stack == old(stack)
      decreases Weight(u), 4
    {
      hide Inv, Step, Enter;
      var fr := heap[f];
      var c := fr.slots[slot];
      heap := heap[f := fr.(code := rest, slots := fr.slots - {slot}, types := fr.types - {slot})];
      heap := heap[c := heap[c].(executor := Some(on), destroyOnDone := true, owner := Detached)];
      BodyStays(Now(), on, c, u);
      SpawnOn(on, c, u);
      RunToTwice(u, |stack|, |stack| - 1);
    }

    /** LaunchChild stores the result and re-spawns its waiter. */
    method HandOverResult(f: FrameId, p: FrameId, ghost u: State)
      requires At(Now(), f) && IsRunning(Now(), f) && StepHandBack(Now(), f, p) == Next(u) && Inv(u)
      modifies this
      ensures Reaches(u, Now(), f, |old(stack)| - 1, true) && stack == old(stack)
      decreases Weight(u), 4
    {
      hide Inv, Step, Enter;
      var result := heap[f].vals[|heap[f].vals| - 1];
      heap := heap[f := heap[f].(code := Return(_ => Unit))];
      heap := heap[p := heap[p].(point := heap[p].point.(delivered := Some(result)))];
      BodyStays(Now(), heap[p].executor.value, p, u);
      SpawnOn(heap[p].executor.value, p, u);
      RunToTwice(u, |stack|, |stack| - 1);
    }

    // ---- the body's own operations ----

    method ReturnValue(f: FrameId, result: seq<Value> -> Value, ghost u: State)
      requires IsRunning(Now(), f) && StepReturn(Now(), f, result) == Next(u)
      modifies this`heap, this`stack
      ensures Now() == u && stack == Pop(old(stack))
    {
      heap := heap[f := heap[f].(point := Final(result(heap[f].vals)))];
      stack := Pop(stack);
    }

    method CreateTask(f: FrameId, slot: nat, on: Executor, body: Code, rest: Code, ghost u: State)
      requires IsRunning(Now(), f) && StepMake(Now(), f, slot, on, body, rest) == Next(u)
      modifies this`heap, this`next
      ensures Now() == u && stack == old(stack)
    {
      heap := heap[f := heap[f].(code := rest, slots := heap[f].slots[slot := next],
                                 types := heap[f].types[slot := FreshTask(body, on)])];
      heap := heap[next := NewTask(body, on, HeldBy(f, Slot(slot)))];
      next := next + 1;
    }

    /** CompletionQueueAwaitable::await_suspend. */
    method PostOperation(f: FrameId, key: nat, rest: Code, ghost u: State)
      requires IsRunning(Now(), f) && StepOperation(Now(), f, key, rest) == Next(u)
      modifies this`heap, this`tags, this`stack
      ensures Now() == u && stack == Pop(old(stack))
    {
      heap := heap[f := heap[f].(code := rest, point := AtOperation(key, false))];
      tags := tags + multiset{f};
      stack := Pop(stack);
    }

    method AwaitVariable(f: FrameId, slot: nat, rest: Code, ghost u: State) returns (running: bool)
      requires IsRunning(Now(), f) && StepAwait(Now(), f, slot, rest) == Next(u) && Inv(u) && Top(Now()) == Body(f)
      modifies this
      ensures Reaches(u, Now(), f, |old(stack)| - 1, running) && (running ==> stack == old(stack))
      decreases Weight(u), 5
    {
      hide Inv, Step, Enter;
      var c := heap[f].slots[slot];
      var fr := heap[f].(code := rest, slots := heap[f].slots - {slot}, types := heap[f].types - {slot});
      AwaitWritten(Now(), f, fr, c);
      heap := heap[f := fr];
      running := CoAwait(f, c, u);
    }

    /** LaunchChild awaits the task held by its waiter's awaitable. */
    method LaunchChild(f: FrameId, p: FrameId, ghost u: State) returns (running: bool)
      requires IsRunning(Now(), f) && StepLaunch(Now(), f, p) == Next(u) && Inv(u) && Top(Now()) == Body(f)
      modifies this
      ensures Reaches(u, Now(), f, |old(stack)| - 1, running) && (running ==> stack == old(stack))
      decreases Weight(u), 5
    {
      hide Inv, Step, Enter;
      var c := heap[p].point.held.value;
      var fr := heap[f].(code := HandBack(p));
      heap := heap[p := heap[p].(point := heap[p].point.(held := None))];
      AwaitWritten(Now(), f, fr, c);
      heap := heap[f := fr];
      running := CoAwait(f, c, u);
    }

    /** An operation without suspension of its own. */
    method ExecutePlain(f: FrameId, ghost u: State) returns (running: bool)
      requires IsRunning(Now(), f) && StepBody(Now(), f) == Next(u) && Top(Now()) == Body(f)
      requires heap[f].code.Return? || heap[f].code.Branch? || heap[f].code.Make? || heap[f].code.Operation?
      modifies this
      ensures Now() == u && stack == if running then old(stack) else Pop(old(stack))
    {
      running := true;
      match heap[f].code {
        case Return(result) => ReturnValue(f, result, u); running := false;
        case Branch(test, yes, no) => heap := heap[f := heap[f].(code := if test(heap[f].vals) then yes else no)];
        case Make(slot, on, body, rest) => CreateTask(f, slot, on, body, rest, u);
        case Operation(key, rest) => PostOperation(f, key, rest, u); running := false;
      }
    }

    /** An operation that enters other bodies. */
    method ExecuteCall(f: FrameId, ghost u: State) returns (running: bool)
      requires At(Now(), f) && IsRunning(Now(), f) && StepBody(Now(), f) == Next(u) && Inv(u)
      requires !heap[f].code.Return? && !heap[f].code.Branch? && !heap[f].code.Make? && !heap[f].code.Operation?
      modifies this
      ensures Reaches(u, Now(), f, |old(stack)| - 1, running) && (running ==> stack == old(stack))
      decreases Weight(u), 6
    {
      hide Inv, Enter;
      running := true;
      match heap[f].code {
        case Await(slot, rest) => running := AwaitVariable(f, slot, rest, u);
        case Start(slot, rest) => StartSubroutine(f, slot, rest, u);
        case Cross(on, slot, rest) => SpawnCrossTask(f, on, slot, rest, u); running := false;
        case Detach(on, slot, rest) => SpawnTask(f, on, slot, rest, u);
        case Launch(p) => running := LaunchChild(f, p, u);
        case HandBack(p) => HandOverResult(f, p, u);
      }
    }

    /** One operation of the body of f; false when it has suspended or finished. */
    method Execute(f: FrameId) returns (running: bool)
      requires At(Now(), f)
      modifies this
      ensures GoesOn(old(Now()), Now(), f, running) && (running ==> Weight(Now()) < Weight(old(Now())))
      decreases Weight(Now()), 0
    {
      hide Inv, Step, Enter;
      ghost var u := StepOf(Now(), f);
      var code := heap[f].code;
      if code.Return? || code.Branch? || code.Make? || code.Operation? {
        running := ExecutePlain(f, u);
        OperationDone(old(Now()), u, f, running);
      } else {
        running := ExecuteCall(f, u);
      }
      Concludes(old(Now()), u, Now(), f, running);
    }

    // ---- entry points: async_lib::Spawn, Tick and Executor::Update ----

    method Spawn(on: Executor, body: Code) returns (ghost events: seq<Event>)
      requires Idle(Now()) && WellFormed(body, on, map[])
      modifies this
      ensures Idle(Now()) && IsRun(old(Now()), events, Now())
      ensures events != [] && events[0] == SpawnRoot(on, body) && AllInternal(events[1..])
    {
      hide Inv, Step, Enter;
      ghost var u := AfterEvent(Now(), SpawnRoot(on, body));
      young := map[];
      var root := next;
      heap := heap[root := NewTask(body, on, Detached).(executor := Some(on), destroyOnDone := true)];
      next := next + 1;
      SpawnOn(on, root, u);
      events := SegmentRun(old(Now()), SpawnRoot(on, body), u);
    }

    method Tick(f: FrameId, ok: bool) returns (ghost events: seq<Event>)
      requires Idle(Now()) && f in tags
      modifies this
      ensures Idle(Now()) && IsRun(old(Now()), events, Now())
      ensures events != [] && events[0] == Event.Tick(f, ok) && AllInternal(events[1..])
    {
      hide Step, Enter;
      ghost var u := AfterEvent(Now(), Event.Tick(f, ok));
      TickStep(Now(), f, ok);
      assert InOperation(Now(), f);
      young := map[];
      tags := tags - multiset{f};
      // job->ok = ok
      heap := heap[f := heap[f].(point := heap[f].point.(ok := ok))];
      Resume(f);
      events := SegmentRun(old(Now()), Event.Tick(f, ok), u);
    }

    /** Resume every job that is ready, batch after batch, until a swap brings none. */
    method Update(n: nat) returns (ghost events: seq<Event>)
      requires Idle(Now()) && n !in updating
      modifies this
      ensures Idle(Now()) && n !in updating && IsRun(old(Now()), events, Now()) && IsUpdate(n, events)
      ensures Queue(Now(), n) == []
    {
      hide Inv, Apply, InLoop, Begun, IsUpdate, IsRun, Weight;
      ghost var u := AfterLoopEvent(Now(), BeginUpdate(n));
      events := BeginsUpdate(n, Now(), u);
      updating, young := updating[n := []], map[];
      ghost var start := old(Now());
      while true
        invariant Idle(Now()) && n in updating && updating[n] == []
        invariant IsRun(start, events, Now()) && Begun(n, events)
        decreases Weight(Now())
      {
        // ready.swap(m_ready)
        if n !in ready || ready[n] == [] {
          break;
        }
        u := AfterLoopEvent(Now(), SwapReady(n));
        events := ThenInLoop(n, start, events, Now(), SwapReady(n), u);
        updating, ready, young := updating[n := ready[n]], ready[n := []], map[];
        events := ResumeBatch(n, start, events);
      }
      u := AfterLoopEvent(Now(), EndUpdate(n));
      events := EndsUpdate(n, start, events, Now(), u);
      updating, young := updating - {n}, map[];
    }

    /** The inner loop of Update: resume the jobs of the batch in hand, in order. */
    method ResumeBatch(n: nat, ghost start: State, ghost before: seq<Event>) returns (ghost events: seq<Event>)
      requires Idle(Now()) && n in updating && updating[n] != [] && IsRun(start, before, Now()) && Begun(n, before)
      modifies this
      ensures Idle(Now()) && n in updating && updating[n] == []
      ensures Weight(Now()) < Weight(old(Now()))
      ensures IsRun(start, events, Now()) && before <= events && Begun(n, events)
    {
      hide Inv, Step, Enter, Begun;
      events := ResumeNext(n, start, before);
      while updating[n] != []
        invariant Idle(Now()) && n in updating && IsRun(start, events, Now())
        invariant Weight(Now()) < Weight(old(Now()))
        invariant before <= events && Begun(n, events)
        decreases Weight(Now())
      {
        events := ResumeNext(n, start, events);
      }
    }

    method ResumeNext(n: nat, ghost start: State, ghost before: seq<Event>) returns (ghost events: seq<Event>)
      requires Idle(Now()) && n in updating && updating[n] != [] && IsRun(start, before, Now()) && Begun(n, before)
      modifies this
      ensures Idle(Now()) && n in updating && updating[n] == old(updating[n][1..])
      ensures Weight(Now()) < Weight(old(Now()))
      ensures IsRun(start, events, Now()) && before <= events && Begun(n, events)
      ensures |events| > |before| && events[|before|] == NextReady(n) && AllInternal(events[|before| + 1..])
    {
      hide Inv, Step, Enter, Begun;
      ghost var s := Now();
      ghost var u := AfterEvent(s, NextReady(n));
      KeysKept(u, 0);
      var job := updating[n][0];
      updating, young := updating[n := updating[n][1..]], map[];
      ghost var v := ResumeShape(Now(), job);
      Resume(job);
      events := SegmentThen(start, before, s, NextReady(n), u);
      SegmentInLoop(n, before, events);
    }
  }
}
