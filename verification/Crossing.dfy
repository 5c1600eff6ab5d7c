/** When co_await SpawnCrossTask is safe.

    The two executors must differ: the library asserts it. If one of them queues what it is given, that is
    all. If both run what they are given at once, a child that finishes before it parks hands its
    result over inside its parent's await_suspend: the parent goes on there, and if it finishes as well,
    it is destroyed under the native call that is still about it. `First` decides that from the bodies. */
module Crossing {
  import opened Programs
  import opened Machine
  import opened Invariants
  import opened HeapLemmas
  import opened CallLemmas
  import opened Steps
  import opened CallSteps
  import opened FirstSegments
  import opened Events
  import opened Segments
  import opened Weights
  import opened Theorems

  /** Whatever happens from s on, nothing faults. */
  ghost predicate NeverFaults(s: State) {
    forall events, t, e | IsRun(s, events, t) && Enabled(t, e) :: Apply(t, e).Next?
  }

  /** A root that makes a task for `to`, cross-awaits it there, and goes on. */
  function CrossProgram(to: Executor, child: Code, rest: Code): Code {
    Make(0, to, child, Cross(to, 0, rest))
  }

  function RootFrame(from: Executor, program: Code): Frame {
    NewTask(program, from, Detached).(executor := Some(from), destroyOnDone := true, point := Running)
  }

  /** The root has just been resumed, on `from`. */
  function CrossStart(from: Executor, program: Code): State {
    State(map[0 := RootFrame(from, program)], 1, map[], if from.Game? then map[from.id := []] else map[], multiset{},
          [Resumer(0), Body(0)], map[0 := FirstOf(program, from)])
  }

  // ---- what the invariant covers ----

  lemma GoodNeverFaults(s: State)
    requires Inv(s)
    ensures NeverFaults(s)
  {
    forall events, t, e | IsRun(s, events, t) && Enabled(t, e) ensures Apply(t, e).Next? {
      RunKeepsInv(s, events, t);
      ApplyKeepsInv(t, e);
    }
  }

  lemma StartIsGood(from: Executor, program: Code)
    requires WellFormed(program, from, map[])
    ensures Inv(CrossStart(from, program))
  {
    var s := CrossStart(from, program);
    UserCode(program, from, map[]);
    assert FrameOk(s, 0);
    forall place ensures HoldOk(s, 0, place) {}
    forall n: nat, f: FrameId ensures Queued(s, n, f) == 0 { assert Queue(s, n) == []; }
    assert LinkOk(s, 1);
    assert s.stack[0] == Resumer(0) && s.stack[1] == Body(0);
    EnteredFirst(s, 0);
    OneYoung(s, 0);
  }

  lemma AllowedIsWellFormed(from: Executor, to: Executor, child: Code, rest: Code)
    requires WellFormed(child, to, map[]) && WellFormed(rest, from, map[])
    requires CanCross(from, to, FirstOf(child, to).None?)
    ensures WellFormed(CrossProgram(to, child, rest), from, map[])
  {
    var types: map<nat, SlotType> := map[0 := FreshTask(child, to)];
    assert types - {0} == map[];
    assert WellFormed(Cross(to, 0, rest), from, types);
  }

  // ---- the same executor ----

  /** The library's own assertion: the two executors must differ. */
  lemma SameExecutorFaults(on: Executor, child: Code, rest: Code)
    ensures !NeverFaults(CrossStart(on, CrossProgram(on, child, rest)))
  {
    var s := CrossStart(on, CrossProgram(on, child, rest));
    var t := Step(s).state;
    assert Step(s) == Next(t) && IsRunning(t, 0);
    assert StepBody(t, 0).Fault?;
    assert IsRun(t, [], t) && [Internal][1..] == [];
    assert IsRun(s, [Internal], t) && Enabled(t, Internal);
  }

  // ---- one native call more at the bottom ----

  /** State a is b with the Resume of frame 0 below its native calls. What is noted of young frames
      may differ: no step decides on it. */
  ghost predicate Shadow(a: State, b: State) {
    b == a.(stack := b.stack, young := b.young) && a.stack == [Resumer(0)] + b.stack
  }

  ghost predicate ShadowOutcome(x: Outcome, y: Outcome) {
    (x.Fault? <==> y.Fault?) && (x.Next? ==> Shadow(x.state, y.state))
  }

  lemma PopShadow(a: State, b: State)
    requires Shadow(a, b) && b.stack != []
    ensures a.stack != [] && Pop(a.stack) == [Resumer(0)] + Pop(b.stack) && Top(a) == Top(b)
  {
  }

  lemma EnterShadow(a: State, b: State, f: FrameId)
    requires Shadow(a, b)
    ensures ShadowOutcome(Enter(a, f), Enter(b, f))
  {
    assert a.stack + [Body(f)] == [Resumer(0)] + (b.stack + [Body(f)]);
  }

  lemma SpawnShadow(a: State, b: State, on: Executor, f: FrameId)
    requires Shadow(a, b)
    ensures ShadowOutcome(SpawnOn(a, on, f), SpawnOn(b, on, f))
  {
    var c, d := a.(stack := a.stack + [Resumer(f)]), b.(stack := b.stack + [Resumer(f)]);
    assert c.stack == [Resumer(0)] + d.stack;
    EnterShadow(c, d, f);
  }

  lemma AwaitShadow(a: State, b: State, f: FrameId, fr: Frame, c: FrameId)
    requires Shadow(a, b) && b.stack != [] && c in b.heap && c != f
    ensures a.stack != [] && ShadowOutcome(AwaitTask(a, f, fr, c), AwaitTask(b, f, fr, c))
  {
    PopShadow(a, b);
    assert Pop(a.stack) + [Awaiter(f, c), Body(c)] == [Resumer(0)] + (Pop(b.stack) + [Awaiter(f, c), Body(c)]);
  }

  lemma PlainShadow(a: State, b: State, f: FrameId)
    requires Shadow(a, b) && b.stack != [] && IsRunning(b, f)
    requires var c := b.heap[f].code; c.Return? || c.Branch? || c.Make? || c.Operation?
    ensures a.stack != [] && ShadowOutcome(StepBody(a, f), StepBody(b, f))
  {
    PopShadow(a, b);
  }

  lemma CallShadow(a: State, b: State, f: FrameId)
    requires Shadow(a, b) && b.stack != [] && IsRunning(b, f)
    requires var c := b.heap[f].code; c.Await? || c.Start? || c.Launch?
    ensures a.stack != [] && ShadowOutcome(StepBody(a, f), StepBody(b, f))
  {
    PopShadow(a, b);
    var fr := b.heap[f];
    match fr.code
    case Await(slot, next) =>
      if CanUse(b, f, slot) {
        AwaitShadow(a, b, f, fr.(code := next, slots := fr.slots - {slot}, types := fr.types - {slot}), fr.slots[slot]);
      }
    case Start(slot, next) =>
      if CanUse(b, f, slot) {
        var c := fr.slots[slot];
        assert Pop(a.stack) + [Starter(f, c), Body(c)] == [Resumer(0)] + (Pop(b.stack) + [Starter(f, c), Body(c)]);
      }
    case Launch(p) => LaunchShadow(a, b, f, p);
  }

  lemma LaunchShadow(a: State, b: State, f: FrameId, p: FrameId)
    requires Shadow(a, b) && b.stack != [] && IsRunning(b, f)
    ensures a.stack != [] && ShadowOutcome(StepLaunch(a, f, p), StepLaunch(b, f, p))
  {
    if p in b.heap && b.heap[p].point.AtCross? && b.heap[p].point.held.Some? {
      var c := b.heap[p].point.held.value;
      if c in b.heap && c != f && c != p {
        var held := b.heap[p := b.heap[p].(point := b.heap[p].point.(held := None))];
        AwaitShadow(a.(heap := held), b.(heap := held), f, b.heap[f].(code := HandBack(p)), c);
      }
    }
  }

  lemma CrossShadow(a: State, b: State, f: FrameId)
    requires Shadow(a, b) && b.stack != [] && IsRunning(b, f) && b.heap[f].code.Cross?
    ensures a.stack != [] && ShadowOutcome(StepBody(a, f), StepBody(b, f))
  {
    PopShadow(a, b);
    var Cross(on, slot, next) := b.heap[f].code;
    if CanUse(b, f, slot) {
      SpawnShadow(WithLauncher(a, f, on, slot, next), WithLauncher(b, f, on, slot, next), on, b.next);
    }
  }

  lemma DetachShadow(a: State, b: State, f: FrameId)
    requires Shadow(a, b) && b.stack != [] && IsRunning(b, f) && b.heap[f].code.Detach?
    ensures a.stack != [] && ShadowOutcome(StepBody(a, f), StepBody(b, f))
  {
    var Detach(on, slot, next) := b.heap[f].code;
    if CanUse(b, f, slot) {
      var fr, c := b.heap[f], b.heap[f].slots[slot];
      var heap := b.heap[f := fr.(code := next, slots := fr.slots - {slot}, types := fr.types - {slot})]
                        [c := b.heap[c].(executor := Some(on), destroyOnDone := true, owner := Detached)];
      SpawnShadow(a.(heap := heap), b.(heap := heap), on, c);
    }
  }

  lemma BackShadow(a: State, b: State, f: FrameId, p: FrameId)
    requires Shadow(a, b) && b.stack != [] && IsRunning(b, f)
    ensures a.stack != [] && ShadowOutcome(StepHandBack(a, f, p), StepHandBack(b, f, p))
  {
    var fr := b.heap[f];
    if p in b.heap && p != f && b.heap[p].point.AtCross? && fr.vals != [] && b.heap[p].executor.Some? {
      var heap := b.heap[f := fr.(code := Return(_ => Unit))]
                        [p := b.heap[p].(point := b.heap[p].point.(delivered := Some(fr.vals[|fr.vals| - 1])))];
      SpawnShadow(a.(heap := heap), b.(heap := heap), b.heap[p].executor.value, p);
    }
  }

  lemma BodyShadow(a: State, b: State, f: FrameId)
    requires Shadow(a, b) && b.stack != []
    ensures a.stack != [] && ShadowOutcome(StepBody(a, f), StepBody(b, f))
  {
    PopShadow(a, b);
    if IsRunning(b, f) {
      match b.heap[f].code
      case Await(_, _) => CallShadow(a, b, f);
      case Start(_, _) => CallShadow(a, b, f);
      case Launch(_) => CallShadow(a, b, f);
      case Cross(_, _, _) => CrossShadow(a, b, f);
      case Detach(_, _, _) => DetachShadow(a, b, f);
      case HandBack(p) => BackShadow(a, b, f, p);
      case _ => PlainShadow(a, b, f);
    }
  }

  lemma ReturnShadow(a: State, b: State)
    requires Shadow(a, b) && b.stack != [] && !Top(b).Body?
    ensures a.stack != [] && ShadowOutcome(Step(a), Step(b))
  {
    PopShadow(a, b);
    var c, d := a.(stack := Pop(a.stack)), b.(stack := Pop(b.stack));
    match Top(b)
    case Resumer(f) =>
      if f in b.heap && b.heap[f].point.Final? && b.heap[f].parent.Some? {
        var heap := if b.heap[f].destroyOnDone then b.heap - {f} else b.heap;
        SpawnShadow(c.(heap := heap), d.(heap := heap), CompletionQueue(0), b.heap[f].parent.value);
      }
    case Awaiter(p, _) => EnterShadow(c, d, p);
    case Starter(p, _) => EnterShadow(c, d, p);
  }

  /** The call at the bottom does not matter to what runs above it. */
  lemma StepShadow(a: State, b: State)
    requires Shadow(a, b) && b.stack != []
    ensures a.stack != [] && ShadowOutcome(Step(a), Step(b))
  {
    PopShadow(a, b);
    if Top(b).Body? { BodyShadow(a, b, Top(b).frame); } else { ReturnShadow(a, b); }
  }

  // ---- what a young frame has come to when the segment is over ----

  lemma StepKeepsEntry(s: State, t: State, f: FrameId)
    requires Inv(s) && s.stack != [] && Step(s) == Next(t) && f in s.young
    ensures f in t.young && t.young[f] == s.young[f]
  {
    if Top(s).Body? {
      BodyKeepsEntry(s, Top(s).frame, t, f);
    } else {
      CallHere(s, Subject(Top(s)));
      CallKeepsEntry(s, t, f);
    }
  }

  lemma CallKeepsEntry(s: State, t: State, f: FrameId)
    requires AtCall(s) && Step(s) == Next(t) && f in s.young
    ensures f in t.young && t.young[f] == s.young[f]
  {
    CallHere(s, Subject(Top(s)));
    match Top(s)
    case Resumer(g) =>
      if Ended(s, g) && s.heap[g].owner.HeldBy? { ResumerTakes(s, g, s.heap[g].owner.frame, t); }
    case Awaiter(p, c) => assert HoldOk(s, p, Awaiting);
    case Starter(p, c) => assert HoldOk(s, p, Starting);
  }

  lemma BodyKeepsEntry(s: State, g: FrameId, t: State, f: FrameId)
    requires At(s, g) && StepBody(s, g) == Next(t) && f in s.young
    ensures f in t.young && t.young[f] == s.young[f]
  {
    Here(s, g);
    var fr := s.heap[g];
    match fr.code
    case Await(slot, _) => AwaitKeepsEntry(s, g, t, f);
    case Start(slot, _) => StartDoes(s, g, t); TaskAside(s, fr.slots[slot]);
    case Launch(p) => LaunchDoesAll(s, g, p, t); TaskAside(s, s.heap[p].point.held.value);
    case Cross(_, _, _) => SpawnKeepsEntry(s, g, t, f);
    case Detach(_, _, _) => SpawnKeepsEntry(s, g, t, f);
    case HandBack(_) => SpawnKeepsEntry(s, g, t, f);
    case _ =>
  }

  lemma AwaitKeepsEntry(s: State, g: FrameId, t: State, f: FrameId)
    requires At(s, g) && IsRunning(s, g) && s.heap[g].code.Await? && StepBody(s, g) == Next(t) && f in s.young
    ensures f in t.young && t.young[f] == s.young[f]
  {
    Here(s, g);
    var slot := s.heap[g].code.slot;
    InVariable(s, g, slot);
    var c := s.heap[g].slots[slot];
    if !s.heap[c].point.Final? {
      AwaitPendingDoes(s, g, t);
      if s.heap[c].executor == None { TaskAside(s, c); }
    }
  }

  lemma SpawnKeepsEntry(s: State, g: FrameId, t: State, f: FrameId)
    requires At(s, g) && IsRunning(s, g) && StepBody(s, g) == Next(t) && f in s.young
    requires s.heap[g].code.Cross? || s.heap[g].code.Detach? || s.heap[g].code.HandBack?
    ensures f in t.young && t.young[f] == s.young[f]
  {
    Here(s, g);
    match s.heap[g].code
    case Cross(_, _, _) => CrossIsWhole(s, g, t);
    case Detach(_, slot, _) => DetachDoesAll(s, g, t); TaskAside(s, s.heap[g].slots[slot]);
    case HandBack(_) => BackCalls(s, g, t);
  }

  lemma {:induction false} SettleKeepsEntry(s: State, f: FrameId)
    requires Inv(s) && f in s.young
    ensures f in Settle(s).young && Settle(s).young[f] == s.young[f]
    decreases Weight(s)
  {
    if s.stack != [] {
      StepIsLighter(s);
      StepKeepsEntry(s, Step(s).state, f);
      SettleKeepsEntry(Step(s).state, f);
    }
  }

  /** When a segment is over, a young frame that has not finished has parked. */
  lemma {:induction false} YoungHasParked(s: State, f: FrameId)
    requires Idle(s) && f in s.heap && f in s.young && s.heap[f].role.Program? && !s.heap[f].point.Final?
    ensures s.young[f] == None
    decreases s.next - f, 1
  {
    assert FrameOk(s, f) && ActiveOk(s, f) && FirstOk(s, f);
    match s.heap[f].point
    case AtTask(c) =>
      KidHasParked(s, f, c);
    case AtCross(_, _, l, _, _) =>
      if s.heap[f].home.CompletionQueue? && s.heap[f].point.on.CompletionQueue? {
        assert WaiterOk(s, f) && TiedOk(s, f);
        assert FrameOk(s, l) && ActiveOk(s, l) && FirstOk(s, l);
        KidHasParked(s, l, s.heap[l].point.child);
      }
    case _ =>
  }

  lemma KidHasParked(s: State, p: FrameId, c: FrameId)
    requires Idle(s) && p in s.heap && p in s.young && s.heap[p].point == AtTask(c)
    ensures c in s.heap && FirstOf(s.heap[c].role.body, s.heap[c].home) == None && FirstAt(s, c) == None
    ensures Bound(s.heap[p]) && Bound(s.heap[c]) && s.heap[c].executor == s.heap[p].executor
    ensures s.heap[p].role.Launcher? ==> s.heap[p].role.body == s.heap[c].role.body
    decreases s.next - Rank(s, p), 0
  {
    assert FrameOk(s, p) && HoldOk(s, p, Awaiting) && OwnerOk(s, c);
    assert FrameOk(s, c) && ActiveOk(s, c) && FirstOk(s, p) && FirstOk(s, c);
    assert KidOk(s, p, Awaiting);
    YoungHasParked(s, c);
  }

  // ---- two immediate executors ----

  /** The root waits on the stack's bottom, its LaunchChild runs: with and without that bottom. */
  function Crossed(from: Executor, to: Executor, child: Code, rest: Code): State {
    var program := CrossProgram(to, child, rest);
    var root := RootFrame(from, program).(code := rest, point := AtCross(to, child, 2, Some(1), None));
    var launcher := NewLauncher(0, child, to).(point := Running);
    State(map[0 := root, 1 := NewTask(child, to, HeldBy(0, Crossing)), 2 := launcher], 3, map[], map[], multiset{},
          [Resumer(2), Body(2)], map[0 := FirstOf(program, from), 2 := Some(Unit)])
  }

  lemma UntilCrossed(from: Executor, to: Executor, child: Code, rest: Code) returns (a: State)
    requires from.CompletionQueue? && to.CompletionQueue? && from != to
    ensures Shadow(a, Crossed(from, to, child, rest))
    ensures var s := CrossStart(from, CrossProgram(to, child, rest));
      Step(s).Next? && Step(s).state.stack != [] && Step(Step(s).state) == Next(a)
  {
    var s := CrossStart(from, CrossProgram(to, child, rest));
    var m := Step(s).state;
    assert Step(s) == Next(m) && IsRunning(m, 0);
    assert m.heap[0].slots == map[0 := 1] && CanUse(m, 0, 0);
    var types: map<nat, SlotType> := map[0 := FreshTask(child, to)];
    assert m.heap[0].types == types && types - {0} == map[];
    var slots: map<nat, FrameId> := map[0 := 1];
    assert slots - {0} == map[];
    a := Step(m).state;
    assert Step(m) == StepCross(m, 0, to, 0, rest) == Next(a);
    assert a.heap == Crossed(from, to, child, rest).heap;
  }

  lemma CrossedIsGood(from: Executor, to: Executor, child: Code, rest: Code)
    requires from.CompletionQueue? && to.CompletionQueue? && from != to
    requires WellFormed(child, to, map[]) && WellFormed(rest, from, map[])
    ensures Inv(Crossed(from, to, child, rest))
  {
    var b := Crossed(from, to, child, rest);
    CrossedHeap(from, to, child, rest);
    forall n: nat, f: FrameId ensures Queued(b, n, f) == 0 { assert Queue(b, n) == []; }
    assert LinkOk(b, 1);
    assert b.stack[0] == Resumer(2) && b.stack[1] == Body(2);
    CrossedYoung(from, to, child, rest);
  }

  lemma CrossedHeap(from: Executor, to: Executor, child: Code, rest: Code)
    requires from.CompletionQueue? && to.CompletionQueue? && from != to
    requires WellFormed(child, to, map[]) && WellFormed(rest, from, map[])
    ensures HeapOk(Crossed(from, to, child, rest))
  {
    CrossedFrames(from, to, child, rest);
    CrossedEdges(from, to, child, rest);
  }

  lemma CrossedFrames(from: Executor, to: Executor, child: Code, rest: Code)
    requires from.CompletionQueue? && to.CompletionQueue? && from != to
    requires WellFormed(child, to, map[]) && WellFormed(rest, from, map[])
    ensures FramesOk(Crossed(from, to, child, rest))
  {
    hide First;
    UserCode(child, to, map[]);
    UserCode(rest, from, map[]);
  }

  lemma CrossedEdges(from: Executor, to: Executor, child: Code, rest: Code)
    requires from.CompletionQueue? && to.CompletionQueue? && from != to
    requires WellFormed(child, to, map[]) && WellFormed(rest, from, map[])
    ensures var b := Crossed(from, to, child, rest); OwnersOk(b) && HoldsOk(b) && WaitersOk(b) && CarriersOk(b)
  {
    UserCode(child, to, map[]);
    UserCode(rest, from, map[]);
    var b := Crossed(from, to, child, rest);
    forall f | f in b.heap ensures OwnerOk(b, f) {}
    forall f, at | f in b.heap ensures HoldOk(b, f, at) {}
    forall f | f in b.heap ensures WaiterOk(b, f) {}
    forall f | f in b.heap ensures CarrierOk(b, f) {}
  }

  lemma CrossedYoung(from: Executor, to: Executor, child: Code, rest: Code)
    requires from.CompletionQueue? && to.CompletionQueue? && from != to
    ensures YoungOk(Crossed(from, to, child, rest))
  {
    var b := Crossed(from, to, child, rest);
    LauncherFirst(b, 2);
    UnstartedFirst(b, 1);
    forall place ensures KidOk(b, 0, place) {}
    RootExpects(from, to, child, rest);
    assert FirstOk(b, 0);
    forall k | 0 <= k < |b.stack| ensures Subject(b.stack[k]) == 2 {}
    assert !OnStack(b, 0);
    assert TiedOk(b, 0);
  }

  /** What the root does in its first segment, seen from the crossing. */
  lemma RootExpects(from: Executor, to: Executor, child: Code, rest: Code)
    requires from.CompletionQueue? && to.CompletionQueue?
    ensures var b := Crossed(from, to, child, rest);
      FirstNow(b, b.heap[0]) == FirstOf(CrossProgram(to, child, rest), from)
    ensures FirstOf(CrossProgram(to, child, rest), from) ==
      match FirstOf(child, to) case None => None case Some(v) => First(rest, from, [v], map[])
  {
    var b := Crossed(from, to, child, rest);
    assert Firsts(b, b.heap[0]) == map[];
    var tasks: map<nat, Option<Value>> := map[0 := FirstOf(child, to)];
    assert tasks - {0} == map[];
    var cross := Cross(to, 0, rest);
    assert First(CrossProgram(to, child, rest), from, [], map[]) == First(cross, from, [], tasks);
    var vals: seq<Value> := [];
    if FirstOf(child, to).Some? {
      var v := FirstOf(child, to).value;
      assert vals + [v] == [v];
      assert First(cross, from, vals, tasks) == First(rest, from, vals + [v], tasks - {0});
    }
  }

  /** Frame 0 is a spawned root, or gone for good. */
  ghost predicate IsRootFrame(s: State) {
    0 < s.next && (0 in s.heap ==> s.heap[0].role.Program? && s.heap[0].owner.Detached?)
  }

  lemma StepKeepsRoot(s: State, t: State)
    requires Inv(s) && s.stack != [] && Step(s) == Next(t) && IsRootFrame(s)
    ensures IsRootFrame(t)
  {
    hide Inv, Step;
    StepKeepsKind(s, t, 0);
  }

  lemma {:induction false} SettleKeepsRoot(s: State)
    requires Inv(s) && IsRootFrame(s)
    ensures IsRootFrame(Settle(s))
    decreases Weight(s)
  {
    if s.stack != [] {
      StepIsLighter(s);
      StepKeepsRoot(s, Step(s).state);
      SettleKeepsRoot(Step(s).state);
    }
  }

  /** Steps from a and from b go together until b's segment is over. */
  lemma {:induction false} ShadowSettles(a: State, b: State) returns (events: seq<Event>, t: State)
    requires Shadow(a, b) && Inv(b)
    ensures IsRun(a, events, t) && Shadow(t, Settle(b))
    decreases Weight(b)
  {
    if b.stack == [] {
      events, t := [], a;
    } else {
      StepShadow(a, b);
      StepIsLighter(b);
      var rest;
      rest, t := ShadowSettles(Step(a).state, Step(b).state);
      events := [Internal] + rest;
      assert events[1..] == rest;
    }
  }

  /** If the root finishes in its first segment, it is gone when its first Resume comes back. */
  lemma CrossedFaults(a: State, b: State)
    requires Shadow(a, b) && Inv(b) && 0 in b.young && b.young[0].Some?
    requires IsRootFrame(b)
    ensures !NeverFaults(a)
  {
    var events, t := ShadowSettles(a, b);
    SettleKeepsEntry(b, 0);
    SettleKeepsRoot(b);
    var u := Settle(b);
    if 0 in u.heap {
      assert ActiveOk(u, 0);
      YoungHasParked(u, 0);
    }
    assert t.stack == [Resumer(0)];
    assert Step(t).Fault?;
    assert Enabled(t, Internal);
  }

  /** If it does not, it is still there, and the rest of every run is one of the invariant's. */
  lemma {:induction false} CrossedIsSafe(a: State, b: State, events: seq<Event>, t: State, e: Event)
    requires Shadow(a, b) && Inv(b) && IsRootFrame(b) && 0 in b.young && b.young[0].None?
    requires IsRun(a, events, t) && Enabled(t, e)
    ensures Apply(t, e).Next?
    decreases |events|
  {
    if b.stack == [] {
      SurvivorReturns(a, b);
      if events != [] { TwinIsSafe(Step(a).state, b, events[1..], t, e); }
    } else {
      StepShadow(a, b);
      StepKeepsInv(b);
      if events != [] {
        StepKeepsEntry(b, Step(b).state, 0);
        StepKeepsRoot(b, Step(b).state);
        CrossedIsSafe(Step(a).state, Step(b).state, events[1..], t, e);
      }
    }
  }

  lemma SurvivorReturns(a: State, b: State)
    requires Shadow(a, b) && Idle(b) && IsRootFrame(b) && 0 in b.young && b.young[0].None?
    ensures a.stack != [] && Step(a) == Next(b.(young := a.young))
  {
    assert 0 in b.heap && FirstOk(b, 0) && ActiveOk(b, 0);
    assert a.stack == [Resumer(0)] && Pop(a.stack) == [];
  }

  /** What is noted of young frames ends with the segment. */
  lemma TwinIsSafe(a: State, b: State, events: seq<Event>, t: State, e: Event)
    requires Idle(b) && a == b.(young := a.young) && IsRun(a, events, t) && Enabled(t, e)
    ensures Apply(t, e).Next?
  {
    if events == [] {
      assert Apply(a, e) == Apply(b, e);
      ApplyKeepsInv(b, e);
    } else {
      assert Apply(a, events[0]) == Apply(b, events[0]);
      ApplyKeepsInv(b, events[0]);
      RunKeepsInv(Apply(b, events[0]).state, events[1..], t);
      ApplyKeepsInv(t, e);
    }
  }

  lemma BothImmediateSafeIff(from: Executor, to: Executor, child: Code, rest: Code)
    requires from.CompletionQueue? && to.CompletionQueue? && from != to
    requires WellFormed(child, to, map[]) && WellFormed(rest, from, map[])
    ensures var program := CrossProgram(to, child, rest);
      NeverFaults(CrossStart(from, program)) <==> FirstOf(program, from).None?
  {
    var program := CrossProgram(to, child, rest);
    var s, b := CrossStart(from, program), Crossed(from, to, child, rest);
    CrossedIsGood(from, to, child, rest);
    var a := UntilCrossed(from, to, child, rest);
    if FirstOf(program, from).Some? {
      CrossedFaults(a, b);
      var events, t, e :| IsRun(a, events, t) && Enabled(t, e) && Apply(t, e).Fault?;
      LaterFaults(s, Step(s).state, a, events, t);
    } else {
      forall events, t, e | IsRun(s, events, t) && Enabled(t, e) ensures Apply(t, e).Next? {
        EarlySteps(s, Step(s).state, a, events, t);
        if |events| >= 2 { CrossedIsSafe(a, b, events[2..], t, e); }
      }
    }
  }

  lemma EarlySteps(s: State, m: State, a: State, events: seq<Event>, t: State)
    requires s.stack != [] && m.stack != [] && Step(s) == Next(m) && Step(m) == Next(a) && IsRun(s, events, t)
    ensures events == [] ==> t == s
    ensures |events| == 1 ==> t == m
    ensures |events| >= 2 ==> IsRun(a, events[2..], t)
  {
    if |events| >= 2 { assert events[1..][1..] == events[2..]; }
  }

  lemma LaterFaults(s: State, m: State, a: State, events: seq<Event>, t: State)
    requires s.stack != [] && m.stack != [] && Step(s) == Next(m) && Step(m) == Next(a) && IsRun(a, events, t)
    ensures IsRun(s, [Internal, Internal] + events, t)
  {
    var all := [Internal, Internal] + events;
    assert all[1..][1..] == events;
    assert IsRun(m, all[1..], t);
  }

  /** For every child and every rest of the parent that are well formed themselves: the cross-await is
      safe, in all that may follow, exactly when the executors differ and, if both are immediate, the
      child parks before it finishes or the parent parks after it. */
  lemma CrossIsSafeIff(from: Executor, to: Executor, child: Code, rest: Code)
    requires WellFormed(child, to, map[]) && WellFormed(rest, from, map[])
    ensures NeverFaults(CrossStart(from, CrossProgram(to, child, rest))) <==>
      && from != to
      && (from.CompletionQueue? && to.CompletionQueue? ==>
            match FirstOf(child, to) case None => true case Some(v) => First(rest, from, [v], map[]).None?)
  {
    if from == to {
      SameExecutorFaults(from, child, rest);
    } else if from.CompletionQueue? && to.CompletionQueue? {
      RootExpects(from, to, child, rest);
      BothImmediateSafeIff(from, to, child, rest);
    } else {
      AllowedIsWellFormed(from, to, child, rest);
      StartIsGood(from, CrossProgram(to, child, rest));
      GoodNeverFaults(CrossStart(from, CrossProgram(to, child, rest)));
    }
  }

  // ---- two inputs ----

  const LEFT := CompletionQueue(0)
  const RIGHT := CompletionQueue(1)

  function Done(): Code {
    Return(_ => Unit)
  }

  /** Child and parent both finish at once: the parent is destroyed inside its own await_suspend. */
  lemma ChildFinishesFaults()
    ensures WellFormed(Done(), RIGHT, map[]) && WellFormed(Done(), LEFT, map[]) && FirstOf(Done(), RIGHT).Some?
    ensures !NeverFaults(CrossStart(LEFT, CrossProgram(RIGHT, Done(), Done())))
  {
    CrossIsSafeIff(LEFT, RIGHT, Done(), Done());
  }

  /** The same child is safe if the parent parks after it, on an operation of its own. */
  lemma ParentParksIsSafe(key: nat)
    ensures var rest := Operation(key, Done());
      && WellFormed(Done(), RIGHT, map[]) && WellFormed(rest, LEFT, map[]) && FirstOf(Done(), RIGHT).Some?
      && NeverFaults(CrossStart(LEFT, CrossProgram(RIGHT, Done(), rest)))
  {
    CrossIsSafeIff(LEFT, RIGHT, Done(), Operation(key, Done()));
  }
}
