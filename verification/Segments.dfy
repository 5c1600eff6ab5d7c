/** What a segment does to its native calls, and where it may run. */
module Segments {
  import opened Programs
  import opened Machine
  import opened Invariants
  import opened HeapLemmas
  import opened CallLemmas
  import opened StackLemmas
  import opened Steps
  import opened CallSteps
  import opened FirstSegments
  import opened Events

  // ---- what no step changes ----

  /** Frame d is destroyed only when it has finished, and does not come back. It keeps its role, its executor
      and its freedom, and once it has been entered it is not fresh again. */
  ghost predicate KindKept(s: State, t: State, d: FrameId) {
    d < s.next ==>
      && (d in s.heap && d !in t.heap ==> s.heap[d].point.Final?)
      && (d in t.heap ==>
            && d in s.heap && t.heap[d].role == s.heap[d].role && t.heap[d].home == s.heap[d].home
            && (s.heap[d].owner.Detached? ==> t.heap[d].owner.Detached?)
            && (t.heap[d].point.Initial? ==> s.heap[d].point.Initial?))
  }

  /** Where a frame is in its cross-awaits: its task is out, or the result is back and it is not resumed yet. */
  datatype Trip = AtHome | Away(from: Executor, to: Executor, body: Code) | Stored(from: Executor, result: Value)

  ghost function TripOf(s: State, d: FrameId): Trip {
    if d in s.heap && s.heap[d].point.AtCross? then
      var AtCross(on, body, _, _, delivered) := s.heap[d].point;
      if delivered.None? then Away(s.heap[d].home, on, body) else Stored(s.heap[d].home, delivered.value)
    else AtHome
  }

  /** The step on top of the stack is one of a cross-await of d. */
  ghost predicate Moves(s: State, d: FrameId)
    requires s.stack != []
  {
    && Top(s).Body? && Top(s).frame in s.heap
    && (s.heap[Top(s).frame].code == HandBack(d) || (Top(s).frame == d && s.heap[d].code.Cross?))
  }

  ghost predicate TripKept(s: State, t: State, d: FrameId)
    requires s.stack != []
  {
    Moves(s, d) || TripOf(t, d) == TripOf(s, d)
  }

  /** A frame that is in no cross-await and keeps its kind. */
  ghost predicate Aside(fr: Frame, to: Frame) {
    && to.role == fr.role && to.home == fr.home && (fr.owner.Detached? ==> to.owner.Detached?)
    && !fr.point.AtCross? && !to.point.AtCross? && !to.point.Initial?
  }

  lemma TwoAside(s: State, t: State, p: FrameId, c: FrameId, d: FrameId)
    requires s.stack != [] && Only(s, t, {p, c}) && p in s.heap && p in t.heap && c in s.heap
    requires Aside(s.heap[p], t.heap[p]) && !s.heap[c].point.AtCross?
    requires if c in t.heap then Aside(s.heap[c], t.heap[c]) else s.heap[c].point.Final?
    ensures KindKept(s, t, d) && TripKept(s, t, d) && s.next <= t.next
  {
    Look(s, t, {p, c}, d);
  }

  lemma StepKeepsKind(s: State, t: State, d: FrameId)
    requires Inv(s) && s.stack != [] && Step(s) == Next(t)
    ensures KindKept(s, t, d) && TripKept(s, t, d) && s.next <= t.next
  {
    hide KindKept, TripKept, StepBody;
    if Top(s).Body? {
      BodyKeepsKind(s, Top(s).frame, t, d);
    } else {
      CallKeepsKind(s, t, d);
    }
  }

  lemma CallKeepsKind(s: State, t: State, d: FrameId)
    requires AtCall(s) && Step(s) == Next(t)
    ensures KindKept(s, t, d) && TripKept(s, t, d) && s.next <= t.next
  {
    hide TagsOk, QueuesOk, YoungOk;
    CallHere(s, Subject(Top(s)));
    match Top(s)
    case Resumer(g) =>
      if Ended(s, g) && s.heap[g].owner.HeldBy? {
        var p := s.heap[g].owner.frame;
        ResumerTakes(s, g, p, t);
        TwoAside(s, t, p, g, d);
      }
    case Awaiter(p, c) =>
      if s.heap[c].point.Final? {
        AwaiterTakes(s, p, c, t);
        TwoAside(s, t, p, c, d);
      }
    case Starter(p, c) => StarterKeepsKind(s, p, c, t, d);
  }

  lemma StarterKeepsKind(s: State, p: FrameId, c: FrameId, t: State, d: FrameId)
    requires AtCall(s) && Top(s) == Starter(p, c) && Step(s) == Next(t)
    ensures KindKept(s, t, d) && TripKept(s, t, d) && s.next <= t.next
  {
    StarterDoes(s, p, c, t);
    CallHere(s, c);
    Look(s, t, {p, c}, d);
  }

  lemma BodyKeepsKind(s: State, g: FrameId, t: State, d: FrameId)
    requires At(s, g) && StepBody(s, g) == Next(t)
    ensures KindKept(s, t, d) && TripKept(s, t, d) && s.next <= t.next
  {
    Here(s, g);
    var code := s.heap[g].code;
    if code.Start? || code.Cross? || code.Detach? || code.Launch? || code.HandBack? {
      SpawnKeepsKind(s, g, t, d);
    } else if code.Await? {
      AwaitKeepsKind(s, g, t, d);
    } else if code.Make? {
      MakeKeepsKind(s, g, t, d);
    } else {
      PlainKeepsKind(s, g, t, d);
    }
  }

  lemma PlainKeepsKind(s: State, g: FrameId, t: State, d: FrameId)
    requires At(s, g) && IsRunning(s, g) && StepBody(s, g) == Next(t)
    requires s.heap[g].code.Return? || s.heap[g].code.Branch? || s.heap[g].code.Operation?
    ensures KindKept(s, t, d) && TripKept(s, t, d) && s.next <= t.next
  {
    PlainDoes(s, g, t);
    Look(s, t, {g}, d);
  }

  lemma MakeKeepsKind(s: State, g: FrameId, t: State, d: FrameId)
    requires At(s, g) && IsRunning(s, g) && s.heap[g].code.Make? && StepBody(s, g) == Next(t)
    ensures KindKept(s, t, d) && TripKept(s, t, d) && s.next <= t.next
  {
    Here(s, g);
    NextIsFree(s);
    Look(s, t, {g, s.next}, d);
  }

  lemma AwaitKeepsKind(s: State, g: FrameId, t: State, d: FrameId)
    requires At(s, g) && IsRunning(s, g) && s.heap[g].code.Await? && StepBody(s, g) == Next(t)
    ensures KindKept(s, t, d) && TripKept(s, t, d) && s.next <= t.next
  {
    Here(s, g);
    InVariable(s, g, s.heap[g].code.slot);
    if s.heap[s.heap[g].slots[s.heap[g].code.slot]].point.Final? {
      TakeKeepsKind(s, g, t, d);
    } else {
      PendingKeepsKind(s, g, t, d);
    }
  }

  lemma TakeKeepsKind(s: State, g: FrameId, t: State, d: FrameId)
    requires At(s, g) && IsAwait(s, g, t) && s.heap[Awaited(s, g)].point.Final?
    ensures KindKept(s, t, d) && TripKept(s, t, d) && s.next <= t.next
  {
    Here(s, g);
    InVariable(s, g, s.heap[g].code.slot);
    TwoAside(s, t, g, Awaited(s, g), d);
  }

  lemma PendingKeepsKind(s: State, g: FrameId, t: State, d: FrameId)
    requires At(s, g) && IsAwait(s, g, t) && !s.heap[Awaited(s, g)].point.Final?
    ensures KindKept(s, t, d) && TripKept(s, t, d) && s.next <= t.next
  {
    AwaitPendingDoes(s, g, t);
    Look(s, t, {g, Awaited(s, g)}, d);
  }

  lemma SpawnKeepsKind(s: State, g: FrameId, t: State, d: FrameId)
    requires At(s, g) && IsRunning(s, g) && StepBody(s, g) == Next(t)
    requires var c := s.heap[g].code; c.Start? || c.Cross? || c.Detach? || c.Launch? || c.HandBack?
    ensures KindKept(s, t, d) && TripKept(s, t, d) && s.next <= t.next
  {
    hide StepBody, KindKept, TripKept, Inv;
    match s.heap[g].code
    case Start(_, _) => StartKeepsKind(s, g, t, d);
    case Cross(_, _, _) => CrossKeepsKind(s, g, t, d);
    case Detach(_, _, _) => DetachKeepsKind(s, g, t, d);
    case Launch(p) => LaunchKeepsKind(s, g, p, t, d);
    case HandBack(p) => BackKeepsKind(s, g, p, t, d);
  }

  lemma StartKeepsKind(s: State, g: FrameId, t: State, d: FrameId)
    requires At(s, g) && IsRunning(s, g) && s.heap[g].code.Start? && StepBody(s, g) == Next(t)
    ensures KindKept(s, t, d) && TripKept(s, t, d) && s.next <= t.next
  {
    StartDoes(s, g, t);
    Look(s, t, {g, s.heap[g].slots[s.heap[g].code.slot]}, d);
  }

  lemma CrossKeepsKind(s: State, g: FrameId, t: State, d: FrameId)
    requires At(s, g) && IsRunning(s, g) && s.heap[g].code.Cross? && StepBody(s, g) == Next(t)
    ensures KindKept(s, t, d) && TripKept(s, t, d) && s.next <= t.next
  {
    CrossIsWhole(s, g, t);
    CrossedKind(s, t, g, s.heap[g].slots[s.heap[g].code.slot], s.next, s.heap[g].code.slot, d);
  }

  lemma CrossedKind(s: State, t: State, g: FrameId, c: FrameId, l: FrameId, slot: nat, d: FrameId)
    requires s.stack != [] && Top(s) == Body(g) && Crosses(s, t, g, c, l, slot) && l == s.next <= t.next
    ensures KindKept(s, t, d) && TripKept(s, t, d)
  {
    Look(s, t, {g, c, l}, d);
  }

  lemma DetachKeepsKind(s: State, g: FrameId, t: State, d: FrameId)
    requires At(s, g) && IsRunning(s, g) && s.heap[g].code.Detach? && StepBody(s, g) == Next(t)
    ensures KindKept(s, t, d) && TripKept(s, t, d) && s.next <= t.next
  {
    hide LinkOk, EntryOk, ClearCalls, YoungOk, WellFormed, First;
    DetachDoesAll(s, g, t);
    Look(s, t, {g, s.heap[g].slots[s.heap[g].code.slot]}, d);
  }

  lemma LaunchKeepsKind(s: State, g: FrameId, p: FrameId, t: State, d: FrameId)
    requires At(s, g) && IsRunning(s, g) && s.heap[g].code == Launch(p) && StepBody(s, g) == Next(t)
    ensures KindKept(s, t, d) && TripKept(s, t, d) && s.next <= t.next
  {
    LaunchDoesAll(s, g, p, t);
    Look(s, t, {g, p, s.heap[p].point.held.value}, d);
  }

  lemma BackKeepsKind(s: State, g: FrameId, p: FrameId, t: State, d: FrameId)
    requires At(s, g) && IsRunning(s, g) && s.heap[g].code == HandBack(p) && StepBody(s, g) == Next(t)
    ensures KindKept(s, t, d) && TripKept(s, t, d) && s.next <= t.next
  {
    BackDoes(s, g, t);
    Look(s, t, {g, p}, d);
  }

  // ---- the native calls after a step ----

  /** A Resume that a body pushes is bound to a completion queue; one that a Resume leaves in its place
      is bound to the same executor. No other call pushes one. */
  ghost predicate PushOk(s: State, t: State, rest: seq<Activation>)
    requires s.stack != []
  {
    forall k | 0 <= k < |rest| && rest[k].Resumer? ::
      && k == 0 && rest[k].target in t.heap
      && (if Top(s).Body? then t.heap[rest[k].target].home.CompletionQueue?
          else Top(s).Resumer? && Top(s).target in s.heap && t.heap[rest[k].target].home == s.heap[Top(s).target].home)
  }

  ghost function Kept(s: State, pop: bool): seq<Activation>
    requires s.stack != []
  {
    if pop then Pop(s.stack) else s.stack
  }

  lemma StepStack(s: State, t: State) returns (pop: bool, rest: seq<Activation>)
    requires Inv(s) && s.stack != [] && Step(s) == Next(t)
    ensures t.stack == Kept(s, pop) + rest && PushOk(s, t, rest) && (pop || Top(s).Body?)
  {
    if Top(s).Body? {
      pop, rest := BodyStack(s, Top(s).frame, t);
    } else {
      rest := CallStack(s, t);
      pop := true;
    }
  }

  lemma CallStack(s: State, t: State) returns (rest: seq<Activation>)
    requires AtCall(s) && Step(s) == Next(t)
    ensures t.stack == Pop(s.stack) + rest && PushOk(s, t, rest)
  {
    hide WellFormed, First, LauncherOk, YoungOk, TagsOk, QueuesOk;
    CallHere(s, Subject(Top(s)));
    rest := [];
    match Top(s)
    case Resumer(g) =>
      if Ended(s, g) && s.heap[g].owner.HeldBy? {
        var p := s.heap[g].owner.frame;
        ResumerTakes(s, g, p, t);
        assert FrameOk(s, p);
        rest := [Resumer(p), Body(p)];
      }
    case Awaiter(p, c) => if s.heap[c].point.Final? { rest := [Body(p)]; }
    case Starter(p, c) => rest := [Body(p)];
  }

  lemma BodyStack(s: State, g: FrameId, t: State) returns (pop: bool, rest: seq<Activation>)
    requires At(s, g) && StepBody(s, g) == Next(t)
    ensures t.stack == Kept(s, pop) + rest && PushOk(s, t, rest)
  {
    Here(s, g);
    var code := s.heap[g].code;
    if code.Cross? || code.Detach? || code.HandBack? {
      pop, rest := SpawnStack(s, g, t);
    } else if code.Await? || code.Start? || code.Launch? {
      pop, rest := AwaitStack(s, g, t);
    } else {
      pop, rest := code.Return? || code.Operation?, [];
    }
  }

  lemma AwaitStack(s: State, g: FrameId, t: State) returns (pop: bool, rest: seq<Activation>)
    requires At(s, g) && IsRunning(s, g) && StepBody(s, g) == Next(t)
    requires s.heap[g].code.Await? || s.heap[g].code.Start? || s.heap[g].code.Launch?
    ensures t.stack == Kept(s, pop) + rest && PushOk(s, t, rest)
  {
    Here(s, g);
    var fr := s.heap[g];
    pop, rest := true, [];
    match fr.code
    case Await(slot, _) =>
      InVariable(s, g, slot);
      if s.heap[fr.slots[slot]].point.Final? {
        pop := false;
      } else {
        AwaitPendingDoes(s, g, t);
        if s.heap[fr.slots[slot]].executor == None { rest := [Awaiter(g, fr.slots[slot]), Body(fr.slots[slot])]; }
      }
    case Start(slot, _) =>
      StartDoes(s, g, t);
      rest := [Starter(g, fr.slots[slot]), Body(fr.slots[slot])];
    case Launch(p) =>
      LaunchDoesAll(s, g, p, t);
      rest := [Awaiter(g, s.heap[p].point.held.value), Body(s.heap[p].point.held.value)];
  }

  lemma SpawnStack(s: State, g: FrameId, t: State) returns (pop: bool, rest: seq<Activation>)
    requires At(s, g) && IsRunning(s, g) && StepBody(s, g) == Next(t)
    requires s.heap[g].code.Cross? || s.heap[g].code.Detach? || s.heap[g].code.HandBack?
    ensures t.stack == Kept(s, pop) + rest && PushOk(s, t, rest)
  {
    hide YoungOk, TagsOk, QueuesOk;
    Here(s, g);
    var fr := s.heap[g];
    match fr.code
    case Cross(on, slot, _) =>
      CrossIsWhole(s, g, t);
      pop, rest := true, if on.Game? then [] else [Resumer(s.next), Body(s.next)];
    case Detach(on, slot, _) =>
      DetachDoesAll(s, g, t);
      InVariable(s, g, slot);
      var c := fr.slots[slot];
      pop, rest := false, if on.Game? then [] else [Resumer(c), Body(c)];
    case HandBack(p) =>
      BackDoes(s, g, t);
      BackCalls(s, g, t);
      pop, rest := false, if s.heap[p].home.Game? then [] else [Resumer(p), Body(p)];
  }

  /** A step only touches the top of the native stack. */
  lemma StepKeepsLow(s: State, h: nat)
    requires Inv(s) && h < |s.stack| && Step(s).Next?
    ensures h <= |Step(s).state.stack| && Step(s).state.stack[..h] == s.stack[..h]
  {
    var pop, rest := StepStack(s, Step(s).state);
  }

  // ---- threads ----

  ghost function HomeAt(s: State, k: nat): Executor
    requires StackOk(s) && k < |s.stack|
  {
    assert EntryOk(s, s.stack[k]);
    s.heap[Subject(s.stack[k])].home
  }

  /** Only the Resume at the bottom can be one that a game executor's Update made. */
  ghost predicate OneThread(s: State) {
    forall k | 0 < k < |s.stack| && s.stack[k].Resumer? ::
      s.stack[k].target in s.heap ==> s.heap[s.stack[k].target].home.CompletionQueue?
  }

  /** A Resume that a step leaves in place keeps its executor. */
  lemma ResumeKept(s: State, t: State, k: nat)
    requires Inv(s) && s.stack != [] && Step(s) == Next(t)
    requires k < |s.stack| && s.stack[k].Resumer? && s.stack[k].target in t.heap
    ensures s.stack[k].target in s.heap && t.heap[s.stack[k].target].home == s.heap[s.stack[k].target].home
  {
    assert EntryOk(s, s.stack[k]) && FrameOk(s, s.stack[k].target);
    StepKeepsKind(s, t, s.stack[k].target);
  }

  lemma StepKeepsThread(s: State, t: State)
    requires Inv(s) && OneThread(s) && s.stack != [] && Step(s) == Next(t)
    ensures OneThread(t)
  {
    hide Step, Inv;
    var pop, rest := StepStack(s, t);
    var m := |Kept(s, pop)|;
    forall k | 0 < k < |t.stack| && t.stack[k].Resumer? && t.stack[k].target in t.heap
      ensures t.heap[t.stack[k].target].home.CompletionQueue?
    {
      if k < m {
        assert t.stack[k] == s.stack[k];
        ResumeKept(s, t, k);
      } else {
        assert t.stack[k] == rest[k - m];
        assert s.stack[|s.stack| - 1] == Top(s);
      }
    }
  }

  /** Within a segment, calls change executor only by a Resume. */
  lemma NeighboursShareExecutor(s: State, k: nat)
    requires Inv(s) && 0 < k < |s.stack| && !s.stack[k].Resumer?
    ensures HomeAt(s, k) == HomeAt(s, k - 1)
  {
    assert LinkOk(s, k) && EntryOk(s, s.stack[k]) && EntryOk(s, s.stack[k - 1]);
    match s.stack[k]
    case Body(_) =>
    case Awaiter(p, c) => assert HoldOk(s, p, Awaiting) && OwnerOk(s, c) && FrameOk(s, p) && FrameOk(s, c);
    case Starter(p, c) => assert HoldOk(s, p, Starting) && OwnerOk(s, c) && FrameOk(s, p) && FrameOk(s, c);
  }

  /** A call about a frame of a game executor sits, through calls of the same executor only, over a Resume
      at the bottom for a frame of that executor. */
  lemma {:induction false} GameCallsReachBottom(s: State, k: nat)
    requires Inv(s) && OneThread(s) && k < |s.stack| && HomeAt(s, k).Game?
    ensures forall j: nat | j <= k :: HomeAt(s, j) == HomeAt(s, k)
    ensures s.stack[0].Resumer?
  {
    assert EntryOk(s, s.stack[k]);
    if k > 0 {
      NeighboursShareExecutor(s, k);
      GameCallsReachBottom(s, k - 1);
    }
  }

  // ---- what begins a segment ----

  /** The event that began the segment, if one runs: Update's loop on the executor of the call at the
      bottom, or an event from outside on a completion queue. */
  ghost predicate BegunBy(s: State, e: Event)
    requires StackOk(s)
  {
    s.stack != [] ==>
      match e
      case NextReady(n) => HomeAt(s, 0) == Game(n)
      case Tick(_, _) => HomeAt(s, 0).CompletionQueue?
      case SpawnRoot(on, _) => on.CompletionQueue? && HomeAt(s, 0) == on
      case _ => false
  }

  /** The bottom of the stack keeps its executor as long as the segment runs. */
  lemma StepKeepsBottom(s: State, t: State)
    requires Inv(s) && s.stack != [] && Step(s) == Next(t) && Inv(t) && t.stack != []
    ensures HomeAt(t, 0) == HomeAt(s, 0)
  {
    BottomResumes(s);
    BottomResumes(t);
    var pop, rest := StepStack(s, t);
    if Kept(s, pop) != [] {
      assert t.stack[0] == s.stack[0];
      ResumeKept(s, t, 0);
    } else {
      assert s.stack == [Top(s)];
      assert t.stack[0] == rest[0];
    }
  }

  lemma BottomResumes(s: State)
    requires Inv(s) && s.stack != []
    ensures s.stack[0].Resumer? && s.stack[0].target in s.heap && HomeAt(s, 0) == s.heap[s.stack[0].target].home
  {
    assert EntryOk(s, s.stack[0]);
  }

  /** The latest event that was not a step of a segment. */
  ghost function Opener(before: Event, events: seq<Event>): Event
    decreases |events|
  {
    if events == [] then before else Opener(if events[0].Internal? then before else events[0], events[1..])
  }

  ghost predicate Threaded(s: State, before: Event) {
    Inv(s) && OneThread(s) && BegunBy(s, before)
  }

  lemma ApplyKeepsThread(s: State, e: Event, before: Event)
    requires Threaded(s, before) && Enabled(s, e)
    ensures Apply(s, e).Next? && Threaded(Apply(s, e).state, if e.Internal? then before else e)
  {
    ApplyKeepsInv(s, e);
    var t := Apply(s, e).state;
    if e.Internal? {
      StepKeepsThread(s, t);
      if t.stack != [] { StepKeepsBottom(s, t); }
    } else {
      DeliverBegins(s, e, t);
    }
  }

  lemma DeliverBegins(s: State, e: Event, t: State)
    requires Inv(s) && Enabled(s, e) && !e.Internal? && Apply(s, e) == Next(t) && Inv(t)
    ensures OneThread(t) && BegunBy(t, e)
  {
    match e
    case Tick(f, ok) => TickBegins(s, f, ok, t);
    case NextReady(n) => NextReadyBegins(s, n, t);
    case SpawnRoot(on, body) => RootBegins(s, on, body, t);
    case _ => hide Inv, OneThread, BegunBy; NothingBegins(t, e);
  }

  lemma NothingBegins(t: State, e: Event)
    requires StackOk(t) && t.stack == []
    ensures OneThread(t) && BegunBy(t, e)
  {
  }

  lemma TickBegins(s: State, f: FrameId, ok: bool, t: State)
    requires Inv(s) && Enabled(s, Tick(f, ok)) && Apply(s, Tick(f, ok)) == Next(t) && Inv(t)
    ensures OneThread(t) && BegunBy(t, Tick(f, ok))
  {
    assert FrameOk(s, f);
    BottomResumes(t);
  }

  lemma NextReadyBegins(s: State, n: nat, t: State)
    requires Inv(s) && Enabled(s, NextReady(n)) && Apply(s, NextReady(n)) == Next(t) && Inv(t)
    ensures OneThread(t) && BegunBy(t, NextReady(n))
  {
    NextReadyHead(s, n);
    BottomResumes(t);
  }

  lemma RootBegins(s: State, on: Executor, body: Code, t: State)
    requires Inv(s) && Enabled(s, SpawnRoot(on, body)) && Apply(s, SpawnRoot(on, body)) == Next(t) && Inv(t)
    ensures OneThread(t) && BegunBy(t, SpawnRoot(on, body))
  {
    if t.stack != [] { BottomResumes(t); }
  }

  lemma {:induction false} RunKeepsThread(s: State, events: seq<Event>, t: State, before: Event)
    requires Threaded(s, before) && IsRun(s, events, t)
    ensures Threaded(t, Opener(before, events))
    decreases |events|
  {
    hide Threaded, Apply;
    if events != [] {
      ApplyKeepsThread(s, events[0], before);
      RunKeepsThread(Apply(s, events[0]).state, events[1..], t, if events[0].Internal? then before else events[0]);
    }
  }
}
