/** Every step of a body keeps the invariant and cannot fault.

    One group of lemmas for each operation of a program. A step is first described by what it writes (a
    predicate such as `CrossWrites`), so that the later lemmas of its group do not look at the step
    function again; then one lemma shows the heap part of the invariant, by the matching lemma of
    HeapLemmas, and one the part about calls, tags and queues, by those of CallLemmas and StackLemmas.
    The steps that spawn come in two forms: a game executor queues the job, and the body goes on, or a
    completion-queue executor resumes it at once, under the body that spawned it. */
module Steps {
  import opened Programs
  import opened Machine
  import opened Invariants
  import opened HeapLemmas
  import opened CallLemmas
  import opened StackLemmas

  ghost predicate Good(o: Outcome) {
    o.Next? && Core(o.state)
  }

  ghost predicate CoreAt(s: State, f: FrameId) {
    Core(s) && s.stack != [] && Top(s) == Body(f)
  }

  lemma Here(s: State, f: FrameId)
    requires CoreAt(s, f)
    ensures f in s.heap && s.heap[f].point.Running? && Bound(s.heap[f]) && SelfOk(s.heap[f]) && f < s.next
    ensures |s.stack| >= 2 && !s.stack[|s.stack| - 2].Body? && Subject(s.stack[|s.stack| - 2]) == f
    ensures s.heap[f].home.Game? ==> s.heap[f].home.id in s.updating
    ensures s.stack == Pop(s.stack) + [Body(f)]
  {
    BodyOnTop(s, f);
    assert FrameOk(s, f);
  }

  lemma UserCode(code: Code, on: Executor, types: map<nat, SlotType>)
    requires WellFormed(code, on, types)
    ensures !code.Launch? && !code.HandBack?
  {
  }

  /** No other frame's activity rests on the call on top. */
  lemma OthersActive(s: State, t: State, changed: set<FrameId>, f: FrameId)
    requires CoreAt(s, f) && Only(s, t, changed) && f in changed
    requires forall a | a in Pop(s.stack) :: a in t.stack
    requires forall d | d in changed && d in t.heap :: ActiveOk(t, d)
    ensures ActivesOk(t)
  {
    forall a | a in s.stack ensures a in t.stack || Depends(a) in changed {
      if a != Body(f) { assert a in Pop(s.stack); }
    }
    ActivesElsewhere(s, t, changed);
  }

  lemma ReturnStep(s: State, f: FrameId)
    requires CoreAt(s, f) && f in s.heap && s.heap[f].code.Return?
    ensures Good(StepBody(s, f))
  {
    Here(s, f);
    var fr := s.heap[f];
    assert fr.slots == map[];
    var t := s.(heap := s.heap[f := fr.(point := Final(fr.code.result(fr.vals)))], stack := Pop(s.stack));
    assert StepBody(s, f) == Next(t);
    LocalChange(s, t, f);
    BodyStops(s, t, {f}, f);
    OthersActive(s, t, {f}, f);
    TagsElsewhere(s, t, {f});
    QueuesElsewhere(s, t, {f});
  }

  lemma BranchStep(s: State, f: FrameId)
    requires CoreAt(s, f) && f in s.heap && s.heap[f].code.Branch?
    ensures Good(StepBody(s, f))
  {
    Here(s, f);
    var fr := s.heap[f];
    var code := if fr.code.test(fr.vals) then fr.code.yes else fr.code.no;
    UserCode(code, fr.home, fr.types);
    var t := s.(heap := s.heap[f := fr.(code := code)]);
    assert StepBody(s, f) == Next(t);
    LocalChange(s, t, f);
    BodyGoesOn(s, t, {f}, f, |s.stack|);
    OthersActive(s, t, {f}, f);
    TagsElsewhere(s, t, {f});
    QueuesElsewhere(s, t, {f});
  }

  lemma OperationStep(s: State, f: FrameId)
    requires CoreAt(s, f) && f in s.heap && s.heap[f].code.Operation?
    ensures Good(StepBody(s, f))
  {
    Here(s, f);
    var fr := s.heap[f];
    UserCode(fr.code.next, fr.home, fr.types);
    var t := s.(heap := s.heap[f := fr.(code := fr.code.next, point := AtOperation(fr.code.key, false))],
                tags := s.tags + multiset{f}, stack := Pop(s.stack));
    assert StepBody(s, f) == Next(t);
    LocalChange(s, t, f);
    BodyStops(s, t, {f}, f);
    OthersActive(s, t, {f}, f);
    TagsElsewhere(s, t, {f});
    QueuesElsewhere(s, t, {f});
  }

  lemma NextIsFree(s: State)
    requires HeapOk(s)
    ensures s.next !in s.heap
  {
    forall c | c in s.heap ensures c < s.next { assert FrameOk(s, c); }
  }

  lemma MakeStep(s: State, f: FrameId)
    requires CoreAt(s, f) && f in s.heap && s.heap[f].code.Make?
    ensures Good(StepBody(s, f))
  {
    Here(s, f);
    var c := s.next;
    var Make(slot, on, body, next) := s.heap[f].code;
    assert slot !in s.heap[f].slots;
    var t := StepMake(s, f, slot, on, body, next).state;
    assert StepBody(s, f) == Next(t);
    MakeHeap(s, f, t);
    BodyGoesOn(s, t, {f, c}, f, |s.stack|);
    OthersActive(s, t, {f, c}, f);
    TagsElsewhere(s, t, {f, c});
    QueuesElsewhere(s, t, {f, c});
  }

  /** The task in a variable of the running body. */
  lemma InVariable(s: State, f: FrameId, slot: nat)
    requires CoreAt(s, f) && f in s.heap && slot in s.heap[f].types
    ensures slot in s.heap[f].slots && CanUse(s, f, slot)
    ensures var c := s.heap[f].slots[slot];
      && EdgeOk(f, s.heap[f], Slot(slot), c, s.heap[c]) && s.heap[c].owner == HeldBy(f, Slot(slot))
      && SelfOk(s.heap[c]) && ActiveOk(s, c) && f < c < s.next
  {
    Here(s, f);
    assert slot in s.heap[f].slots;
    assert HoldOk(s, f, Slot(slot));
    var c := s.heap[f].slots[slot];
    assert OwnerOk(s, c) && FrameOk(s, c) && ActiveOk(s, c);
  }

  // ---- single frames ----

  /** The frame of a body that goes on from an operation of its own on a task variable. */
  ghost predicate Goes(fr: Frame, to: Frame, types: map<nat, SlotType>) {
    && SelfOk(fr) && Bound(fr) && fr.point.Running? && (fr.code.Make? || fr.code.Await? || fr.code.Start?)
    && to == fr.(code := fr.code.next, slots := to.slots, types := types, point := to.point)
  }

  lemma AwaiterSelf(fr: Frame, to: Frame, c: FrameId)
    requires fr.code.Await? && Goes(fr, to, fr.types - {fr.code.slot})
    requires to.slots == fr.slots - {fr.code.slot} && to.point == AtTask(c)
    ensures SelfOk(to) && Stable(fr, to) && TypesKept(fr, to, {Slot(fr.code.slot), Awaiting}) && fr.role.Program?
    ensures forall at :: Hold(to, at) == (
              if at == Slot(fr.code.slot) then None else if at == Awaiting then Some(c) else Hold(fr, at))
  {
    UserCode(to.code, to.home, to.types);
  }

  lemma StarterSelf(fr: Frame, to: Frame, c: FrameId)
    requires fr.code.Start? && Goes(fr, to, fr.types[fr.code.slot := Started])
    requires to.slots == fr.slots - {fr.code.slot} && to.point == AtStart(fr.code.slot, c)
    ensures SelfOk(to) && Stable(fr, to) && TypesKept(fr, to, {Slot(fr.code.slot), Starting}) && fr.role.Program?
    ensures forall at :: Hold(to, at) == (
              if at == Slot(fr.code.slot) then None else if at == Starting then Some(c) else Hold(fr, at))
  {
    UserCode(to.code, to.home, to.types);
  }

  lemma MakerSelf(fr: Frame, to: Frame, c: FrameId)
    requires fr.code.Make? && Goes(fr, to, fr.types[fr.code.slot := FreshTask(fr.code.body, fr.code.on)])
    requires to.slots == fr.slots[fr.code.slot := c] && to.point.Running?
    ensures SelfOk(to) && Stable(fr, to) && TypesKept(fr, to, {Slot(fr.code.slot)})
    ensures SelfOk(NewTask(fr.code.body, fr.code.on, HeldBy(0, Slot(fr.code.slot))))
    ensures forall at :: Hold(to, at) == if at == Slot(fr.code.slot) then Some(c) else Hold(fr, at)
  {
    UserCode(to.code, to.home, to.types);
    UserCode(fr.code.body, fr.code.on, map[]);
  }

  lemma MadeSelf(body: Code, on: Executor, f: FrameId, slot: nat)
    requires SelfOk(NewTask(body, on, HeldBy(0, Slot(slot))))
    ensures SelfOk(NewTask(body, on, HeldBy(f, Slot(slot))))
  {
  }

  /** A task that is entered, or joined. */
  lemma TaskMoves(fr: Frame, to: Frame)
    requires SelfOk(fr) && fr.role.Program? && fr.owner.HeldBy? && !fr.owner.place.Awaiting? && !fr.point.Final?
    requires to == fr.(owner := to.owner, parent := to.parent, executor := to.executor, point := to.point)
    requires to.owner.HeldBy? && to.parent == if to.owner.place.Awaiting? then Some(to.owner.frame) else fr.parent
    requires if fr.executor == None then to.executor == Some(fr.home) && to.point.Running?
             else to.executor == fr.executor && to.point == fr.point
    ensures Moved(fr, to)
  {
  }

  // ---- a new task ----

  lemma MakeHeap(s: State, f: FrameId, t: State)
    requires CoreAt(s, f) && IsRunning(s, f) && s.heap[f].code.Make?
    requires var c := s.heap[f].code; StepMake(s, f, c.slot, c.on, c.body, c.next) == Next(t)
    ensures HeapOk(t) && s.next !in s.heap
  {
    NextIsFree(s);
    MakeIs(s, f, t);
    Create(s, t, f, s.heap[f].code.slot, s.next);
  }

  lemma MakeIs(s: State, f: FrameId, t: State)
    requires CoreAt(s, f) && IsRunning(s, f) && s.heap[f].code.Make? && s.next !in s.heap
    requires var c := s.heap[f].code; StepMake(s, f, c.slot, c.on, c.body, c.next) == Next(t)
    ensures IsMake(s, t, f, s.heap[f].code.slot, s.next)
  {
    hide LocalOk, TypedOk, WellFormed, First, TagsOk, QueuesOk, StackOk, ActivesOk;
    Here(s, f);
    var Make(slot, on, body, _) := s.heap[f].code;
    MakerSelf(s.heap[f], t.heap[f], s.next);
    MadeSelf(body, on, f, slot);
  }

  // ---- co_await of a task ----

  lemma AwaitStep(s: State, f: FrameId)
    requires CoreAt(s, f) && f in s.heap && s.heap[f].code.Await?
    ensures Good(StepBody(s, f))
  {
    Here(s, f);
    var Await(slot, next) := s.heap[f].code;
    InVariable(s, f, slot);
    var c := s.heap[f].slots[slot];
    assert StepBody(s, f) == StepAwait(s, f, slot, next);
    if s.heap[c].point.Final? {
      AwaitFinished(s, f, StepAwait(s, f, slot, next).state);
    } else if s.heap[c].executor == None {
      AwaitFresh(s, f, StepAwait(s, f, slot, next).state);
    } else {
      AwaitStarted(s, f, StepAwait(s, f, slot, next).state);
    }
  }

  ghost predicate IsAwait(s: State, f: FrameId, t: State) {
    CoreAt(s, f) && IsRunning(s, f) && s.heap[f].code.Await? && s.heap[f].code.slot in s.heap[f].slots
    && s.heap[f].slots[s.heap[f].code.slot] in s.heap
    && StepAwait(s, f, s.heap[f].code.slot, s.heap[f].code.next) == Next(t)
  }

  ghost function Awaited(s: State, f: FrameId): FrameId
    requires IsRunning(s, f) && s.heap[f].code.Await? && s.heap[f].code.slot in s.heap[f].slots
  {
    s.heap[f].slots[s.heap[f].code.slot]
  }

  lemma AwaitFinished(s: State, f: FrameId, t: State)
    requires IsAwait(s, f, t) && s.heap[Awaited(s, f)].point.Final?
    ensures Core(t)
  {
    Here(s, f);
    var slot, c := s.heap[f].code.slot, Awaited(s, f);
    InVariable(s, f, slot);
    AwaitFinishedIs(s, f, t);
    Release(s, t, f, Slot(slot), c);
    ParkedIsClear(s, c);
    AwaitFinishedCalls(s, f, c, t);
  }

  lemma AwaitFinishedIs(s: State, f: FrameId, t: State)
    requires IsAwait(s, f, t) && s.heap[Awaited(s, f)].point.Final?
    ensures IsRelease(s, t, f, Slot(s.heap[f].code.slot), Awaited(s, f)) && t.heap[f].point.Running?
  {
    Here(s, f);
    InVariable(s, f, s.heap[f].code.slot);
    UserCode(s.heap[f].code.next, s.heap[f].home, s.heap[f].types - {s.heap[f].code.slot});
  }

  lemma AwaitFinishedCalls(s: State, f: FrameId, c: FrameId, t: State)
    requires CoreAt(s, f) && HeapOk(t) && Only(s, t, {f, c}) && SameBinding(s, t, f) && t.heap[f].point.Running?
    requires c in s.heap && c !in t.heap && s.heap[c].point.Final? && Clear(s, c, |s.stack|)
    requires t.stack == s.stack && t.updating == s.updating && t.ready == s.ready && t.tags == s.tags
    ensures Core(t)
  {
    Here(s, f);
    BodyGoesOn(s, t, {f, c}, f, |s.stack|);
    OthersActive(s, t, {f, c}, f);
    TagsElsewhere(s, t, {f, c});
    QueuesElsewhere(s, t, {f, c});
  }

  lemma AwaitFresh(s: State, f: FrameId, t: State)
    requires IsAwait(s, f, t) && s.heap[Awaited(s, f)].executor == None
    ensures Core(t)
  {
    Here(s, f);
    var slot, c := s.heap[f].code.slot, Awaited(s, f);
    InVariable(s, f, slot);
    AwaitFreshHeap(s, f, t);
    ParkedIsClear(s, c);
    BodyEnters(s, t, {f, c}, f, Awaiter(f, c), c);
    OthersActive(s, t, {f, c}, f);
    TagsElsewhere(s, t, {f, c});
    QueuesElsewhere(s, t, {f, c});
  }

  lemma AwaitFreshHeap(s: State, f: FrameId, t: State)
    requires IsAwait(s, f, t) && s.heap[Awaited(s, f)].executor == None
    ensures HeapOk(t)
  {
    AwaitFreshIs(s, f, t);
    Rehold(s, t, f, Slot(s.heap[f].code.slot), Awaited(s, f), Awaiting);
  }

  lemma AwaitFreshIs(s: State, f: FrameId, t: State)
    requires IsAwait(s, f, t) && s.heap[Awaited(s, f)].executor == None
    ensures IsRehold(s, t, f, Slot(s.heap[f].code.slot), Awaited(s, f), Awaiting)
  {
    hide LocalOk, TypedOk, WellFormed, First, TagsOk, QueuesOk, StackOk, ActivesOk;
    Here(s, f);
    AwaitsTyped(s, f);
    InVariable(s, f, s.heap[f].code.slot);
    AwaiterSelf(s.heap[f], t.heap[f], Awaited(s, f));
    TaskMoves(s.heap[Awaited(s, f)], t.heap[Awaited(s, f)]);
  }

  lemma AwaitsTyped(s: State, f: FrameId)
    requires CoreAt(s, f) && f in s.heap && (s.heap[f].code.Await? || s.heap[f].code.Start?)
    ensures s.heap[f].code.slot in s.heap[f].types && CanUse(s, f, s.heap[f].code.slot)
    ensures var c := s.heap[s.heap[f].slots[s.heap[f].code.slot]];
      && c.role.Program? && c.owner.HeldBy? && (c.executor == None ==> c.home == s.heap[f].home && c.point.Initial?)
      && (s.heap[f].code.Start? ==> c.executor == None)
  {
    Here(s, f);
    InVariable(s, f, s.heap[f].code.slot);
  }

  lemma AwaitStarted(s: State, f: FrameId, t: State)
    requires IsAwait(s, f, t) && s.heap[Awaited(s, f)].executor.Some? && !s.heap[Awaited(s, f)].point.Final?
    ensures Core(t)
  {
    Here(s, f);
    InVariable(s, f, s.heap[f].code.slot);
    AwaitStartedHeap(s, f, t);
    AwaitStartedCalls(s, f, Awaited(s, f), t);
  }

  lemma AwaitStartedCalls(s: State, f: FrameId, c: FrameId, t: State)
    requires CoreAt(s, f) && HeapOk(t) && Only(s, t, {f, c}) && SameBinding(s, t, f) && t.heap[f].point == AtTask(c)
    requires c in s.heap && c in t.heap && !s.heap[c].point.Final? && s.heap[c].owner.HeldBy? && ActiveOk(s, c)
    requires t.heap[c] == s.heap[c].(owner := t.heap[c].owner, parent := t.heap[c].parent) && t.heap[c].owner.HeldBy?
    requires t.stack == Pop(s.stack) && t.updating == s.updating && t.ready == s.ready && t.tags == s.tags
    ensures Core(t)
  {
    Here(s, f);
    assert Calm(s, t, c);
    BodyStops(s, t, {f, c}, f);
    OthersActive(s, t, {f, c}, f);
    TagsElsewhere(s, t, {f, c});
    QueuesElsewhere(s, t, {f, c});
  }

  lemma AwaitStartedHeap(s: State, f: FrameId, t: State)
    requires IsAwait(s, f, t) && s.heap[Awaited(s, f)].executor.Some? && !s.heap[Awaited(s, f)].point.Final?
    ensures HeapOk(t)
  {
    AwaitStartedIs(s, f, t);
    Rehold(s, t, f, Slot(s.heap[f].code.slot), Awaited(s, f), Awaiting);
  }

  lemma AwaitStartedIs(s: State, f: FrameId, t: State)
    requires IsAwait(s, f, t) && s.heap[Awaited(s, f)].executor.Some? && !s.heap[Awaited(s, f)].point.Final?
    ensures IsRehold(s, t, f, Slot(s.heap[f].code.slot), Awaited(s, f), Awaiting)
  {
    hide LocalOk, TypedOk, WellFormed, First, TagsOk, QueuesOk, StackOk, ActivesOk;
    Here(s, f);
    AwaitsTyped(s, f);
    InVariable(s, f, s.heap[f].code.slot);
    AwaiterSelf(s.heap[f], t.heap[f], Awaited(s, f));
    TaskMoves(s.heap[Awaited(s, f)], t.heap[Awaited(s, f)]);
  }

  // ---- StartSubroutine ----

  lemma StartStep(s: State, f: FrameId)
    requires CoreAt(s, f) && f in s.heap && s.heap[f].code.Start?
    ensures Good(StepBody(s, f))
  {
    Here(s, f);
    var Start(slot, next) := s.heap[f].code;
    InVariable(s, f, slot);
    var c := s.heap[f].slots[slot];
    var t := StepStart(s, f, slot, next).state;
    assert StepBody(s, f) == Next(t);
    StartHeap(s, f, t);
    ParkedIsClear(s, c);
    BodyEnters(s, t, {f, c}, f, Starter(f, c), c);
    OthersActive(s, t, {f, c}, f);
    TagsElsewhere(s, t, {f, c});
    QueuesElsewhere(s, t, {f, c});
  }

  lemma StartHeap(s: State, f: FrameId, t: State)
    requires CoreAt(s, f) && IsRunning(s, f) && s.heap[f].code.Start? && s.heap[f].code.slot in s.heap[f].slots
    requires StepStart(s, f, s.heap[f].code.slot, s.heap[f].code.next) == Next(t)
    ensures HeapOk(t)
  {
    StartIs(s, f, t);
    Rehold(s, t, f, Slot(s.heap[f].code.slot), s.heap[f].slots[s.heap[f].code.slot], Starting);
  }

  lemma StartIs(s: State, f: FrameId, t: State)
    requires CoreAt(s, f) && IsRunning(s, f) && s.heap[f].code.Start? && s.heap[f].code.slot in s.heap[f].slots
    requires StepStart(s, f, s.heap[f].code.slot, s.heap[f].code.next) == Next(t)
    ensures IsRehold(s, t, f, Slot(s.heap[f].code.slot), s.heap[f].slots[s.heap[f].code.slot], Starting)
  {
    hide LocalOk, TypedOk, WellFormed, First, TagsOk, QueuesOk, StackOk, ActivesOk;
    Here(s, f);
    AwaitsTyped(s, f);
    InVariable(s, f, s.heap[f].code.slot);
    var c := s.heap[f].slots[s.heap[f].code.slot];
    StarterSelf(s.heap[f], t.heap[f], c);
    TaskMoves(s.heap[c], t.heap[c]);
  }

  // ---- SpawnCrossTask ----

  lemma CrossStep(s: State, f: FrameId)
    requires CoreAt(s, f) && f in s.heap && s.heap[f].code.Cross?
    ensures Good(StepBody(s, f))
  {
    Here(s, f);
    NextIsFree(s);
    var Cross(on, slot, next) := s.heap[f].code;
    InVariable(s, f, slot);
    assert StepBody(s, f) == StepCross(s, f, on, slot, next);
    var o := StepCross(s, f, on, slot, next);
    if on.Game? {
      CrossQueued(s, f, o.state);
    } else {
      CrossEntered(s, f, o.state);
    }
  }

  ghost predicate IsCross(s: State, f: FrameId, t: State) {
    && CoreAt(s, f) && IsRunning(s, f) && s.heap[f].code.Cross?
    && StepCross(s, f, s.heap[f].code.on, s.heap[f].code.slot, s.heap[f].code.next) == Next(t)
  }

  /** The three frames a crossing writes. */
  ghost predicate CrossWrites(s: State, f: FrameId, t: State) {
    && f in s.heap && s.heap[f].code.Cross? && CanUse(s, f, s.heap[f].code.slot)
    && (var fr, c, l, slot := s.heap[f], s.heap[f].slots[s.heap[f].code.slot], s.next, s.heap[f].code.slot;
        && Only(s, t, {f, c, l}) && t.next == l + 1 && f in t.heap && c in t.heap && l in t.heap
        && t.heap[f] == fr.(code := fr.code.next, slots := fr.slots - {slot}, types := fr.types - {slot},
                            point := AtCross(fr.code.on, s.heap[c].role.body, l, Some(c), None))
        && t.heap[c] == s.heap[c].(owner := HeldBy(f, Crossing))
        && t.heap[l] == NewLauncher(f, s.heap[c].role.body, fr.code.on).(point := t.heap[l].point)
        && t.heap[l].point == if fr.code.on.Game? then Initial else Running)
  }

  lemma CrossDoes(s: State, f: FrameId, t: State)
    requires IsCross(s, f, t)
    ensures CrossWrites(s, f, t)
  {
    hide YoungOk, TagsOk, QueuesOk, StackOk, ActivesOk, WellFormed, First;
    NextIsFree(s);
    Here(s, f);
    InVariable(s, f, s.heap[f].code.slot);
  }

  lemma CrossIs(s: State, f: FrameId, t: State)
    requires CoreAt(s, f) && CrossWrites(s, f, t)
    ensures IsCrossing(s, t, f, s.heap[f].code.slot, s.heap[f].slots[s.heap[f].code.slot], s.next)
  {
    hide YoungOk, TagsOk, QueuesOk, StackOk, ActivesOk;
    Here(s, f);
    NextIsFree(s);
    InVariable(s, f, s.heap[f].code.slot);
    UserCode(s.heap[f].code.next, s.heap[f].home, s.heap[f].types - {s.heap[f].code.slot});
  }

  lemma CrossHeap(s: State, f: FrameId, t: State)
    requires IsCross(s, f, t)
    ensures HeapOk(t)
    ensures s.next !in s.heap && s.heap[f].code.slot in s.heap[f].slots
    ensures var c := s.heap[f].slots[s.heap[f].code.slot]; Only(s, t, {f, c, s.next}) && CrossShape(s, f, c, t)
  {
    CrossDoes(s, f, t);
    CrossIs(s, f, t);
    NextIsFree(s);
    var slot := s.heap[f].code.slot;
    var c := s.heap[f].slots[slot];
    assert FrameOk(s, c) && FrameOk(s, f);
    CrossOver(s, t, f, slot, c, s.next);
    assert FrameOk(t, s.next);
  }

  /** What the crossing leaves in the three frames. */
  ghost predicate CrossShape(s: State, f: FrameId, c: FrameId, t: State) {
    && f in s.heap && f in t.heap && c in s.heap && c in t.heap && s.next in t.heap && f != c
    && SameBinding(s, t, f) && s.heap[f].point.Running? && IsWaiting(t.heap[f])
    && s.heap[c].executor == None && t.heap[c] == s.heap[c].(owner := HeldBy(f, Crossing)) && s.heap[c].point.Initial?
    && s.heap[c].owner.HeldBy?
    && t.heap[s.next].owner.Detached? && Bound(t.heap[s.next])
    && t.heap[f].home != t.heap[s.next].home
  }

  lemma CrossQueued(s: State, f: FrameId, t: State)
    requires IsCross(s, f, t) && s.heap[f].code.on.Game?
    ensures Core(t)
  {
    Here(s, f);
    CrossHeap(s, f, t);
    var c, l := s.heap[f].slots[s.heap[f].code.slot], s.next;
    ParkedIsClear(s, c);
    BodyStops(s, t, {f, c, l}, f);
    OthersActive(s, t, {f, c, l}, f);
    TagsElsewhere(s, t, {f, c, l});
    QueuesPushed(s, t, {f, c, l}, s.heap[f].code.on.id, l);
  }

  lemma CrossEntered(s: State, f: FrameId, t: State)
    requires IsCross(s, f, t) && s.heap[f].code.on.CompletionQueue?
    ensures Core(t)
  {
    CrossHeap(s, f, t);
    CrossEnteredCalls(s, f, s.heap[f].slots[s.heap[f].code.slot], s.next, t);
  }

  lemma CrossEnteredCalls(s: State, f: FrameId, c: FrameId, l: FrameId, t: State)
    requires CoreAt(s, f) && HeapOk(t) && Only(s, t, {f, c, l}) && CrossShape(s, f, c, t)
    requires l == s.next && l !in s.heap
    requires t.heap[l].home.CompletionQueue? && t.heap[l].point.Running?
    requires t.stack == Pop(s.stack) + [Resumer(l), Body(l)]
    requires t.updating == s.updating && t.ready == s.ready && t.tags == s.tags
    ensures Core(t)
  {
    Here(s, f);
    ParkedIsClear(s, c);
    NewIsClear(s, l);
    BodyEnters(s, t, {f, c, l}, f, Resumer(l), l);
    OthersActive(s, t, {f, c, l}, f);
    TagsElsewhere(s, t, {f, c, l});
    QueuesElsewhere(s, t, {f, c, l});
  }

  lemma NewIsClear(s: State, l: FrameId)
    requires StackOk(s) && l !in s.heap
    ensures Clear(s, l, |s.stack|)
  {
    forall k | 0 <= k < |s.stack| ensures Subject(s.stack[k]) != l { assert EntryOk(s, s.stack[k]); }
  }

  // ---- async_lib::Spawn from a body ----

  lemma DetachStep(s: State, f: FrameId)
    requires CoreAt(s, f) && f in s.heap && s.heap[f].code.Detach?
    ensures Good(StepBody(s, f))
  {
    Here(s, f);
    var Detach(on, slot, next) := s.heap[f].code;
    InVariable(s, f, slot);
    assert StepBody(s, f) == StepDetach(s, f, on, slot, next);
    var t := StepDetach(s, f, on, slot, next).state;
    DetachHeap(s, f, t);
    if on.Game? {
      DetachQueued(s, f, t);
    } else {
      DetachEntered(s, f, t);
    }
  }

  ghost predicate IsDetach(s: State, f: FrameId, t: State) {
    && CoreAt(s, f) && IsRunning(s, f) && s.heap[f].code.Detach?
    && StepDetach(s, f, s.heap[f].code.on, s.heap[f].code.slot, s.heap[f].code.next) == Next(t)
  }

  ghost predicate DetachWrites(s: State, f: FrameId, t: State) {
    && f in s.heap && s.heap[f].code.Detach? && CanUse(s, f, s.heap[f].code.slot)
    && (var fr, c, slot := s.heap[f], s.heap[f].slots[s.heap[f].code.slot], s.heap[f].code.slot;
        && Only(s, t, {f, c}) && f in t.heap && c in t.heap
        && t.heap[f] == fr.(code := fr.code.next, slots := fr.slots - {slot}, types := fr.types - {slot})
        && t.heap[c] == s.heap[c].(executor := Some(fr.code.on), destroyOnDone := true, owner := Detached,
                                   point := if fr.code.on.Game? then s.heap[c].point else Running))
  }

  lemma DetachDoes(s: State, f: FrameId, t: State)
    requires IsDetach(s, f, t)
    ensures DetachWrites(s, f, t)
  {
    Here(s, f);
    InVariable(s, f, s.heap[f].code.slot);
  }

  lemma DetachIs(s: State, f: FrameId, t: State)
    requires CoreAt(s, f) && DetachWrites(s, f, t)
    ensures IsLetGo(s, t, f, s.heap[f].code.slot, s.heap[f].slots[s.heap[f].code.slot])
  {
    Here(s, f);
    InVariable(s, f, s.heap[f].code.slot);
    UserCode(s.heap[f].code.next, s.heap[f].home, s.heap[f].types - {s.heap[f].code.slot});
  }

  lemma DetachHeap(s: State, f: FrameId, t: State)
    requires IsDetach(s, f, t)
    ensures HeapOk(t)
  {
    DetachDoes(s, f, t);
    DetachIs(s, f, t);
    LetGo(s, t, f, s.heap[f].code.slot, s.heap[f].slots[s.heap[f].code.slot]);
  }

  lemma DetachQueued(s: State, f: FrameId, t: State)
    requires IsDetach(s, f, t) && HeapOk(t) && s.heap[f].code.on.Game?
    ensures Core(t)
  {
    Here(s, f);
    InVariable(s, f, s.heap[f].code.slot);
    var c := s.heap[f].slots[s.heap[f].code.slot];
    ParkedIsClear(s, c);
    BodyGoesOn(s, t, {f, c}, f, |s.stack|);
    QueuesPushed(s, t, {f, c}, s.heap[f].code.on.id, c);
    OthersActive(s, t, {f, c}, f);
    TagsElsewhere(s, t, {f, c});
  }

  lemma DetachEntered(s: State, f: FrameId, t: State)
    requires IsDetach(s, f, t) && HeapOk(t) && s.heap[f].code.on.CompletionQueue?
    ensures Core(t)
  {
    Here(s, f);
    InVariable(s, f, s.heap[f].code.slot);
    var c := s.heap[f].slots[s.heap[f].code.slot];
    ParkedIsClear(s, c);
    assert t.stack == s.stack + [Resumer(c), Body(c)];
    BodyResumes(s, t, {f, c}, f, c);
    QueuesElsewhere(s, t, {f, c});
    OthersActive(s, t, {f, c}, f);
    TagsElsewhere(s, t, {f, c});
  }

  // ---- LaunchChild ----

  lemma LaunchStep(s: State, f: FrameId)
    requires CoreAt(s, f) && f in s.heap && s.heap[f].code.Launch?
    ensures Good(StepBody(s, f))
  {
    Here(s, f);
    var p := s.heap[f].code.waiter;
    assert CarrierOk(s, f) && HoldOk(s, p, Crossing);
    var c := s.heap[p].point.held.value;
    assert OwnerOk(s, c) && FrameOk(s, c) && FrameOk(s, p);
    assert StepBody(s, f) == StepLaunch(s, f, p);
    var t := StepLaunch(s, f, p).state;
    assert IsLaunch(s, t, f, p, c);
    LaunchTask(s, t, f, p, c);
    LaunchCalls(s, f, p, c, t);
  }

  lemma LaunchCalls(s: State, f: FrameId, p: FrameId, c: FrameId, t: State)
    requires CoreAt(s, f) && IsLaunch(s, t, f, p, c) && HeapOk(t) && SameLoops(s, t)
    requires t.ready == s.ready && t.tags == s.tags
    requires t.stack == Pop(s.stack) + [Awaiter(f, c), Body(c)]
    requires s.heap[c].point.Initial? && s.heap[c].owner.HeldBy?
    ensures Core(t)
  {
    hide SelfOk, EdgeOk, WellFormed, HandOk;
    Here(s, f);
    assert FrameOk(t, c) && OwnerOk(t, c) && ActiveOk(s, p);
    ParkedIsClear(s, c);
    BodyEnters(s, t, {f, p, c}, f, Awaiter(f, c), c);
    OthersActive(s, t, {f, p, c}, f);
    TagsElsewhere(s, t, {f, p, c});
    QueuesElsewhere(s, t, {f, p, c});
  }

  /** A hand-over to a completion queue, which resumes the waiter, finds it off the stack. */
  ghost predicate HandClear(s: State, f: FrameId) {
    f in s.heap && s.heap[f].code.HandBack? && s.heap[f].code.waiter in s.heap
      && s.heap[s.heap[f].code.waiter].home.CompletionQueue? ==>
      Clear(s, s.heap[f].code.waiter, |s.stack|)
  }

  lemma HandBackStep(s: State, f: FrameId)
    requires CoreAt(s, f) && f in s.heap && s.heap[f].code.HandBack? && HandClear(s, f)
    ensures Good(StepBody(s, f))
  {
    Here(s, f);
    var p := s.heap[f].code.waiter;
    assert CarrierOk(s, f);
    assert FrameOk(s, p);
    assert StepBody(s, f) == StepHandBack(s, f, p);
    var t := StepHandBack(s, f, p).state;
    HandBackHeap(s, f, t);
    if s.heap[p].home.Game? {
      HandBackQueued(s, f, t);
    } else {
      HandBackEntered(s, f, t);
    }
  }

  ghost predicate IsBack(s: State, f: FrameId, t: State) {
    && CoreAt(s, f) && IsRunning(s, f) && s.heap[f].code.HandBack?
    && StepHandBack(s, f, s.heap[f].code.waiter) == Next(t)
  }

  lemma HandBackHeap(s: State, f: FrameId, t: State)
    requires IsBack(s, f, t)
    ensures HeapOk(t)
  {
    HandBackIs(s, f, t);
    HandOver(s, t, f, s.heap[f].code.waiter);
  }

  lemma HandBackIs(s: State, f: FrameId, t: State)
    requires IsBack(s, f, t)
    ensures IsHandBack(s, t, f, s.heap[f].code.waiter)
  {
    hide LocalOk, TypedOk, WellFormed, First, TagsOk, QueuesOk, StackOk, ActivesOk;
    Here(s, f);
    var p := s.heap[f].code.waiter;
    IsALauncher(s.heap[f]);
    assert CarrierOk(s, f) && FrameOk(s, p);
    IsBound(s.heap[p]);
    CarrierSelf(s.heap[f], t.heap[f]);
    WaiterSelf(s.heap[p], t.heap[p]);
  }

  lemma IsALauncher(fr: Frame)
    requires SelfOk(fr) && fr.code.HandBack?
    ensures fr.role.Launcher? && fr.code.waiter == fr.role.waiter && (fr.point.Running? ==> |fr.vals| == 1)
  {
  }

  lemma IsBound(fr: Frame)
    requires SelfOk(fr) && fr.executor.Some?
    ensures Bound(fr)
  {
  }

  lemma CarrierSelf(fr: Frame, to: Frame)
    requires SelfOk(fr) && fr.code.HandBack? && fr.point.Running? && to == fr.(code := to.code) && to.code.Return?
    ensures SelfOk(to)
  {
  }

  /** The waiter when its result has come: resumed, or waiting in a queue for that. */
  lemma WaiterSelf(fr: Frame, to: Frame)
    requires SelfOk(fr) && fr.executor.Some? && IsWaiting(fr) && fr.point.held == None
    requires if fr.home.Game? then
               && to.point.AtCross? && to.point.delivered.Some?
               && to == fr.(point := fr.point.(delivered := to.point.delivered))
             else to == fr.(point := Running, vals := to.vals)
    ensures SelfOk(to) && Stable(fr, to)
  {
  }

  lemma HandBackQueued(s: State, f: FrameId, t: State)
    requires IsBack(s, f, t) && HeapOk(t)
    requires s.heap[f].code.waiter in s.heap && s.heap[s.heap[f].code.waiter].home.Game?
    ensures Core(t)
  {
    Here(s, f);
    var p := s.heap[f].code.waiter;
    assert CarrierOk(s, f) && FrameOk(s, p) && ActiveOk(s, p);
    assert Calm(s, t, p);
    BodyGoesOn(s, t, {f, p}, f, |s.stack|);
    QueuesPushed(s, t, {f, p}, s.heap[p].home.id, p);
    OthersActive(s, t, {f, p}, f);
    TagsElsewhere(s, t, {f, p});
  }

  lemma HandBackEntered(s: State, f: FrameId, t: State)
    requires IsBack(s, f, t) && HeapOk(t)
    requires s.heap[f].code.waiter in s.heap && s.heap[s.heap[f].code.waiter].home.CompletionQueue? && HandClear(s, f)
    ensures Core(t)
  {
    hide YoungOk;
    Here(s, f);
    var p := s.heap[f].code.waiter;
    assert CarrierOk(s, f) && FrameOk(s, p);
    assert t.stack == s.stack + [Resumer(p), Body(p)];
    BodyResumes(s, t, {f, p}, f, p);
    QueuesElsewhere(s, t, {f, p});
    OthersActive(s, t, {f, p}, f);
    TagsElsewhere(s, t, {f, p});
  }
}
