/** Every native call that comes back keeps the invariant: Resume, and the await_suspend of a task
    and of a subroutine.

    When one of these calls is on top of the stack, the body it entered has just suspended or finished.
    Resume then sweeps a detached frame, or goes on with the parent of a finished task; TaskAwait lets
    its awaiting body go on when the task has finished; StartSubroutine always does. The lemmas say what
    the frame that goes on takes over, and that nothing below relies on a frame that is destroyed.
    `StepKeepsCore` closes the case analysis over all steps. */
module CallSteps {
  import opened Programs
  import opened Machine
  import opened Invariants
  import opened HeapLemmas
  import opened CallLemmas
  import opened StackLemmas
  import opened Steps

  // ---- async_lib::Resume comes back from handle.resume() ----

  ghost predicate CoreAtCall(s: State) {
    Core(s) && s.stack != [] && !Top(s).Body?
  }

  lemma CallHere(s: State, x: FrameId)
    requires CoreAtCall(s) && x == Subject(Top(s))
    ensures x in s.heap && !s.heap[x].point.Running? && Bound(s.heap[x]) && SelfOk(s.heap[x])
    ensures s.heap[x].home.Game? ==> s.heap[x].home.id in s.updating
    ensures Clear(s, x, |s.stack| - 1)
    ensures EntryOk(s, Top(s))
    ensures ActiveOk(s, x) && OwnerOk(s, x)
    ensures s.stack == Pop(s.stack) + [Top(s)]
  {
    var top := |s.stack| - 1;
    assert EntryOk(s, s.stack[top]);
    assert FrameOk(s, x) && ActiveOk(s, x) && OwnerOk(s, x);
    if s.heap[x].point.Running? { RunningNotUnderCall(s, x); }
    CallOnTop(s, x);
  }

  lemma RunningNotUnderCall(s: State, x: FrameId)
    requires CoreAtCall(s) && x == Subject(Top(s)) && x in s.heap
    ensures !s.heap[x].point.Running?
  {
    var top := |s.stack| - 1;
    assert ActiveOk(s, x) && ClearCalls(s, x, top);
    forall k | 0 <= k < |s.stack| ensures s.stack[k] != Body(x) {
      if k > 0 { assert LinkOk(s, k); }
    }
  }

  /** The call on top ends and nothing else happens. */
  lemma JustReturns(s: State, t: State)
    requires CoreAtCall(s) && t == s.(stack := Pop(s.stack)) && !Top(s).Starter? && !Ended(s, Subject(Top(s)))
    ensures Core(t)
  {
    CallHere(s, Subject(Top(s)));
    CallReturns(s, t, {});
    ActivesElsewhere(s, t, {});
    TagsElsewhere(s, t, {});
    QueuesElsewhere(s, t, {});
    SameHeap(s, t);
  }

  lemma SameHeap(s: State, t: State)
    requires HeapOk(s) && t.heap == s.heap && t.next == s.next
    ensures HeapOk(t)
  {
    forall f | f in t.heap ensures FrameOk(t, f) { assert FrameOk(s, f); }
    forall f | f in t.heap ensures OwnerOk(t, f) { assert OwnerOk(s, f); }
    forall f, at | f in t.heap ensures HoldOk(t, f, at) { assert HoldOk(s, f, at); }
    forall f | f in t.heap ensures WaiterOk(t, f) { assert WaiterOk(s, f); }
    forall f | f in t.heap ensures CarrierOk(t, f) { assert CarrierOk(s, f); }
  }

  lemma ResumerStep(s: State, f: FrameId)
    requires CoreAtCall(s) && Top(s) == Resumer(f)
    ensures Good(StepResumer(s, f))
  {
    CallHere(s, f);
    var fr := s.heap[f];
    if !Ended(s, f) {
      JustReturns(s, s.(stack := Pop(s.stack)));
    } else if fr.owner.Detached? {
      Swept(s, f, s.(heap := s.heap - {f}, stack := Pop(s.stack)));
    } else {
      ParentStep(s, f, fr.owner.frame);
    }
  }

  /** A finished detached frame is destroyed. */
  lemma Swept(s: State, f: FrameId, t: State)
    requires CoreAtCall(s) && Top(s) == Resumer(f) && f in s.heap && s.heap[f].point.Final? && s.heap[f].owner.Detached?
    requires t == s.(heap := s.heap - {f}, stack := Pop(s.stack))
    ensures Core(t)
  {
    CallHere(s, f);
    Sweep(s, t, f);
    CallReturns(s, t, {f});
    ActivesElsewhere(s, t, {f});
    TagsElsewhere(s, t, {f});
    QueuesElsewhere(s, t, {f});
  }

  /** The parent p takes the result of the finished task f and goes on under its own Resume. */
  lemma ParentStep(s: State, f: FrameId, p: FrameId)
    requires CoreAtCall(s) && Top(s) == Resumer(f) && f in s.heap && s.heap[f].point.Final?
    requires s.heap[f].owner == HeldBy(p, Awaiting)
    ensures Good(StepResumer(s, f))
  {
    CallHere(s, f);
    assert FrameOk(s, p);
    var t := Resume(s.(stack := Pop(s.stack)), p).state;
    assert StepResumer(s, f) == Next(t);
    TakeResult(s, t, p, f);
    ParentCalls(s, t, f, p);
  }

  /** Frame p went on with the result of c, which is gone. */
  ghost predicate Took(s: State, t: State, p: FrameId, c: FrameId) {
    && p in s.heap && c in s.heap && p != c && p in t.heap && c !in t.heap && Only(s, t, {p, c})
    && s.heap[p].point == AtTask(c) && s.heap[c].point.Final? && s.heap[c].owner == HeldBy(p, Awaiting)
    && t.heap[p] == s.heap[p].(point := Running, vals := s.heap[p].vals + [s.heap[c].point.result])
    && t.updating == s.updating && t.ready == s.ready && t.tags == s.tags
  }

  lemma ParentCalls(s: State, t: State, f: FrameId, p: FrameId)
    requires CoreAtCall(s) && Top(s) == Resumer(f) && Took(s, t, p, f) && HeapOk(t)
    requires t.stack == Pop(s.stack) + [Resumer(p), Body(p)]
    ensures Core(t)
  {
    hide YoungOk, WellFormed, First;
    CallHere(s, f);
    assert FrameOk(s, p);
    AwaitingIsClear(s, p, f);
    assert t.stack == s.stack[..|s.stack| - 1] + [Resumer(p), Body(p)];
    ParentResumes(s, t, {p, f}, p, |s.stack| - 1);
    ActivesElsewhere(s, t, {p, f});
    TagsElsewhere(s, t, {p, f});
    QueuesElsewhere(s, t, {p, f});
  }

  /** await_resume of TaskAwait: the awaiting frame gets the value, the task is destroyed. */
  lemma TakeResult(s: State, t: State, p: FrameId, c: FrameId)
    requires HeapOk(s) && p in s.heap && c in s.heap && p != c && s.heap[p].point == AtTask(c)
    requires s.heap[c].point.Final? && s.heap[c].owner == HeldBy(p, Awaiting)
    requires var vals := s.heap[p].vals + [s.heap[c].point.result];
      t.heap == s.heap[p := s.heap[p].(point := Running, vals := vals)] - {c}
    requires t.next == s.next
    ensures HeapOk(t)
  {
    assert FrameOk(s, p);
    Release(s, t, p, Awaiting, c);
  }

  // ---- TaskAwait::await_suspend and StartSubroutine::await_suspend come back ----

  lemma AwaiterStep(s: State, p: FrameId, c: FrameId)
    requires CoreAtCall(s) && Top(s) == Awaiter(p, c)
    ensures Good(StepAwaiter(s, p, c))
  {
    CallHere(s, c);
    assert HoldOk(s, p, Awaiting) && FrameOk(s, p);
    if !s.heap[c].point.Final? {
      JustReturns(s, s.(stack := Pop(s.stack)));
    } else {
      var t := Enter(s.(stack := Pop(s.stack)), p).state;
      assert StepAwaiter(s, p, c) == Next(t);
      TakeResult(s, t, p, c);
      AwaiterCalls(s, t, p, c);
    }
  }

  lemma AwaiterCalls(s: State, t: State, p: FrameId, c: FrameId)
    requires CoreAtCall(s) && Top(s) == Awaiter(p, c) && Took(s, t, p, c) && HeapOk(t)
    requires t.stack == Pop(s.stack) + [Body(p)]
    ensures Core(t)
  {
    CallHere(s, c);
    HostGoesOn(s, t, {p, c}, p);
    ActivesElsewhere(s, t, {p, c});
    TagsElsewhere(s, t, {p, c});
    QueuesElsewhere(s, t, {p, c});
  }

  lemma StarterStep(s: State, p: FrameId, c: FrameId)
    requires CoreAtCall(s) && Top(s) == Starter(p, c)
    ensures Good(StepStarter(s, p, c))
  {
    CallHere(s, c);
    assert HoldOk(s, p, Starting) && FrameOk(s, p);
    var t := Enter(s.(stack := Pop(s.stack)), p).state;
    assert StepStarter(s, p, c) == Next(t);
    KeepTask(s, t, p, c);
    StarterCalls(s, t, p, c);
  }

  lemma StarterCalls(s: State, t: State, p: FrameId, c: FrameId)
    requires CoreAtCall(s) && Top(s) == Starter(p, c) && HeapOk(t)
    requires p in s.heap && c in s.heap && p in t.heap && c in t.heap && p != c && Only(s, t, {p, c})
    requires s.heap[p].point.AtStart? && SameBinding(s, t, p) && t.heap[p].point.Running?
    requires t.heap[c] == s.heap[c].(owner := t.heap[c].owner)
    requires t.heap[c].owner.HeldBy? && t.heap[c].owner.place.Slot? && s.heap[c].owner.HeldBy?
    requires t.updating == s.updating && t.ready == s.ready && t.tags == s.tags
    requires t.stack == Pop(s.stack) + [Body(p)]
    ensures Core(t)
  {
    CallHere(s, c);
    assert Calm(s, t, c);
    HostGoesOn(s, t, {p, c}, p);
    StarterActives(s, t, p, c);
    TagsElsewhere(s, t, {p, c});
    QueuesElsewhere(s, t, {p, c});
  }

  lemma StarterActives(s: State, t: State, p: FrameId, c: FrameId)
    requires CoreAtCall(s) && Top(s) == Starter(p, c)
    requires p in s.heap && c in s.heap && p in t.heap && c in t.heap && Only(s, t, {p, c})
    requires t.heap[p].point.Running? && t.heap[c] == s.heap[c].(owner := t.heap[c].owner)
    requires t.heap[c].owner.HeldBy? && t.heap[c].owner.place.Slot?
    requires t.stack == Pop(s.stack) + [Body(p)]
    ensures ActivesOk(t)
  {
    CallHere(s, c);
    forall a | a in s.stack ensures a in t.stack || a == Starter(p, c) {
      if a != Starter(p, c) { assert a in Pop(s.stack); }
    }
    ActivesElsewhere(s, t, {p, c});
  }

  /** await_resume of StartSubroutine: the task moves into the variable. */
  lemma KeepTask(s: State, t: State, p: FrameId, c: FrameId)
    requires HeapOk(s) && p in s.heap && c in s.heap && p != c && s.heap[p].point.AtStart? && s.heap[p].point.child == c
    requires s.heap[c].owner == HeldBy(p, Starting) && OwnerOk(s, c) && SelfOk(s.heap[p])
    requires var i := s.heap[p].point.slot;
      t.heap == s.heap[p := s.heap[p].(point := Running, slots := s.heap[p].slots[i := c])]
                      [c := s.heap[c].(owner := HeldBy(p, Slot(i)))]
    requires t.next == s.next
    ensures HeapOk(t)
  {
    assert FrameOk(s, p) && FrameOk(s, c);
    KeeperSelf(s.heap[p], t.heap[p], c);
    KeptMoves(s.heap[c], t.heap[c]);
    KeptIs(s, t, p, c);
    Rehold(s, t, p, Starting, c, Slot(s.heap[p].point.slot));
  }

  lemma KeptIs(s: State, t: State, p: FrameId, c: FrameId)
    requires p in s.heap && c in s.heap && p != c && s.heap[p].point.AtStart? && s.heap[p].point.child == c
    requires s.heap[c].owner == HeldBy(p, Starting) && OwnerOk(s, c)
    requires var i := s.heap[p].point.slot;
      && t.heap == s.heap[p := s.heap[p].(point := Running, slots := s.heap[p].slots[i := c])]
                         [c := s.heap[c].(owner := HeldBy(p, Slot(i)))]
      && i !in s.heap[p].slots && i in s.heap[p].types && s.heap[p].types[i] == Started
    requires t.next == s.next && s.heap[c].executor.Some? && SelfOk(t.heap[p]) && Stable(s.heap[p], t.heap[p])
    requires Moved(s.heap[c], t.heap[c])
    ensures IsRehold(s, t, p, Starting, c, Slot(s.heap[p].point.slot))
  {
    hide SelfOk;
  }

  lemma KeeperSelf(fr: Frame, to: Frame, c: FrameId)
    requires SelfOk(fr) && fr.point.AtStart?
    requires to == fr.(point := Running, slots := fr.slots[fr.point.slot := c])
    ensures SelfOk(to) && Stable(fr, to)
    ensures fr.point.slot !in fr.slots && fr.point.slot in fr.types && fr.types[fr.point.slot] == Started
  {
  }

  lemma KeptMoves(fr: Frame, to: Frame)
    requires SelfOk(fr) && fr.role.Program? && fr.owner.HeldBy? && fr.owner.place.Starting? && fr.executor.Some?
    requires to == fr.(owner := to.owner) && to.owner.HeldBy? && to.owner.place.Slot?
    ensures Moved(fr, to)
  {
  }

  // ---- one step ----

  /** No step of a reachable segment faults, and every one keeps the invariant. */
  lemma StepKeepsCore(s: State)
    requires Core(s) && s.stack != [] && (Top(s).Body? ==> HandClear(s, Top(s).frame))
    ensures Good(Step(s))
  {
    match Top(s)
    case Resumer(f) => ResumerStep(s, f);
    case Awaiter(p, c) => AwaiterStep(s, p, c);
    case Starter(p, c) => StarterStep(s, p, c);
    case Body(f) =>
      Here(s, f);
      match s.heap[f].code
      case Return(_) => ReturnStep(s, f);
      case Branch(_, _, _) => BranchStep(s, f);
      case Make(_, _, _, _) => MakeStep(s, f);
      case Await(_, _) => AwaitStep(s, f);
      case Start(_, _) => StartStep(s, f);
      case Operation(_, _) => OperationStep(s, f);
      case Cross(_, _, _) => CrossStep(s, f);
      case Detach(_, _, _) => DetachStep(s, f);
      case Launch(_) => LaunchStep(s, f);
      case HandBack(_) => HandBackStep(s, f);
  }
}
