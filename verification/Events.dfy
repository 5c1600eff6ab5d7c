/** What the world outside does between two segments keeps the invariant too.

    Between segments the native call stack is empty: no frame runs, and every finished task sits in a
    variable. Spawning a root, delivering a completion and taking a job out of a batch each begin a
    segment: they push the first Resume and enter one body. The other steps of Update only move queue
    entries from m_ready to the batch in hand, or drop an empty batch. `ApplyKeepsInv` at the end puts
    the events and the steps of a segment together; all results about runs are inductions over it. */
module Events {
  import opened Programs
  import opened Machine
  import opened Invariants
  import opened HeapLemmas
  import opened CallLemmas
  import opened StackLemmas
  import opened Steps
  import opened CallSteps
  import opened FirstSegments

  ghost predicate Idle(s: State) {
    Inv(s) && s.stack == []
  }

  /** Resuming f on an empty stack. */
  lemma SegmentBegins(s: State, t: State, changed: set<FrameId>, f: FrameId)
    requires Idle(s) && Only(s, t, changed) && s.updating.Keys <= t.updating.Keys && f in changed
    requires t.stack == [Resumer(f), Body(f)]
    requires EntryOk(t, Resumer(f)) && EntryOk(t, Body(f))
    requires forall d | d in changed && d in t.heap && d != f :: ActiveOk(t, d)
    ensures StackOk(t) && ActivesOk(t)
  {
    assert t.stack == s.stack[..0] + [Resumer(f), Body(f)];
    ParentResumes(s, t, changed, f, 0);
    ActivesElsewhere(s, t, changed);
  }

  lemma SpawnRootStep(s: State, on: Executor, body: Code)
    requires Idle(s) && WellFormed(body, on, map[])
    ensures Good(Apply(s, SpawnRoot(on, body)))
  {
    hide Apply, Enter;
    var c := s.next;
    NextIsFree(s);
    var t := SpawnRootDoes(s, on, body);
    RootHeap(s, t, on, body);
    if on.Game? {
      CallReturnsIdle(s, t, {c});
      QueuesPushed(s, t, {c}, on.id, c);
    } else {
      SegmentBegins(s, t, {c}, c);
      QueuesElsewhere(s, t, {c});
    }
    TagsElsewhere(s, t, {c});
  }

  /** What a root spawned from outside leaves. */
  ghost predicate IsNewRoot(s: State, t: State, on: Executor, body: Code) {
    && Only(s, t, {s.next}) && t.next == s.next + 1 && s.next in t.heap && s.next !in s.heap
    && t.heap[s.next] == NewTask(body, on, Detached).(executor := Some(on), destroyOnDone := true,
                                                      point := if on.Game? then Initial else Running)
  }

  lemma SpawnRootDoes(s: State, on: Executor, body: Code) returns (t: State)
    requires Idle(s) && s.next !in s.heap && Enabled(s, SpawnRoot(on, body))
    ensures Apply(s, SpawnRoot(on, body)) == Next(t) && IsNewRoot(s, t, on, body)
    ensures t.tags == s.tags && t.updating == s.updating
    ensures if on.Game? then t.ready == s.ready[on.id := Get(s.ready, on.id) + [s.next]] && t.stack == []
            else t.ready == s.ready && t.stack == [Resumer(s.next), Body(s.next)]
  {
    t := Apply(s, SpawnRoot(on, body)).state;
  }

  lemma RootHeap(s: State, t: State, on: Executor, body: Code)
    requires Idle(s) && WellFormed(body, on, map[]) && IsNewRoot(s, t, on, body)
    ensures HeapOk(t)
  {
    UserCode(body, on, map[]);
    Root(s, t, s.next);
  }

  lemma CallReturnsIdle(s: State, t: State, changed: set<FrameId>)
    requires Idle(s) && Only(s, t, changed) && t.stack == []
    requires forall d | d in changed && d in t.heap :: ActiveOk(t, d)
    ensures StackOk(t) && ActivesOk(t)
  {
    ActivesElsewhere(s, t, changed);
  }

  /** The flag is injected in the suspended awaitable, which is resumed and reads it. */
  lemma TickStep(s: State, f: FrameId, ok: bool)
    requires Idle(s) && f in s.tags
    ensures Good(Apply(s, Tick(f, ok)))
    ensures f in s.heap && f in Apply(s, Tick(f, ok)).state.heap
    ensures Apply(s, Tick(f, ok)).state.heap[f] ==
      s.heap[f].(point := Running, vals := s.heap[f].vals + [Flag(ok)])
  {
    hide Apply;
    assert s.tags[f] > 0;
    assert InOperation(s, f);
    var t := TickDoes(s, f, ok);
    TickHeap(s, t, f);
    SegmentBegins(s, t, {f}, f);
    TagsElsewhere(s, t, {f});
    QueuesElsewhere(s, t, {f});
  }

  lemma TickDoes(s: State, f: FrameId, ok: bool) returns (t: State)
    requires Idle(s) && f in s.tags && InOperation(s, f)
    ensures Apply(s, Tick(f, ok)) == Next(t) && Only(s, t, {f}) && f in t.heap && Bound(t.heap[f])
    ensures t.heap[f] == s.heap[f].(point := Running, vals := s.heap[f].vals + [Flag(ok)])
    ensures t.ready == s.ready && t.updating == s.updating && t.tags == s.tags - multiset{f}
    ensures t.stack == [Resumer(f), Body(f)] && t.next == s.next && t.heap[f].home.CompletionQueue?
  {
    assert FrameOk(s, f);
    t := Apply(s, Tick(f, ok)).state;
  }

  lemma TickHeap(s: State, t: State, f: FrameId)
    requires HeapOk(s) && f in s.heap && f in t.heap && Only(s, t, {f}) && s.heap[f].point.AtOperation?
    requires t.heap[f] == s.heap[f].(point := Running, vals := t.heap[f].vals)
    ensures HeapOk(t)
  {
    assert FrameOk(s, f);
    AnsweredSelf(s.heap[f], t.heap[f]);
    LocalChange(s, t, f);
  }

  lemma AnsweredSelf(fr: Frame, to: Frame)
    requires SelfOk(fr) && fr.point.AtOperation? && to == fr.(point := Running, vals := to.vals)
    ensures SelfOk(to)
  {
  }

  lemma UpdateLoopStep(s: State, e: Event)
    requires Idle(s) && Enabled(s, e) && (e.BeginUpdate? || e.SwapReady? || e.EndUpdate?)
    ensures Good(Apply(s, e))
    ensures forall n: nat :: Queue(Apply(s, e).state, n) == Queue(s, n)
  {
    var t := UpdateLoopDoes(s, e);
    SameHeap(s, t);
    CallReturnsIdle(s, t, {});
    TagsElsewhere(s, t, {});
    forall n: nat, f: FrameId ensures Queued(t, n, f) == if ReadyOn(t, n, f) then 1 else 0 {
      assert Queued(s, n, f) == Queued(t, n, f);
    }
  }

  lemma UpdateLoopDoes(s: State, e: Event) returns (t: State)
    requires s.stack == [] && Enabled(s, e) && (e.BeginUpdate? || e.SwapReady? || e.EndUpdate?)
    ensures Apply(s, e) == Next(t) && t.heap == s.heap && t.next == s.next && t.tags == s.tags && t.stack == []
    ensures forall n: nat :: Queue(t, n) == Queue(s, n)
  {
    t := Apply(s, e).state;
    forall n: nat ensures Queue(t, n) == Queue(s, n) {}
  }

  /** Update's loop takes the oldest job, which is a frame of that executor waiting to be resumed. */
  lemma NextReadyStep(s: State, n: nat)
    requires Idle(s) && Enabled(s, NextReady(n))
    ensures Good(Apply(s, NextReady(n)))
    ensures ReadyOn(s, n, s.updating[n][0])
  {
    var f := s.updating[n][0];
    NextReadyHead(s, n);
    var t := NextReadyDoes(s, n);
    assert FrameOk(s, f);
    ResumedSelf(s.heap[f], t.heap[f]);
    LocalChange(s, t, f);
    NextReadyCalls(s, t, n, f);
  }

  lemma NextReadyHead(s: State, n: nat)
    requires Idle(s) && Enabled(s, NextReady(n))
    ensures ReadyOn(s, n, s.updating[n][0])
  {
    var u := s.(updating := s.updating[n := s.updating[n][1..]]);
    assert Queue(s, n) == [s.updating[n][0]] + Queue(u, n);
    QueueHead(s, n, s.updating[n][0], u);
  }

  /** A parked frame that goes on is well formed by itself. */
  lemma ResumedSelf(fr: Frame, to: Frame)
    requires SelfOk(fr) && to == fr.(point := Running, vals := to.vals) && Bound(fr)
    requires fr.point.AtOperation? || fr.point.AtCross? || (fr.point.Initial? && to.vals == fr.vals)
    ensures SelfOk(to)
  {
  }

  /** What NextReady does: it enters its job. */
  lemma NextReadyDoes(s: State, n: nat) returns (t: State)
    requires Idle(s) && Enabled(s, NextReady(n)) && ReadyOn(s, n, s.updating[n][0])
    ensures Apply(s, NextReady(n)) == Next(t)
    ensures var f := s.updating[n][0];
      && f in t.heap && Only(s, t, {f}) && t.next == s.next && t.tags == s.tags && t.ready == s.ready
      && t.updating == s.updating[n := s.updating[n][1..]] && t.stack == [Resumer(f), Body(f)]
      && t.heap[f] == s.heap[f].(point := Running, vals := t.heap[f].vals)
      && Bound(s.heap[f]) && (s.heap[f].point.Initial? ==> t.heap[f].vals == s.heap[f].vals)
  {
    var f := s.updating[n][0];
    assert FrameOk(s, f) && s.heap[f].executor.Some?;
    t := Apply(s, NextReady(n)).state;
  }

  lemma NextReadyCalls(s: State, t: State, n: nat, f: FrameId)
    requires Idle(s) && Enabled(s, NextReady(n)) && ReadyOn(s, n, f) && s.updating[n][0] == f && Bound(s.heap[f])
    requires HeapOk(t) && Only(s, t, {f}) && SameBinding(s, t, f) && t.heap[f].point.Running?
    requires t.ready == s.ready && t.updating == s.updating[n := s.updating[n][1..]] && t.tags == s.tags
    requires t.stack == [Resumer(f), Body(f)]
    ensures Core(t)
  {
    SegmentBegins(s, t, {f}, f);
    TagsElsewhere(s, t, {f});
    forall m: nat, g: FrameId ensures Queued(t, m, g) == if ReadyOn(t, m, g) then 1 else 0 {
      Look(s, t, {f}, g);
      QueuedOneLess(s, t, n, f, m, g);
    }
  }

  lemma QueueHead(s: State, n: nat, f: FrameId, u: State)
    requires QueuesOk(s) && Queue(s, n) == [f] + Queue(u, n)
    ensures ReadyOn(s, n, f)
  {
    assert Queued(s, n, f) > 0;
  }

  lemma QueuedOneLess(s: State, t: State, n: nat, f: FrameId, m: nat, g: FrameId)
    requires QueuesOk(s) && ReadyOn(s, n, f) && n in s.updating && s.updating[n] != [] && s.updating[n][0] == f
    requires t.ready == s.ready && t.updating == s.updating[n := s.updating[n][1..]]
    ensures Queued(t, m, g) == Queued(s, m, g) - if m == n && g == f then 1 else 0
    ensures Queued(s, m, g) == if ReadyOn(s, m, g) then 1 else 0
  {
    if m == n {
      assert Queue(s, n) == [f] + Queue(t, n);
    } else {
      assert Queue(t, m) == Queue(s, m);
    }
  }

  /** Nothing is young between segments. */
  lemma NothingYoung(t: State)
    requires t.young == map[] && t.stack == []
    ensures YoungOk(t)
  {
  }

  /** At the start of a segment only the frame just entered may be young. */
  lemma OneYoung(t: State, f: FrameId)
    requires t.stack == [Resumer(f), Body(f)] && f in t.heap && f < t.next && t.heap[f].point.Running?
    requires t.young.Keys <= {f} && FirstOk(t, f)
    ensures YoungOk(t)
  {
    forall g | g in t.heap ensures FirstOk(t, g) {}
    forall p | p in t.heap ensures TiedOk(t, p) {
      forall k | 0 <= k < |t.stack| ensures Subject(t.stack[k]) == f {}
    }
    assert FirstOk(t, f);
  }

  /** A queued job, or a task entered at once, begins its first segment. */
  lemma NewcomerFirst(t: State, f: FrameId, fr: Frame)
    requires f in t.heap && t.heap[f] == fr.(point := Running) && t.young == map[f := FirstOf(fr.code, fr.home)]
    requires LocalOk(fr) && fr.point.Initial? && fr.executor.Some?
    ensures FirstOk(t, f)
  {
    if fr.role.Program? { EnteredFirst(t, f); } else { LauncherFirst(t, f); }
  }

  lemma NextReadyYoung(s: State, n: nat)
    requires Idle(s) && Enabled(s, NextReady(n)) && Good(Apply(s, NextReady(n))) && ReadyOn(s, n, s.updating[n][0])
    ensures YoungOk(Apply(s, NextReady(n)).state)
  {
    var f, t := s.updating[n][0], Apply(s, NextReady(n)).state;
    assert FrameOk(s, f);
    if s.heap[f].point.Initial? { NewcomerFirst(t, f, s.heap[f]); }
    OneYoung(t, f);
  }

  lemma TickYoung(s: State, f: FrameId, ok: bool)
    requires Idle(s) && f in s.tags && InOperation(s, f) && Good(Apply(s, Tick(f, ok)))
    ensures YoungOk(Apply(s, Tick(f, ok)).state)
  {
    assert FrameOk(s, f);
    OneYoung(Apply(s, Tick(f, ok)).state, f);
  }

  lemma SpawnRootYoung(s: State, on: Executor, body: Code)
    requires Idle(s) && WellFormed(body, on, map[]) && Good(Apply(s, SpawnRoot(on, body)))
    ensures YoungOk(Apply(s, SpawnRoot(on, body)).state)
  {
    var t := Apply(s, SpawnRoot(on, body)).state;
    if on.Game? {
      NothingYoung(t);
    } else {
      EnteredFirst(t, s.next);
      OneYoung(t, s.next);
    }
  }

  /** Whatever happens in a reachable state, nothing faults and the invariant survives. */
  lemma ApplyKeepsInv(s: State, e: Event)
    requires Inv(s) && Enabled(s, e)
    ensures Apply(s, e).Next? && Inv(Apply(s, e).state)
  {
    if e.Internal? {
      StepKeepsInv(s);
    } else {
      DeliverKeepsCore(s, e);
      match e
      case SpawnRoot(on, body) => SpawnRootYoung(s, on, body);
      case Tick(f, ok) => assert s.tags[f] > 0; TickYoung(s, f, ok);
      case NextReady(n) => NextReadyStep(s, n); NextReadyYoung(s, n);
      case BeginUpdate(_) => NothingYoung(Apply(s, e).state);
      case SwapReady(_) => NothingYoung(Apply(s, e).state);
      case EndUpdate(_) => NothingYoung(Apply(s, e).state);
    }
  }

  lemma DeliverKeepsCore(s: State, e: Event)
    requires Inv(s) && Enabled(s, e) && !e.Internal?
    ensures Good(Apply(s, e))
  {
    match e
    case SpawnRoot(on, body) => SpawnRootStep(s, on, body);
    case Tick(f, ok) => TickStep(s, f, ok);
    case BeginUpdate(_) => UpdateLoopStep(s, e);
    case SwapReady(_) => UpdateLoopStep(s, e);
    case NextReady(n) => NextReadyStep(s, n);
    case EndUpdate(_) => UpdateLoopStep(s, e);
  }
}
