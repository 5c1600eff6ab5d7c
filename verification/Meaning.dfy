/** Whatever the order of events, every task computes what direct evaluation of its body gives. */
module Meaning {
  import opened Programs
  import opened Machine
  import opened Invariants
  import opened HeapLemmas
  import opened CallLemmas
  import opened StackLemmas
  import opened Steps
  import opened CallSteps
  import opened FirstSegments
  import opened Events

  /** The value of a task: its body evaluated directly. */
  ghost function TaskValue(answers: Answers, body: Code): Value {
    Eval(answers, body, [], map[])
  }

  ghost function ValueOf(answers: Answers, s: State, c: FrameId): Value {
    if c in s.heap then TaskValue(answers, s.heap[c].role.body) else Unit
  }

  /** What the frame's Task variables stand for. */
  ghost function Tasks(answers: Answers, s: State, fr: Frame): map<nat, Value> {
    map i | i in fr.slots :: ValueOf(answers, s, fr.slots[i])
  }

  /** The values collected, with the one the pending co_await will yield. */
  ghost function ValuesThen(answers: Answers, s: State, fr: Frame): seq<Value> {
    match fr.point
    case AtTask(c) => fr.vals + [ValueOf(answers, s, c)]
    case AtOperation(key, _) => fr.vals + [Flag(answers(key))]
    case AtCross(_, body, _, _, _) => fr.vals + [TaskValue(answers, body)]
    case _ => fr.vals
  }

  ghost function TasksThen(answers: Answers, s: State, fr: Frame): map<nat, Value> {
    if fr.point.AtStart? then Tasks(answers, s, fr)[fr.point.slot := ValueOf(answers, s, fr.point.child)]
    else Tasks(answers, s, fr)
  }

  /** The rest of the body, evaluated directly, still gives the value of the whole. */
  ghost predicate MeansOk(answers: Answers, s: State, f: FrameId)
    requires f in s.heap
  {
    var fr := s.heap[f];
    match fr.role
    case Program(body) =>
      && (if fr.point.Final? then fr.point.result == TaskValue(answers, body)
          else
            Eval(answers, fr.code, ValuesThen(answers, s, fr), TasksThen(answers, s, fr)) == TaskValue(answers, body))
      && (fr.point.AtCross? && fr.point.delivered.Some? ==>
            fr.point.delivered.value == TaskValue(answers, fr.point.body))
    case Launcher(_, body) =>
      fr.code.HandBack? && fr.point.Running? ==> fr.vals == [TaskValue(answers, body)]
  }

  ghost predicate Meant(answers: Answers, s: State) {
    forall f {:trigger MeansOk(answers, s, f)} | f in s.heap :: MeansOk(answers, s, f)
  }

  // ---- frames a step does not write ----

  lemma MeansElsewhere(answers: Answers, s: State, t: State, changed: set<FrameId>, gone: set<FrameId>)
    requires HeapOk(s) && Meant(answers, s) && Only(s, t, changed)
    requires KindsKept(s, t, gone) && HeldWithin(s, changed, gone)
    requires forall f | f in changed && f in t.heap :: MeansOk(answers, t, f)
    ensures Meant(answers, t)
  {
    forall f | f in t.heap ensures MeansOk(answers, t, f) {
      Look(s, t, changed, f);
      if f !in changed {
        MeansHere(answers, s, t, changed, gone, f);
      }
    }
  }

  lemma MeansHere(answers: Answers, s: State, t: State, changed: set<FrameId>, gone: set<FrameId>, f: FrameId)
    requires HeapOk(s) && Meant(answers, s) && Only(s, t, changed) && f in s.heap && f !in changed
    requires KindsKept(s, t, gone) && HeldWithin(s, changed, gone)
    ensures f in t.heap && MeansOk(answers, t, f)
  {
    Look(s, t, changed, f);
    assert MeansOk(answers, s, f);
    VariablesKept(answers, s, t, f, s.heap[f], {}, gone);
    assert HoldOk(s, f, Awaiting) && HoldOk(s, f, Starting);
  }

  /** Variables that f keeps stand for what they did. */
  lemma VariablesKept(answers: Answers, s: State, t: State, f: FrameId, to: Frame, drop: set<nat>, gone: set<FrameId>)
    requires HeapOk(s) && f in s.heap && KindsKept(s, t, gone)
    requires forall c, i | c in gone && c in s.heap && s.heap[c].owner == HeldBy(f, Slot(i)) :: i in drop
    requires to.slots == s.heap[f].slots - drop
    ensures Tasks(answers, t, to) == Tasks(answers, s, s.heap[f]) - drop
    ensures drop == {} ==> Tasks(answers, t, to) == Tasks(answers, s, s.heap[f])
  {
    forall i | i in to.slots ensures ValueOf(answers, t, to.slots[i]) == ValueOf(answers, s, to.slots[i]) {
      assert HoldOk(s, f, Slot(i));
    }
  }

  /** An unstarted task: nothing of it has run. */
  lemma FreshMeans(answers: Answers, s: State, c: FrameId)
    requires c in s.heap && s.heap[c].role.Program? && s.heap[c].code == s.heap[c].role.body
    requires s.heap[c].slots == map[] && s.heap[c].vals == [] && (s.heap[c].point.Initial? || s.heap[c].point.Running?)
    ensures MeansOk(answers, s, c)
  {
    assert Tasks(answers, s, s.heap[c]) == map[];
  }

  /** A task of which only owner, parent and binding change. */
  lemma SameMeans(answers: Answers, s: State, t: State, c: FrameId)
    requires HeapOk(s) && Meant(answers, s) && c in s.heap && c in t.heap && KindsKept(s, t, {})
    requires t.heap[c] == s.heap[c].(owner := t.heap[c].owner, parent := t.heap[c].parent)
    ensures MeansOk(answers, t, c)
  {
    assert MeansOk(answers, s, c);
    VariablesKept(answers, s, t, c, t.heap[c], {}, {});
    assert HoldOk(s, c, Awaiting) && HoldOk(s, c, Starting);
  }

  // ---- bodies ----

  lemma ReturnMeans(answers: Answers, s: State, f: FrameId, t: State)
    requires At(s, f) && Meant(answers, s) && IsRunning(s, f) && s.heap[f].code.Return?
    requires StepReturn(s, f, s.heap[f].code.result) == Next(t)
    ensures Meant(answers, t)
  {
    Here(s, f);
    assert MeansOk(answers, s, f);
    KindsFrom(s, t, {f}, {});
    MeansElsewhere(answers, s, t, {f}, {});
  }

  lemma BranchMeans(answers: Answers, s: State, f: FrameId, t: State)
    requires At(s, f) && Meant(answers, s) && f in s.heap && s.heap[f].code.Branch? && StepBody(s, f) == Next(t)
    ensures Meant(answers, t)
  {
    Here(s, f);
    assert MeansOk(answers, s, f);
    KindsFrom(s, t, {f}, {});
    VariablesKept(answers, s, t, f, t.heap[f], {}, {});
    MeansElsewhere(answers, s, t, {f}, {});
  }

  lemma OperationMeans(answers: Answers, s: State, f: FrameId, t: State)
    requires At(s, f) && Meant(answers, s) && IsRunning(s, f) && s.heap[f].code.Operation?
    requires StepOperation(s, f, s.heap[f].code.key, s.heap[f].code.next) == Next(t)
    ensures Meant(answers, t)
  {
    Here(s, f);
    assert MeansOk(answers, s, f);
    KindsFrom(s, t, {f}, {});
    VariablesKept(answers, s, t, f, t.heap[f], {}, {});
    MeansElsewhere(answers, s, t, {f}, {});
  }

  lemma MakeMeans(answers: Answers, s: State, f: FrameId, t: State)
    requires At(s, f) && Meant(answers, s) && IsRunning(s, f) && s.heap[f].code.Make?
    requires var c := s.heap[f].code; StepMake(s, f, c.slot, c.on, c.body, c.next) == Next(t)
    ensures Meant(answers, t)
  {
    Here(s, f);
    NextIsFree(s);
    var c := s.next;
    assert MeansOk(answers, s, f);
    KindsFrom(s, t, {f, c}, {});
    TasksGain(answers, s, f, t);
    FreshMeans(answers, t, c);
    MeansElsewhere(answers, s, t, {f, c}, {});
  }

  /** The new task joins the ones in scope, with the value of its body. */
  lemma TasksGain(answers: Answers, s: State, f: FrameId, t: State)
    requires At(s, f) && IsRunning(s, f) && s.heap[f].code.Make? && KindsKept(s, t, {})
    requires var c := s.heap[f].code; StepMake(s, f, c.slot, c.on, c.body, c.next) == Next(t)
    ensures Tasks(answers, t, t.heap[f]) ==
      Tasks(answers, s, s.heap[f])[s.heap[f].code.slot := TaskValue(answers, s.heap[f].code.body)]
  {
    Here(s, f);
    NextIsFree(s);
    VariablesKept(answers, s, t, f, t.heap[f].(slots := s.heap[f].slots), {}, {});
  }

  /** The rest of f's body once the task c has left its variable. */
  lemma AfterAwait(answers: Answers, s: State, t: State, f: FrameId, slot: nat, gone: set<FrameId>)
    requires CoreAt(s, f) && Meant(answers, s) && f in s.heap && s.heap[f].code.Await? && s.heap[f].code.slot == slot
    requires slot in s.heap[f].slots && KindsKept(s, t, gone) && gone <= {s.heap[f].slots[slot]} && f in t.heap
    requires t.heap[f].slots == s.heap[f].slots - {slot}
    ensures var v := ValueOf(answers, s, s.heap[f].slots[slot]);
      Eval(answers, s.heap[f].code.next, s.heap[f].vals + [v], Tasks(answers, t, t.heap[f]))
        == Eval(answers, s.heap[f].code, s.heap[f].vals, Tasks(answers, s, s.heap[f]))
  {
    assert HoldOk(s, f, Slot(slot));
    VariablesKept(answers, s, t, f, t.heap[f], {slot}, gone);
  }

  lemma AwaitMeans(answers: Answers, s: State, f: FrameId, t: State)
    requires IsAwait(s, f, t) && Meant(answers, s)
    ensures Meant(answers, t)
  {
    Here(s, f);
    InVariable(s, f, s.heap[f].code.slot);
    if s.heap[Awaited(s, f)].point.Final? {
      AwaitFinishedMeans(answers, s, f, t);
    } else {
      AwaitPendingMeans(answers, s, f, t);
    }
  }

  lemma AwaitFinishedMeans(answers: Answers, s: State, f: FrameId, t: State)
    requires IsAwait(s, f, t) && Meant(answers, s) && s.heap[Awaited(s, f)].point.Final?
    ensures Meant(answers, t)
  {
    Here(s, f);
    var slot, c := s.heap[f].code.slot, Awaited(s, f);
    InVariable(s, f, slot);
    assert MeansOk(answers, s, f) && MeansOk(answers, s, c);
    KindsFrom(s, t, {f, c}, {c});
    AfterAwait(answers, s, t, f, slot, {c});
    MeansElsewhere(answers, s, t, {f, c}, {c});
  }

  lemma AwaitPendingMeans(answers: Answers, s: State, f: FrameId, t: State)
    requires IsAwait(s, f, t) && Meant(answers, s) && !s.heap[Awaited(s, f)].point.Final?
    ensures Meant(answers, t)
  {
    hide YoungOk, TagsOk, QueuesOk, StackOk, ActivesOk, WellFormed, First;
    Here(s, f);
    var c := Awaited(s, f);
    InVariable(s, f, s.heap[f].code.slot);
    AwaitingMeans(answers, s, f, t);
    if s.heap[c].executor == None {
      FreshMeans(answers, t, c);
    } else {
      SameMeans(answers, s, t, c);
    }
    MeansElsewhere(answers, s, t, {f, c}, {});
  }

  lemma AwaitingMeans(answers: Answers, s: State, f: FrameId, t: State)
    requires IsAwait(s, f, t) && Meant(answers, s) && !s.heap[Awaited(s, f)].point.Final?
    ensures f in t.heap && MeansOk(answers, t, f) && KindsKept(s, t, {})
  {
    AwaitPendingDoes(s, f, t);
    var c := Awaited(s, f);
    assert KindsKept(s, t, {}) by { KindsFrom(s, t, {f, c}, {}); }
    AwaiterMeans(answers, s, f, c, s.heap[f].code.slot, t);
  }

  lemma AwaiterMeans(answers: Answers, s: State, f: FrameId, c: FrameId, slot: nat, t: State)
    requires CoreAt(s, f) && Meant(answers, s) && Awaits(s, t, f, c, slot) && KindsKept(s, t, {})
    ensures MeansOk(answers, t, f)
  {
    assert MeansOk(answers, s, f);
    AfterAwait(answers, s, t, f, slot, {});
  }

  lemma StartMeans(answers: Answers, s: State, f: FrameId, t: State)
    requires At(s, f) && Meant(answers, s) && IsRunning(s, f) && s.heap[f].code.Start?
    requires StepStart(s, f, s.heap[f].code.slot, s.heap[f].code.next) == Next(t)
    ensures Meant(answers, t)
  {
    Here(s, f);
    var slot := s.heap[f].code.slot;
    InVariable(s, f, slot);
    var c := s.heap[f].slots[slot];
    KindsFrom(s, t, {f, c}, {});
    StartingMeans(answers, s, f, c, t);
    FreshMeans(answers, t, c);
    MeansElsewhere(answers, s, t, {f, c}, {});
  }

  lemma StartingMeans(answers: Answers, s: State, f: FrameId, c: FrameId, t: State)
    requires At(s, f) && Meant(answers, s) && f in s.heap && f in t.heap && KindsKept(s, t, {})
    requires s.heap[f].code.Start? && s.heap[f].role.Program? && s.heap[f].point.Running?
    requires s.heap[f].code.slot in s.heap[f].slots && s.heap[f].slots[s.heap[f].code.slot] == c
    requires var fr, slot := s.heap[f], s.heap[f].code.slot;
      t.heap[f] == fr.(code := fr.code.next, slots := fr.slots - {slot}, types := fr.types[slot := Started],
                       point := AtStart(slot, c))
    ensures MeansOk(answers, t, f)
  {
    var slot := s.heap[f].code.slot;
    assert MeansOk(answers, s, f) && HoldOk(s, f, Slot(slot));
    VariablesKept(answers, s, t, f, t.heap[f], {slot}, {});
    assert TasksThen(answers, t, t.heap[f]) == Tasks(answers, s, s.heap[f]);
  }

  lemma CrossMeans(answers: Answers, s: State, f: FrameId, t: State)
    requires At(s, f) && Meant(answers, s) && CrossWrites(s, f, t)
    ensures Meant(answers, t)
  {
    hide YoungOk, TagsOk, QueuesOk, StackOk, ActivesOk;
    Here(s, f);
    NextIsFree(s);
    var slot := s.heap[f].code.slot;
    InVariable(s, f, slot);
    var c := s.heap[f].slots[slot];
    assert MeansOk(answers, s, f);
    KindsFrom(s, t, {f, c, s.next}, {});
    VariablesKept(answers, s, t, f, t.heap[f], {slot}, {});
    FreshMeans(answers, t, c);
    MeansElsewhere(answers, s, t, {f, c, s.next}, {});
  }

  lemma DetachMeans(answers: Answers, s: State, f: FrameId, t: State)
    requires At(s, f) && Meant(answers, s) && DetachWrites(s, f, t)
    ensures Meant(answers, t)
  {
    hide YoungOk, TagsOk, QueuesOk, StackOk, ActivesOk;
    Here(s, f);
    var slot := s.heap[f].code.slot;
    InVariable(s, f, slot);
    var c := s.heap[f].slots[slot];
    assert MeansOk(answers, s, f);
    KindsFrom(s, t, {f, c}, {});
    VariablesKept(answers, s, t, f, t.heap[f], {slot}, {});
    FreshMeans(answers, t, c);
    MeansElsewhere(answers, s, t, {f, c}, {});
  }

  lemma LaunchMeans(answers: Answers, s: State, f: FrameId, p: FrameId, c: FrameId, t: State)
    requires At(s, f) && Meant(answers, s) && IsLaunch(s, t, f, p, c)
    ensures Meant(answers, t)
  {
    Here(s, f);
    assert CarrierOk(s, f) && HoldOk(s, p, Crossing) && OwnerOk(s, c) && FrameOk(s, c);
    assert MeansOk(answers, s, p);
    KindsFrom(s, t, {f, p, c}, {});
    VariablesKept(answers, s, t, p, t.heap[p], {}, {});
    FreshMeans(answers, t, c);
    MeansElsewhere(answers, s, t, {f, p, c}, {});
  }

  lemma HandBackMeans(answers: Answers, s: State, f: FrameId, p: FrameId, t: State)
    requires At(s, f) && BackWrites(s, f, p, t) && Meant(answers, s)
    ensures Meant(answers, t)
  {
    hide YoungOk, TagsOk, QueuesOk, StackOk, ActivesOk, WellFormed, First;
    Here(s, f);
    assert CarrierOk(s, f) && FrameOk(s, p);
    assert MeansOk(answers, s, p) && MeansOk(answers, s, f);
    KindsFrom(s, t, {f, p}, {});
    VariablesKept(answers, s, t, p, t.heap[p], {}, {});
    MeansElsewhere(answers, s, t, {f, p}, {});
  }

  // ---- calls coming back ----

  /** Going on with the result of an awaited task. */
  lemma TookMeans(answers: Answers, s: State, t: State, p: FrameId, c: FrameId)
    requires HeapOk(s) && Meant(answers, s) && Took(s, t, p, c)
    ensures Meant(answers, t)
  {
    assert FrameOk(s, p) && FrameOk(s, c) && OwnerOk(s, c);
    assert MeansOk(answers, s, p) && MeansOk(answers, s, c);
    KindsFrom(s, t, {p, c}, {c});
    VariablesKept(answers, s, t, p, t.heap[p], {}, {c});
    MeansElsewhere(answers, s, t, {p, c}, {c});
  }

  lemma StarterMeans(answers: Answers, s: State, p: FrameId, c: FrameId, t: State)
    requires AtCall(s) && Meant(answers, s) && Top(s) == Starter(p, c) && StepStarter(s, p, c) == Next(t)
    ensures Meant(answers, t)
  {
    CallHere(s, c);
    assert HoldOk(s, p, Starting) && FrameOk(s, p);
    KindsFrom(s, t, {p, c}, {});
    StartedMeans(answers, s, p, c, t);
    SameMeans(answers, s, t, c);
    MeansElsewhere(answers, s, t, {p, c}, {});
  }

  lemma StartedMeans(answers: Answers, s: State, p: FrameId, c: FrameId, t: State)
    requires HeapOk(s) && Meant(answers, s) && p in s.heap && p in t.heap && KindsKept(s, t, {})
    requires s.heap[p].point.AtStart? && s.heap[p].point.child == c && c in s.heap
    requires t.heap[p] == s.heap[p].(point := Running, slots := s.heap[p].slots[s.heap[p].point.slot := c])
    ensures MeansOk(answers, t, p)
  {
    assert MeansOk(answers, s, p) && FrameOk(s, p);
    VariablesKept(answers, s, t, p, s.heap[p], {}, {});
    assert Tasks(answers, t, t.heap[p]) == TasksThen(answers, s, s.heap[p]);
  }

  // ---- runs ----

  lemma BodyMeans(answers: Answers, s: State, f: FrameId, t: State)
    requires At(s, f) && Meant(answers, s) && StepBody(s, f) == Next(t)
    ensures Meant(answers, t)
  {
    Here(s, f);
    match s.heap[f].code
    case Return(_) => ReturnMeans(answers, s, f, t);
    case Branch(_, _, _) => BranchMeans(answers, s, f, t);
    case Make(_, _, _, _) => MakeMeans(answers, s, f, t);
    case Await(slot, _) => InVariable(s, f, slot); AwaitMeans(answers, s, f, t);
    case Start(_, _) => StartMeans(answers, s, f, t);
    case Operation(_, _) => OperationMeans(answers, s, f, t);
    case Cross(_, _, _) => CrossDoes(s, f, t); CrossMeans(answers, s, f, t);
    case Detach(_, _, _) => DetachDoes(s, f, t); DetachMeans(answers, s, f, t);
    case Launch(p) => LaunchIs(s, f, p, t); LaunchMeans(answers, s, f, p, s.heap[p].point.held.value, t);
    case HandBack(p) => BackDoes(s, f, t); HandBackMeans(answers, s, f, p, t);
  }

  lemma LaunchIs(s: State, f: FrameId, p: FrameId, t: State)
    requires At(s, f) && IsRunning(s, f) && s.heap[f].code == Launch(p) && StepLaunch(s, f, p) == Next(t)
    ensures p in s.heap && s.heap[p].point.AtCross? && s.heap[p].point.held.Some?
    ensures IsLaunch(s, t, f, p, s.heap[p].point.held.value)
  {
    hide YoungOk, TagsOk, QueuesOk, StackOk, ActivesOk;
    Here(s, f);
    assert CarrierOk(s, f) && HoldOk(s, p, Crossing);
    var c := s.heap[p].point.held.value;
    assert OwnerOk(s, c) && FrameOk(s, c) && FrameOk(s, p);
  }

  lemma CallMeans(answers: Answers, s: State, t: State)
    requires AtCall(s) && Meant(answers, s) && Step(s) == Next(t)
    ensures Meant(answers, t)
  {
    match Top(s)
    case Starter(p, c) => StarterMeans(answers, s, p, c, t);
    case Awaiter(p, c) => AwaiterReturns(answers, s, p, c, t);
    case Resumer(f) => ResumerReturns(answers, s, f, t);
  }

  lemma AwaiterReturns(answers: Answers, s: State, p: FrameId, c: FrameId, t: State)
    requires AtCall(s) && Meant(answers, s) && Top(s) == Awaiter(p, c) && Step(s) == Next(t)
    ensures Meant(answers, t)
  {
    CallHere(s, c);
    if s.heap[c].point.Final? {
      AwaiterTakes(s, p, c, t);
      TookMeans(answers, s, t, p, c);
    } else {
      UntouchedMeans(answers, s, t);
    }
  }

  lemma ResumerReturns(answers: Answers, s: State, f: FrameId, t: State)
    requires AtCall(s) && Meant(answers, s) && Top(s) == Resumer(f) && Step(s) == Next(t)
    ensures Meant(answers, t)
  {
    CallHere(s, f);
    if Ended(s, f) && s.heap[f].owner.HeldBy? {
      ResumerTakes(s, f, s.heap[f].owner.frame, t);
      TookMeans(answers, s, t, s.heap[f].owner.frame, f);
    } else if Ended(s, f) {
      KindsFrom(s, t, {f}, {f});
      MeansElsewhere(answers, s, t, {f}, {f});
    } else {
      UntouchedMeans(answers, s, t);
    }
  }

  lemma UntouchedMeans(answers: Answers, s: State, t: State)
    requires HeapOk(s) && Meant(answers, s) && t.heap == s.heap && s.next <= t.next
    ensures Meant(answers, t)
  {
    MeansElsewhere(answers, s, t, {}, {});
  }

  /** The environment gives operation `key` the answer answers(key). */
  ghost predicate Follows(answers: Answers, s: State, e: Event) {
    e.Tick? && e.frame in s.heap && s.heap[e.frame].point.AtOperation? ==> e.ok == answers(s.heap[e.frame].point.key)
  }

  lemma EventMeans(answers: Answers, s: State, e: Event, t: State)
    requires Inv(s) && Meant(answers, s) && Enabled(s, e) && Follows(answers, s, e) && Apply(s, e) == Next(t)
    ensures Meant(answers, t)
  {
    match e
    case Internal => if Top(s).Body? { BodyMeans(answers, s, Top(s).frame, t); } else { CallMeans(answers, s, t); }
    case SpawnRoot(on, body) => RootMeans(answers, s, on, body, t);
    case Tick(f, ok) => TickMeans(answers, s, f, ok, t);
    case NextReady(n) => NextReadyMeans(answers, s, n, t);
    case _ => UntouchedMeans(answers, s, t);
  }

  lemma RootMeans(answers: Answers, s: State, on: Executor, body: Code, t: State)
    requires Idle(s) && Meant(answers, s) && WellFormed(body, on, map[]) && Apply(s, SpawnRoot(on, body)) == Next(t)
    ensures Meant(answers, t)
  {
    hide YoungOk, TagsOk, QueuesOk, StackOk, ActivesOk, WellFormed, First;
    NextIsFree(s);
    KindsFrom(s, t, {s.next}, {});
    FreshMeans(answers, t, s.next);
    MeansElsewhere(answers, s, t, {s.next}, {});
  }

  lemma TickMeans(answers: Answers, s: State, f: FrameId, ok: bool, t: State)
    requires Idle(s) && Meant(answers, s) && f in s.tags && Apply(s, Tick(f, ok)) == Next(t)
    requires Follows(answers, s, Tick(f, ok))
    ensures Meant(answers, t)
  {
    TickStep(s, f, ok);
    assert s.tags[f] > 0 && InOperation(s, f);
    EnteredMeans(answers, s, f, t);
  }

  lemma NextReadyMeans(answers: Answers, s: State, n: nat, t: State)
    requires Idle(s) && Meant(answers, s) && Enabled(s, NextReady(n)) && Apply(s, NextReady(n)) == Next(t)
    ensures Meant(answers, t)
  {
    NextReadyStep(s, n);
    EnteredMeans(answers, s, s.updating[n][0], t);
  }

  /** A run in which every operation gets the answer fixed for it. */
  ghost predicate IsAnsweredRun(answers: Answers, s: State, events: seq<Event>, t: State)
    decreases |events|
  {
    if events == [] then s == t
    else
      && Enabled(s, events[0]) && Follows(answers, s, events[0]) && Apply(s, events[0]).Next?
      && IsAnsweredRun(answers, Apply(s, events[0]).state, events[1..], t)
  }

  /** Meaning is preserved: for all programs, all answers and all orders of delivery. */
  lemma {:induction false} RunMeans(answers: Answers, s: State, events: seq<Event>, t: State)
    requires Inv(s) && Meant(answers, s) && IsAnsweredRun(answers, s, events, t)
    ensures Inv(t) && Meant(answers, t)
    decreases |events|
  {
    if events != [] {
      var u := Apply(s, events[0]).state;
      ApplyKeepsInv(s, events[0]);
      EventMeans(answers, s, events[0], u);
      RunMeans(answers, u, events[1..], t);
    }
  }

  /** A parked frame goes on with what it was waiting for. */
  lemma EnteredMeans(answers: Answers, s: State, f: FrameId, t: State)
    requires HeapOk(s) && Meant(answers, s) && f in s.heap && f in t.heap && Only(s, t, {f})
    requires t.heap[f] == s.heap[f].(point := Running, vals := t.heap[f].vals)
    requires match s.heap[f].point
      case Initial => t.heap[f].vals == s.heap[f].vals && s.heap[f].owner.Detached?
      case AtOperation(key, _) => t.heap[f].vals == s.heap[f].vals + [Flag(answers(key))]
      case AtCross(_, _, _, _, delivered) => delivered.Some? && t.heap[f].vals == s.heap[f].vals + [delivered.value]
      case _ => false
    ensures Meant(answers, t)
  {
    assert MeansOk(answers, s, f) && FrameOk(s, f);
    KindsFrom(s, t, {f}, {});
    VariablesKept(answers, s, t, f, t.heap[f], {}, {});
    MeansElsewhere(answers, s, t, {f}, {});
  }
}
