/** What holds of every reachable state of the runtime, for all programs and all schedules. */
module Theorems {
  import opened Programs
  import opened Machine
  import opened Invariants
  import opened HeapLemmas
  import opened CallLemmas
  import opened StackLemmas
  import opened Steps
  import opened CallSteps
  import opened FirstSegments
  import opened Events
  import opened Segments
  import opened Meaning

  // ---- reachable states ----

  ghost predicate Reachable(s: State) {
    exists events :: IsRun(EMPTY, events, s)
  }

  lemma EmptyIsGood(answers: Answers)
    ensures Idle(EMPTY) && Meant(answers, EMPTY)
  {
    forall n: nat, f: FrameId ensures Queued(EMPTY, n, f) == 0 { assert Queue(EMPTY, n) == []; }
  }

  lemma {:induction false} RunKeepsInv(s: State, events: seq<Event>, t: State)
    requires Inv(s) && IsRun(s, events, t)
    ensures Inv(t)
    decreases |events|
  {
    if events != [] {
      ApplyKeepsInv(s, events[0]);
      RunKeepsInv(Apply(s, events[0]).state, events[1..], t);
    }
  }

  /** No step of any run touches a destroyed frame or fails an assertion of the library. */
  lemma NothingFaults(s: State, e: Event)
    requires Reachable(s) && Enabled(s, e)
    ensures Inv(s) && Apply(s, e).Next?
  {
    EmptyIsGood(_ => true);
    var events :| IsRun(EMPTY, events, s);
    RunKeepsInv(EMPTY, events, s);
    ApplyKeepsInv(s, e);
  }

  // ---- wake sources ----

  datatype Source =
    | Entry(n: nat, position: nat)   // an entry of executor n's queue
    | Tag(copy: nat)                 // an outstanding completion
    | Child(task: FrameId)           // a live task whose parent link is the frame
    | Carrier(launcher: FrameId)     // a LaunchChild holding the frame

  ghost predicate Wakes(s: State, f: FrameId, source: Source) {
    match source
    case Entry(n, k) => k < |Queue(s, n)| && Queue(s, n)[k] == f
    case Tag(k) => k < s.tags[f]
    case Child(c) => c in s.heap && s.heap[c].parent == Some(f) && !s.heap[c].point.Final?
    case Carrier(l) => l in s.heap && (s.heap[l].code == Launch(f) || s.heap[l].code == HandBack(f))
  }

  /** Started or spawned, and not done. */
  ghost predicate Alive(s: State, f: FrameId) {
    f in s.heap && s.heap[f].executor.Some? && !s.heap[f].point.Final?
  }

  /** The segment that runs is inside this frame, or about to go on with it. */
  ghost predicate InSegment(s: State, f: FrameId) {
    && s.stack != [] && f in s.heap
    && (|| s.heap[f].point.Running? || s.heap[f].point.AtStart?
        || (s.heap[f].point.AtTask? && !Top(s).Body? && Subject(Top(s)) == s.heap[f].point.child))
  }

  lemma CountedTwice(q: seq<FrameId>, i: nat, j: nat)
    requires i < j < |q| && q[i] == q[j]
    ensures multiset(q)[q[i]] >= 2
  {
    assert q == q[..i] + [q[i]] + q[i + 1..j] + [q[j]] + q[j + 1..];
  }

  /** What a wake source says about the frame, and that there is one place for it. */
  lemma SourceSays(s: State, f: FrameId, source: Source)
    requires Inv(s) && Wakes(s, f, source)
    ensures f in s.heap
    ensures match source
      case Entry(n, k) =>
        ReadyOn(s, n, f) && forall j: nat {:trigger Queue(s, n)[j]} | j < |Queue(s, n)| && Queue(s, n)[j] == f :: j == k
      case Tag(k) => s.heap[f].point.AtOperation? && k == 0
      case Child(c) => s.heap[f].point == AtTask(c)
      case Carrier(l) => IsWaiting(s.heap[f]) && s.heap[f].point.launcher == l
  {
    match source
    case Entry(n, k) =>
      assert f in multiset(Queue(s, n));
      assert Queued(s, n, f) == 1;
      forall j: nat | j < |Queue(s, n)| && Queue(s, n)[j] == f ensures j == k {
        if j < k { CountedTwice(Queue(s, n), j, k); } else if k < j { CountedTwice(Queue(s, n), k, j); }
      }
    case Tag(k) =>
      assert s.tags[f] == if InOperation(s, f) then 1 else 0;
    case Child(c) =>
      assert FrameOk(s, c) && OwnerOk(s, c);
    case Carrier(l) =>
      assert FrameOk(s, l) && CarrierOk(s, l);
  }

  /** No double wakeup: in every state of a run a frame has at most one wake source. */
  lemma AtMostOneWakeSource(s: State, f: FrameId, a: Source, b: Source)
    requires Inv(s) && Wakes(s, f, a) && Wakes(s, f, b)
    ensures a == b && Alive(s, f) && !s.heap[f].point.Running?
  {
    SourceSays(s, f, a);
    SourceSays(s, f, b);
    assert FrameOk(s, f);
    if a.Child? { assert FrameOk(s, a.task) && OwnerOk(s, a.task); }
  }

  /** No lost wakeup: a frame that is alive and not in the running segment has a wake source. */
  lemma WakeSourceExists(s: State, f: FrameId) returns (source: Source)
    requires Inv(s) && Alive(s, f) && !InSegment(s, f)
    ensures Wakes(s, f, source)
  {
    assert FrameOk(s, f) && ActiveOk(s, f);
    match s.heap[f].point
    case Initial => source := EntryExists(s, s.heap[f].home.id, f);
    case AtTask(c) =>
      assert HoldOk(s, f, Awaiting) && FrameOk(s, c) && ActiveOk(s, c);
      source := Child(c);
    case AtOperation(_, _) =>
      assert s.tags[f] == 1;
      source := Tag(0);
    case AtCross(_, _, l, _, delivered) =>
      assert WaiterOk(s, f);
      if delivered.Some? {
        source := EntryExists(s, s.heap[f].home.id, f);
      } else {
        assert FrameOk(s, l);
        source := Carrier(l);
      }
  }

  lemma EntryExists(s: State, n: nat, f: FrameId) returns (source: Source)
    requires Inv(s) && ReadyOn(s, n, f)
    ensures Wakes(s, f, source)
  {
    assert Queued(s, n, f) == 1;
    assert f in multiset(Queue(s, n));
    var k :| 0 <= k < |Queue(s, n)| && Queue(s, n)[k] == f;
    source := Entry(n, k);
  }

  /** Between segments: exactly one wake source for every frame that is alive, none for one that is
      unstarted, done or destroyed. */
  lemma ExactlyOneWakeSource(s: State, f: FrameId)
    requires Idle(s)
    ensures Alive(s, f) ==>
      exists source :: Wakes(s, f, source) && forall other :: Wakes(s, f, other) ==> other == source
    ensures !Alive(s, f) ==> forall source :: !Wakes(s, f, source)
  {
    forall a, b | Wakes(s, f, a) && Wakes(s, f, b) ensures a == b && Alive(s, f) { AtMostOneWakeSource(s, f, a, b); }
    if Alive(s, f) {
      var source := WakeSourceExists(s, f);
      assert Wakes(s, f, source);
    } else {
      forall source ensures !Wakes(s, f, source) {
        if Wakes(s, f, source) { AtMostOneWakeSource(s, f, source, source); }
      }
    }
  }

  // ---- completions ----

  /** Outstanding tags and suspended completion-queue awaitables are in bijection. */
  lemma TagsAreOperations(events: seq<Event>, s: State)
    requires IsRun(EMPTY, events, s)
    ensures forall f :: s.tags[f] == if InOperation(s, f) then 1 else 0
  {
    EmptyIsGood(_ => true);
    RunKeepsInv(EMPTY, events, s);
  }

  /** The flag await_resume reads is the one delivered for that very operation; no other frame and
      no other tag is touched. */
  lemma TickDelivers(s: State, f: FrameId, ok: bool)
    requires Inv(s) && Enabled(s, Tick(f, ok))
    ensures Apply(s, Tick(f, ok)).Next?
    ensures var t := Apply(s, Tick(f, ok)).state;
      && f in s.heap && f in t.heap && t.stack == [Resumer(f), Body(f)] && t.heap[f].point.Running?
      && t.heap[f].vals == s.heap[f].vals + [Flag(ok)]
      && forall g :: (g != f ==> Same(s, t, g)) && t.tags[g] == if g == f then 0 else s.tags[g]
  {
    TickStep(s, f, ok);
    assert s.tags[f] == 1 && InOperation(s, f);
  }

  // ---- ownership and destruction ----

  ghost predicate Holds(s: State, g: FrameId, place: Place, c: FrameId) {
    g in s.heap && Hold(s.heap[g], place) == Some(c)
  }

  /** Each promise is held in exactly one place, or detached and then without holder or parent.
      Nothing holds a destroyed frame. */
  lemma ExactlyOneOwner(s: State, c: FrameId)
    requires Inv(s)
    ensures c in s.heap && !s.heap[c].destroyOnDone ==>
      exists g, place :: Holds(s, g, place, c) && forall h, at :: Holds(s, h, at, c) ==> h == g && at == place
    ensures c !in s.heap || s.heap[c].destroyOnDone ==> forall g, place :: !Holds(s, g, place, c)
    ensures c in s.heap && s.heap[c].destroyOnDone ==> s.heap[c].parent == None
  {
    forall h, at | Holds(s, h, at, c) ensures c in s.heap && s.heap[c].owner == HeldBy(h, at) {
      assert HoldOk(s, h, at);
    }
    if c in s.heap {
      assert FrameOk(s, c) && OwnerOk(s, c);
      if s.heap[c].owner.HeldBy? { assert Holds(s, s.heap[c].owner.frame, s.heap[c].owner.place, c); }
    }
  }

  // ---- parent links ----

  /** The frame k links up from c. */
  ghost function Ancestor(s: State, c: FrameId, k: nat): Option<FrameId>
    decreases k
  {
    if c !in s.heap then None
    else if k == 0 then Some(c)
    else if s.heap[c].parent.None? then None
    else Ancestor(s, s.heap[c].parent.value, k - 1)
  }

  /** Parent links form a forest, and every link joins frames of the same executor. */
  lemma {:induction false} ParentsFormForest(s: State, c: FrameId, k: nat)
    requires Inv(s) && c in s.heap && k > 0 && Ancestor(s, c, k).Some?
    ensures var a := Ancestor(s, c, k).value;
      && a != c && a in s.heap && s.heap[a].executor == s.heap[c].executor
      && s.heap[a].point.AtTask? && (a < c || s.heap[a].role.Launcher?) && s.heap[c].role.Program?
    decreases k
  {
    var p := s.heap[c].parent.value;
    assert FrameOk(s, c) && OwnerOk(s, c) && FrameOk(s, p);
    if k > 1 {
      ParentsFormForest(s, p, k - 1);
    }
  }

  // ---- threads ----

  lemma RunIsThreaded(events: seq<Event>, s: State)
    requires IsRun(EMPTY, events, s)
    ensures Threaded(s, Opener(Internal, events))
  {
    EmptyIsGood(_ => true);
    NothingBegins(EMPTY, Internal);
    RunKeepsThread(EMPTY, events, s, Internal);
  }

  /** In every reachable state a native call changes executor only by a Resume, and a Resume above the
      bottom is for a completion queue. */
  lemma ExecutorChangesBySpawn(events: seq<Event>, s: State, k: nat)
    requires IsRun(EMPTY, events, s) && 0 < k < |s.stack|
    ensures Inv(s)
    ensures if s.stack[k].Resumer? then HomeAt(s, k).CompletionQueue? else HomeAt(s, k) == HomeAt(s, k - 1)
  {
    RunIsThreaded(events, s);
    if s.stack[k].Resumer? {
      assert EntryOk(s, s.stack[k]);
    } else {
      NeighboursShareExecutor(s, k);
    }
  }

  /** A native call about a frame of game executor n happens only in a segment that Update's loop on n
      began, and every call below it belongs to n too: it runs on the thread that updates n. A segment
      that a completion or an outside spawn began runs no game-bound body. */
  lemma GameCallsRunInsideUpdate(events: seq<Event>, s: State, k: nat, n: nat)
    requires IsRun(EMPTY, events, s) && k < |s.stack|
    requires Subject(s.stack[k]) in s.heap && s.heap[Subject(s.stack[k])].home == Game(n)
    ensures Opener(Internal, events) == NextReady(n) && n in s.updating
    ensures Inv(s) && forall j: nat | j <= k :: HomeAt(s, j) == Game(n)
  {
    RunIsThreaded(events, s);
    assert EntryOk(s, s.stack[k]);
    GameCallsReachBottom(s, k);
    assert HomeAt(s, 0) == Game(n);
  }

  /** So does a body bound to a game executor. */
  lemma GameBodiesRunInsideUpdate(events: seq<Event>, s: State, f: FrameId, n: nat)
    requires IsRun(EMPTY, events, s)
    requires f in s.heap && s.heap[f].point.Running? && s.heap[f].home == Game(n)
    ensures Opener(Internal, events) == NextReady(n) && n in s.updating
    ensures s.heap[f].executor == Some(Game(n))
  {
    RunIsThreaded(events, s);
    assert ActiveOk(s, f);
    var k: int :| 0 <= k < |s.stack| && s.stack[k] == Body(f);
    assert EntryOk(s, s.stack[k]);
    GameCallsRunInsideUpdate(events, s, k, n);
  }

  // ---- cross-task hand-over ----

  /** While the result is out, exactly one LaunchChild has the waiter and no queue does; once it is
      stored, it is the child's value, nobody else has the waiter, and its own executor's queue has it
      once. */
  lemma HandOverIsExact(answers: Answers, s: State, p: FrameId)
    requires Inv(s) && Meant(answers, s) && p in s.heap && s.heap[p].point.AtCross?
    ensures Alive(s, p) && s.heap[p].executor == Some(s.heap[p].home)
    ensures s.heap[p].point.delivered.Some? ==>
      && s.heap[p].point.delivered.value == TaskValue(answers, s.heap[p].point.body)
      && s.heap[p].home.Game? && Queued(s, s.heap[p].home.id, p) == 1
      && forall l :: !Wakes(s, p, Carrier(l))
    ensures s.heap[p].point.delivered.None? ==>
      && Wakes(s, p, Carrier(s.heap[p].point.launcher))
      && (forall l :: Wakes(s, p, Carrier(l)) ==> l == s.heap[p].point.launcher)
      && forall n: nat :: Queued(s, n, p) == 0
  {
    assert FrameOk(s, p) && MeansOk(answers, s, p) && WaiterOk(s, p);
    forall l | Wakes(s, p, Carrier(l)) ensures IsWaiting(s.heap[p]) && l == s.heap[p].point.launcher {
      SourceSays(s, p, Carrier(l));
    }
    if s.heap[p].point.delivered.None? { assert FrameOk(s, s.heap[p].point.launcher); }
  }

  // ---- no deadlock ----

  ghost predicate WaitsFor(s: State, f: FrameId, g: FrameId) {
    && f in s.heap && g in s.heap
    && (s.heap[f].point == AtTask(g) || (IsWaiting(s.heap[f]) && s.heap[f].point.launcher == g))
  }

  /** Parked on something the environment delivers: a completion, or a ready-queue entry. */
  ghost predicate OnReal(s: State, f: FrameId) {
    InOperation(s, f) || (f in s.heap && IsReady(s.heap[f]))
  }

  /** Frame ids grow along waiting, a LaunchChild counting as its waiter. */
  ghost function Rank(s: State, f: FrameId): nat
    requires f in s.heap
  {
    if IsCarrier(s.heap[f]) && s.heap[f].role.Launcher? then s.heap[f].role.waiter else f
  }

  ghost predicate IsWaitPath(s: State, path: seq<FrameId>) {
    && path != []
    && (forall k | 0 < k < |path| :: WaitsFor(s, path[k - 1], path[k]))
    && OnReal(s, path[|path| - 1])
  }

  /** Greedy Resume is complete: when it returns, whatever is still alive waits, through a chain of
      tasks, for a first frame parked on a completion or in a ready queue. */
  lemma {:induction false} WaitsForSomethingReal(s: State, f: FrameId) returns (path: seq<FrameId>)
    requires Idle(s) && Alive(s, f)
    ensures IsWaitPath(s, path) && path[0] == f
    decreases s.next - Rank(s, f), if IsCarrier(s.heap[f]) then 0 else 1
  {
    assert FrameOk(s, f) && ActiveOk(s, f) && CarrierOk(s, f);
    if OnReal(s, f) {
      path := [f];
    } else if IsWaiting(s.heap[f]) {
      var l := s.heap[f].point.launcher;
      assert WaiterOk(s, f) && FrameOk(s, l) && ActiveOk(s, l);
      var rest := WaitsForSomethingReal(s, l);
      path := Longer(s, f, rest);
    } else {
      var c := s.heap[f].point.child;
      assert HoldOk(s, f, Awaiting) && OwnerOk(s, c) && FrameOk(s, c) && ActiveOk(s, c);
      var rest := WaitsForSomethingReal(s, c);
      path := Longer(s, f, rest);
    }
  }

  lemma Longer(s: State, f: FrameId, rest: seq<FrameId>) returns (path: seq<FrameId>)
    requires IsWaitPath(s, rest) && WaitsFor(s, f, rest[0])
    ensures path == [f] + rest && IsWaitPath(s, path)
  {
    path := [f] + rest;
    forall k | 0 < k < |path| ensures WaitsFor(s, path[k - 1], path[k]) {
      if k > 1 { assert WaitsFor(s, rest[k - 2], rest[k - 1]); }
    }
  }

  /** As long as a frame is left, the environment still owes a completion or a queue an entry. */
  lemma FrameLeftMeansWorkLeft(s: State, f: FrameId) returns (leaf: FrameId, n: nat)
    requires Idle(s) && f in s.heap
    ensures s.tags[leaf] > 0 || leaf in Queue(s, n)
  {
    var g := LiveHolder(s, f);
    var path := WaitsForSomethingReal(s, g);
    leaf := path[|path| - 1];
    assert FrameOk(s, leaf);
    n := s.heap[leaf].home.id;
    assert s.tags[leaf] == if InOperation(s, leaf) then 1 else 0;
    assert Queued(s, n, leaf) == if ReadyOn(s, n, leaf) then 1 else 0;
  }

  /** A run is at rest exactly when it has destroyed every frame it made. */
  lemma RestIsEmpty(s: State)
    requires Idle(s)
    ensures s.heap == map[] <==> s.tags == multiset{} && forall n: nat :: Queue(s, n) == []
  {
    if s.heap == map[] {
      forall f ensures s.tags[f] == 0 {}
      forall n: nat ensures Queue(s, n) == [] {
        if Queue(s, n) != [] { SourceSays(s, Queue(s, n)[0], Entry(n, 0)); }
      }
    } else {
      var f :| f in s.heap;
      var leaf, n := FrameLeftMeansWorkLeft(s, f);
    }
  }

  /** A frame that is alive: f itself, or the one whose variable or awaitable holds f. */
  lemma LiveHolder(s: State, f: FrameId) returns (g: FrameId)
    requires Idle(s) && f in s.heap
    ensures Alive(s, g)
  {
    g := f;
    if !Alive(s, f) {
      assert FrameOk(s, f) && OwnerOk(s, f) && ActiveOk(s, f);
      g := s.heap[f].owner.frame;
      assert FrameOk(s, g) && ActiveOk(s, g);
    }
  }

  // ---- what a finished task computed ----

  /** For every program, every schedule and all answers, a finished task holds the value that direct
      recursive evaluation of its body gives. */
  lemma FinishedTaskHasItsValue(answers: Answers, events: seq<Event>, t: State, f: FrameId)
    requires IsAnsweredRun(answers, EMPTY, events, t)
    requires f in t.heap && t.heap[f].role.Program? && t.heap[f].point.Final?
    ensures t.heap[f].point.result == Eval(answers, t.heap[f].role.body, [], map[])
  {
    EmptyIsGood(answers);
    RunMeans(answers, EMPTY, events, t);
    assert MeansOk(answers, t, f);
  }

  // ---- queue order ----

  /** The job that MarkReady gets for executor n in this event, if any. */
  ghost function Marked(s: State, e: Event, n: nat): seq<FrameId> {
    match e
    case SpawnRoot(on, _) => if on == Game(n) then [s.next] else []
    case Internal =>
      if s.stack == [] || !Top(s).Body? || Top(s).frame !in s.heap then []
      else MarkedByBody(s, s.heap[Top(s).frame], n)
    case _ => []
  }

  ghost function MarkedByBody(s: State, fr: Frame, n: nat): seq<FrameId> {
    match fr.code
    case Cross(on, _, _) => if on == Game(n) then [s.next] else []
    case Detach(on, slot, _) => if on == Game(n) && slot in fr.slots then [fr.slots[slot]] else []
    case HandBack(p) => if p in s.heap && s.heap[p].executor == Some(Game(n)) then [p] else []
    case _ => []
  }

  ghost predicate IsFifoStep(s: State, e: Event, t: State, n: nat) {
    if e == NextReady(n) then
      && n in s.updating && s.updating[n] != []
      && (var f := s.updating[n][0]; Queue(s, n) == [f] + Queue(t, n) && t.stack == [Resumer(f), Body(f)])
    else Queue(t, n) == Queue(s, n) + Marked(s, e, n)
  }

  /** Update's loop resumes the oldest job; every other event leaves the jobs in place, and MarkReady
      puts its job last. The batch that Update swaps out does not disturb the order. */
  lemma QueueIsFifo(s: State, e: Event, n: nat)
    requires Inv(s) && Enabled(s, e) && Apply(s, e).Next?
    ensures IsFifoStep(s, e, Apply(s, e).state, n)
  {
    var t := Apply(s, e).state;
    match e
    case Internal => StepIsFifo(s, n);
    case SpawnRoot(on, body) => RootIsFifo(s, on, body, n);
    case NextReady(m) => NextIsFifo(s, m, n);
    case _ => LoopIsFifo(s, e, n);
  }

  lemma LoopIsFifo(s: State, e: Event, n: nat)
    requires Enabled(s, e) && Apply(s, e).Next? && !e.Internal? && !e.SpawnRoot? && !e.NextReady?
    ensures IsFifoStep(s, e, Apply(s, e).state, n)
  {
  }

  lemma RootIsFifo(s: State, on: Executor, body: Code, n: nat)
    requires Enabled(s, SpawnRoot(on, body)) && Apply(s, SpawnRoot(on, body)).Next?
    ensures IsFifoStep(s, SpawnRoot(on, body), Apply(s, SpawnRoot(on, body)).state, n)
  {
    var root := NewTask(body, on, Detached).(executor := Some(on), destroyOnDone := true);
    var u := s.(heap := s.heap[s.next := root], next := s.next + 1);
    SpawnAppends(u, on, s.next, n);
    assert Queue(u, n) == Queue(s, n);
  }

  lemma NextIsFifo(s: State, m: nat, n: nat)
    requires Enabled(s, NextReady(m)) && Apply(s, NextReady(m)).Next?
    ensures IsFifoStep(s, NextReady(m), Apply(s, NextReady(m)).state, n)
  {
    var t := Apply(s, NextReady(m)).state;
    if m == n { assert Queue(s, n) == [s.updating[n][0]] + Queue(t, n); }
  }

  lemma CallKeepsQueues(s: State, t: State)
    requires s.stack != [] && !Top(s).Body? && Step(s) == Next(t)
    ensures t.ready == s.ready && t.updating == s.updating
  {
  }

  predicate Spawns(code: Code) {
    code.Cross? || code.Detach? || code.HandBack?
  }

  lemma BodyKeepsQueues(s: State, f: FrameId, t: State)
    requires IsRunning(s, f) && !Spawns(s.heap[f].code) && StepBody(s, f) == Next(t)
    ensures t.ready == s.ready && t.updating == s.updating
  {
    match s.heap[f].code
    case Launch(p) => assert StepBody(s, f) == StepLaunch(s, f, p);
    case Await(slot, next) => assert StepBody(s, f) == StepAwait(s, f, slot, next);
    case _ =>
  }

  lemma StepIsFifo(s: State, n: nat)
    requires Inv(s) && s.stack != [] && Step(s).Next?
    ensures Queue(Step(s).state, n) == Queue(s, n) + Marked(s, Internal, n)
  {
    hide Queue, Inv, StepBody, StepResumer, StepAwaiter, StepStarter;
    if Top(s).Body? {
      BodyIsFifo(s, Top(s).frame, n);
    } else {
      CallIsFifo(s, n);
    }
  }

  lemma CallIsFifo(s: State, n: nat)
    requires s.stack != [] && !Top(s).Body? && Step(s).Next?
    ensures Queue(Step(s).state, n) == Queue(s, n) + Marked(s, Internal, n)
  {
    hide Step;
    CallKeepsQueues(s, Step(s).state);
  }

  lemma BodyIsFifo(s: State, f: FrameId, n: nat)
    requires At(s, f) && Step(s).Next?
    ensures Queue(Step(s).state, n) == Queue(s, n) + Marked(s, Internal, n)
  {
    hide Inv, Queue, Step, StepBody;
    RunsOnTop(s, f);
    if Spawns(s.heap[f].code) {
      SpawnIsFifo(s, f, n);
    } else {
      BodyKeepsQueues(s, f, Step(s).state);
      SameQueues(s, Step(s).state, n);
    }
  }

  lemma RunsOnTop(s: State, f: FrameId)
    requires At(s, f)
    ensures IsRunning(s, f) && Step(s) == StepBody(s, f)
  {
    Here(s, f);
  }

  lemma SameQueues(s: State, t: State, n: nat)
    requires t.ready == s.ready && t.updating == s.updating
    ensures Queue(t, n) == Queue(s, n)
  {
  }

  lemma SpawnIsFifo(s: State, f: FrameId, n: nat)
    requires Inv(s) && IsRunning(s, f) && Top(s) == Body(f) && Spawns(s.heap[f].code) && Step(s).Next?
    ensures Queue(Step(s).state, n) == Queue(s, n) + Marked(s, Internal, n)
  {
    match s.heap[f].code
    case Cross(_, _, _) => CrossIsFifo(s, f, n);
    case Detach(_, _, _) => DetachIsFifo(s, f, n);
    case _ => HandBackIsFifo(s, f, n);
  }

  /** Spawn puts the job last on its executor's queue, or on none. */
  lemma SpawnAppends(s: State, on: Executor, x: FrameId, n: nat)
    requires SpawnOn(s, on, x).Next?
    ensures Queue(SpawnOn(s, on, x).state, n) == Queue(s, n) + if on == Game(n) then [x] else []
  {
    if on == Game(n) {
      assert Queue(SpawnOn(s, on, x).state, n) == Queue(s, n) + [x];
    }
  }

  lemma CrossIsFifo(s: State, f: FrameId, n: nat)
    requires IsRunning(s, f) && Top(s) == Body(f) && s.heap[f].code.Cross? && Step(s).Next?
    ensures Queue(Step(s).state, n) == Queue(s, n) + Marked(s, Internal, n)
  {
    var Cross(on, slot, next) := s.heap[f].code;
    var u := WithLauncher(s, f, on, slot, next);
    assert Step(s) == SpawnOn(u, on, s.next);
    SpawnAppends(u, on, s.next, n);
    assert Queue(u, n) == Queue(s, n);
  }

  lemma DetachIsFifo(s: State, f: FrameId, n: nat)
    requires IsRunning(s, f) && Top(s) == Body(f) && s.heap[f].code.Detach? && Step(s).Next?
    ensures Queue(Step(s).state, n) == Queue(s, n) + Marked(s, Internal, n)
  {
    var Detach(on, slot, next) := s.heap[f].code;
    var fr, c := s.heap[f], s.heap[f].slots[slot];
    var u := s.(heap := s.heap[f := fr.(code := next, slots := fr.slots - {slot}, types := fr.types - {slot})]
                              [c := s.heap[c].(executor := Some(on), destroyOnDone := true, owner := Detached)]);
    assert Step(s) == SpawnOn(u, on, c);
    SpawnAppends(u, on, c, n);
    assert Queue(u, n) == Queue(s, n);
  }

  lemma HandBackIsFifo(s: State, f: FrameId, n: nat)
    requires Inv(s) && IsRunning(s, f) && Top(s) == Body(f) && s.heap[f].code.HandBack? && Step(s).Next?
    ensures Queue(Step(s).state, n) == Queue(s, n) + Marked(s, Internal, n)
  {
    var p := s.heap[f].code.waiter;
    var t := Step(s).state;
    assert Step(s) == StepHandBack(s, f, p);
    if s.heap[p].executor == Some(Game(n)) {
      assert Queue(t, n) == Queue(s, n) + [p];
    }
  }

  ghost function Marks(s: State, events: seq<Event>, n: nat): seq<FrameId>
    decreases |events|
  {
    if events == [] || !Enabled(s, events[0]) || Apply(s, events[0]).Fault? then []
    else Marked(s, events[0], n) + Marks(Apply(s, events[0]).state, events[1..], n)
  }

  ghost function Resumed(s: State, events: seq<Event>, n: nat): seq<FrameId>
    decreases |events|
  {
    if events == [] || !Enabled(s, events[0]) || Apply(s, events[0]).Fault? then []
    else
      (if events[0] == NextReady(n) then [s.updating[n][0]] else [])
      + Resumed(Apply(s, events[0]).state, events[1..], n)
  }

  /** Batch Update refines a plain first-in first-out queue: over a whole run, under any interleaving
      of pushes from outside and from the jobs themselves, executor n resumes jobs in the order in
      which MarkReady got them, and what it has not resumed is what is still queued. */
  lemma {:induction false} RunIsFifo(s: State, events: seq<Event>, t: State, n: nat)
    requires Inv(s) && IsRun(s, events, t)
    ensures Queue(s, n) + Marks(s, events, n) == Resumed(s, events, n) + Queue(t, n)
    decreases |events|
  {
    if events != [] {
      ApplyKeepsInv(s, events[0]);
      QueueIsFifo(s, events[0], n);
      RunIsFifo(Apply(s, events[0]).state, events[1..], t, n);
      FifoFirst(s, events, Apply(s, events[0]).state, t, n);
    }
  }

  lemma FifoFirst(s: State, events: seq<Event>, u: State, t: State, n: nat)
    requires events != [] && Enabled(s, events[0]) && Apply(s, events[0]) == Next(u)
    requires IsFifoStep(s, events[0], u, n)
    requires Queue(u, n) + Marks(u, events[1..], n) == Resumed(u, events[1..], n) + Queue(t, n)
    ensures Queue(s, n) + Marks(s, events, n) == Resumed(s, events, n) + Queue(t, n)
  {
    hide Apply, Queue;
    var e, later, resumed := events[0], Marks(u, events[1..], n), Resumed(u, events[1..], n);
    assert Marks(s, events, n) == Marked(s, e, n) + later;
    if e == NextReady(n) {
      HeadFirst(Queue(s, n), [s.updating[n][0]], Queue(u, n), later, resumed, Queue(t, n));
    } else {
      assert Resumed(s, events, n) == resumed;
      TailLast(Queue(s, n), Marked(s, e, n), Queue(u, n), later);
    }
  }

  lemma HeadFirst(q: seq<FrameId>, head: seq<FrameId>, u: seq<FrameId>, later: seq<FrameId>,
                  resumed: seq<FrameId>, rest: seq<FrameId>)
    requires q == head + u && u + later == resumed + rest
    ensures q + ([] + later) == head + resumed + rest
  {
    assert q + ([] + later) == head + (u + later);
    assert head + (resumed + rest) == head + resumed + rest;
  }

  lemma TailLast(q: seq<FrameId>, mark: seq<FrameId>, u: seq<FrameId>, later: seq<FrameId>)
    requires u == q + mark
    ensures q + (mark + later) == u + later
  {
  }

  // ---- subroutines ----

  /** The body of f on top of the stack is about to start the task c as a subroutine. */
  ghost predicate StartsTask(s: State, f: FrameId, c: FrameId) {
    && s.stack != [] && Top(s) == Body(f) && f in s.heap && s.heap[f].code.Start?
    && s.heap[f].code.slot in s.heap[f].slots && s.heap[f].slots[s.heap[f].code.slot] == c
  }

  /** The subroutine runs at once, on its parent's executor and on top of it. */
  lemma StartEnters(s: State, f: FrameId, c: FrameId)
    requires Inv(s) && StartsTask(s, f, c)
    ensures c in s.heap && s.heap[c].point.Initial? && Step(s).Next?
    ensures var t := Step(s).state;
      && c in t.heap && t.heap[c].point.Running? && f in t.heap && t.heap[c].executor == s.heap[f].executor
      && t.stack == Pop(s.stack) + [Starter(f, c), Body(c)]
  {
    StepKeepsInv(s);
    Here(s, f);
    InVariable(s, f, s.heap[f].code.slot);
    TaskAside(s, c);
  }

  lemma EventKeepsEntered(s: State, e: Event, t: State, c: FrameId)
    requires Inv(s) && Enabled(s, e) && Apply(s, e) == Next(t)
    requires c < s.next && (c in s.heap ==> !s.heap[c].point.Initial?)
    ensures c < t.next && (c in t.heap ==> !t.heap[c].point.Initial?)
  {
    hide Inv;
    match e
    case Internal => EnteredStep(s, t, c);
    case SpawnRoot(on, body) => EnteredRoot(s, on, body, t, c);
    case NextReady(n) => EnteredNext(s, n, t, c);
    case _ =>
  }

  lemma EnteredStep(s: State, t: State, c: FrameId)
    requires Inv(s) && s.stack != [] && Step(s) == Next(t)
    requires c < s.next && (c in s.heap ==> !s.heap[c].point.Initial?)
    ensures c < t.next && (c in t.heap ==> !t.heap[c].point.Initial?)
  {
    hide Inv, Step;
    StepKeepsKind(s, t, c);
  }

  lemma EnteredRoot(s: State, on: Executor, body: Code, t: State, c: FrameId)
    requires Inv(s) && Enabled(s, SpawnRoot(on, body)) && Apply(s, SpawnRoot(on, body)) == Next(t)
    requires c < s.next && (c in s.heap ==> !s.heap[c].point.Initial?)
    ensures c < t.next && (c in t.heap ==> !t.heap[c].point.Initial?)
  {
    hide Apply;
    NextIsFree(s);
    var u := SpawnRootDoes(s, on, body);
    Look(s, t, {s.next}, c);
  }

  lemma EnteredNext(s: State, n: nat, t: State, c: FrameId)
    requires Inv(s) && Enabled(s, NextReady(n)) && Apply(s, NextReady(n)) == Next(t)
    requires c < s.next && (c in s.heap ==> !s.heap[c].point.Initial?)
    ensures c < t.next && (c in t.heap ==> !t.heap[c].point.Initial?)
  {
    hide Apply;
    NextReadyHead(s, n);
    var u := NextReadyDoes(s, n);
    Look(s, t, {s.updating[n][0]}, c);
  }

  lemma {:induction false} StaysEntered(s: State, events: seq<Event>, t: State, c: FrameId)
    requires Inv(s) && IsRun(s, events, t) && c < s.next && (c in s.heap ==> !s.heap[c].point.Initial?)
    ensures c in t.heap ==> !t.heap[c].point.Initial?
    decreases |events|
  {
    if events != [] {
      ApplyKeepsInv(s, events[0]);
      EventKeepsEntered(s, events[0], Apply(s, events[0]).state, c);
      StaysEntered(Apply(s, events[0]).state, events[1..], t, c);
    }
  }

  /** Once a Start is done, its task has been entered: it is never met fresh again, whether or not anybody
      awaits it. */
  lemma StartedIsEntered(before: seq<Event>, s: State, f: FrameId, c: FrameId, events: seq<Event>, t: State)
    requires IsRun(EMPTY, before, s) && StartsTask(s, f, c) && IsRun(s, events, t) && events != []
    ensures c in t.heap ==> !t.heap[c].point.Initial?
  {
    EmptyIsGood(_ => true);
    RunKeepsInv(EMPTY, before, s);
    StartEnters(s, f, c);
    StepKeepsInv(s);
    var u := Step(s).state;
    assert events[0] == Internal;
    CoreNext(u, c);
    StaysEntered(u, events[1..], t, c);
  }

  lemma CoreNext(s: State, c: FrameId)
    requires Inv(s) && c in s.heap
    ensures c < s.next
  {
    assert FrameOk(s, c);
  }

  // ---- destruction ----

  /** Only a finished task is destroyed, and its frame never comes back. */
  ghost predicate DestroysWell(s: State, t: State) {
    && s.next <= t.next
    && forall f: FrameId | f < s.next ::
         (f in s.heap && f !in t.heap ==> s.heap[f].point.Final?) && (f !in s.heap ==> f !in t.heap)
  }

  lemma DestroyedOnce(s: State, e: Event)
    requires Inv(s) && Enabled(s, e) && Apply(s, e).Next?
    ensures DestroysWell(s, Apply(s, e).state)
  {
    var t := Apply(s, e).state;
    match e
    case Internal => StepDestroys(s, t);
    case NextReady(n) => NextReadyDestroys(s, n, t);
    case SpawnRoot(on, body) => RootDestroys(s, on, body, t);
    case Tick(f, ok) => TickDestroys(s, f, ok, t);
    case _ => LoopDestroys(s, e);
  }

  lemma LoopDestroys(s: State, e: Event)
    requires s.stack == [] && Enabled(s, e) && (e.BeginUpdate? || e.SwapReady? || e.EndUpdate?)
    ensures Apply(s, e).Next? && DestroysWell(s, Apply(s, e).state)
  {
    var t := UpdateLoopDoes(s, e);
  }

  lemma RootDestroys(s: State, on: Executor, body: Code, t: State)
    requires Inv(s) && Enabled(s, SpawnRoot(on, body)) && Apply(s, SpawnRoot(on, body)) == Next(t)
    ensures DestroysWell(s, t)
  {
    NextIsFree(s);
    var u := SpawnRootDoes(s, on, body);
    forall f: FrameId | f < s.next ensures f in s.heap <==> f in t.heap { Look(s, t, {s.next}, f); }
  }

  lemma TickDestroys(s: State, f: FrameId, ok: bool, t: State)
    requires Enabled(s, Tick(f, ok)) && Apply(s, Tick(f, ok)) == Next(t)
    ensures DestroysWell(s, t)
  {
  }

  lemma StepDestroys(s: State, t: State)
    requires Inv(s) && s.stack != [] && Step(s) == Next(t)
    ensures DestroysWell(s, t)
  {
    hide Inv, Step;
    StepKeepsKind(s, t, 0);
    forall f: FrameId | f < s.next
      ensures (f in s.heap && f !in t.heap ==> s.heap[f].point.Final?) && (f !in s.heap ==> f !in t.heap)
    {
      StepKeepsKind(s, t, f);
    }
  }

  lemma NextReadyDestroys(s: State, n: nat, t: State)
    requires Inv(s) && Enabled(s, NextReady(n)) && Apply(s, NextReady(n)) == Next(t)
    ensures DestroysWell(s, t)
  {
    hide Apply;
    NextReadyHead(s, n);
    var u := NextReadyDoes(s, n);
    forall f: FrameId ensures f in s.heap <==> f in t.heap { Look(s, t, {s.updating[n][0]}, f); }
  }

  lemma {:induction false} DestroyedForGood(s: State, events: seq<Event>, t: State, f: FrameId)
    requires Inv(s) && IsRun(s, events, t) && f < s.next && f !in s.heap
    ensures f !in t.heap
    decreases |events|
  {
    if events != [] {
      ApplyKeepsInv(s, events[0]);
      DestroyedOnce(s, events[0]);
      DestroyedForGood(Apply(s, events[0]).state, events[1..], t, f);
    }
  }
}
