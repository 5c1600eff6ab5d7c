/** The runtime as a transition system.

    `State` is the heap of coroutine frames, the game executors' queues, the completion queues'
    outstanding tags and the native call stack of the segment that is running. `Step` executes the
    segment; `Apply` also covers what the world outside may do between two segments. A step that
    would use a destroyed frame or fail an assertion of the library answers `Fault`. */
module Machine {
  import opened Programs

  /** Where a frame's body stands. Each suspended case is the awaitable alive in the frame. */
  datatype Point =
    | Initial
    | AtTask(child: FrameId)
    | AtStart(slot: nat, child: FrameId)
    | AtOperation(key: nat, ok: bool)
    | AtCross(on: Executor, body: Code, launcher: FrameId, held: Option<FrameId>, delivered: Option<Value>)
    | Running
    | Final(result: Value)

  /** The places of a frame that can hold a promise: its Task variables and its awaitable. */
  datatype Place = Slot(slot: nat) | Awaiting | Starting | Crossing

  datatype Owner = Detached | HeldBy(frame: FrameId, place: Place)

  /** A user task, or LaunchChild delivering the task `body` to the frame `waiter`. */
  datatype Role = Program(body: Code) | Launcher(waiter: FrameId, body: Code)

  /** A coroutine frame with its promise. The fields `role`, `home`, `owner` and `types` and the
      destructors `body` and `launcher` of AtCross are bookkeeping: no step decides on them. */
  datatype Frame = Frame(
    role: Role,
    home: Executor,
    owner: Owner,
    types: map<nat, SlotType>,
    code: Code,
    vals: seq<Value>,
    slots: map<nat, FrameId>,
    point: Point,
    parent: Option<FrameId>,
    executor: Option<Executor>,
    destroyOnDone: bool)

  /** One native call in progress. */
  datatype Activation =
    | Body(frame: FrameId)                          // the coroutine body itself
    | Resumer(target: FrameId)                      // async_lib::Resume
    | Awaiter(host: FrameId, child: FrameId)        // TaskAwait::await_suspend
    | Starter(host: FrameId, child: FrameId)        // StartSubroutine::await_suspend

  /** `young` is bookkeeping too: the frames entered for the first time in the running segment, with
      what `First` says of them. */
  datatype State = State(
    heap: map<FrameId, Frame>,
    next: FrameId,
    ready: map<nat, seq<FrameId>>,
    updating: map<nat, seq<FrameId>>,
    tags: multiset<FrameId>,
    stack: seq<Activation>,
    young: map<FrameId, Option<Value>>)

  datatype Outcome = Fault | Next(state: State)

  const EMPTY := State(map[], 0, map[], map[], multiset{}, [], map[])

  // ---- queues ----

  function Get(queues: map<nat, seq<FrameId>>, n: nat): seq<FrameId> {
    if n in queues then queues[n] else []
  }

  /** What executor n still has to resume: the rest of the batch in hand, then m_ready. */
  function Queue(s: State, n: nat): seq<FrameId> {
    Get(s.updating, n) + Get(s.ready, n)
  }

  function MarkReady(s: State, n: nat, f: FrameId): State {
    s.(ready := s.ready[n := Get(s.ready, n) + [f]])
  }

  // ---- frames ----

  function NewTask(body: Code, on: Executor, owner: Owner): Frame {
    Frame(Program(body), on, owner, map[], body, [], map[], Initial, None, None, false)
  }

  function NewLauncher(waiter: FrameId, body: Code, on: Executor): Frame {
    Frame(Launcher(waiter, body), on, Detached, map[], Launch(waiter), [], map[], Initial, None, Some(on), true)
  }

  function Pop(stack: seq<Activation>): seq<Activation>
    requires stack != []
  {
    stack[..|stack| - 1]
  }

  /** handle.resume(): the pending await_resume, then the body. The caller pushed itself. */
  function Enter(s: State, f: FrameId): Outcome {
    if f !in s.heap then Fault else
    var fr := s.heap[f];
    var run := fr.(point := Running);
    var go := s.(stack := s.stack + [Body(f)]);
    match fr.point
    case Initial => Next(go.(heap := s.heap[f := run], young := s.young[f := FirstOf(fr.code, fr.home)]))
    case AtTask(c) =>
      if c in s.heap && s.heap[c].point.Final? && c != f then
        Next(go.(heap := s.heap[f := run.(vals := fr.vals + [s.heap[c].point.result])] - {c}))
      else Fault
    case AtStart(slot, c) =>
      if c in s.heap && c != f && slot !in fr.slots then
        Next(go.(heap := s.heap[f := run.(slots := fr.slots[slot := c])]
                               [c := s.heap[c].(owner := HeldBy(f, Slot(slot)))]))
      else Fault
    case AtOperation(_, ok) => Next(go.(heap := s.heap[f := run.(vals := fr.vals + [Flag(ok)])]))
    case AtCross(_, _, _, _, delivered) =>
      if delivered.Some? then Next(go.(heap := s.heap[f := run.(vals := fr.vals + [delivered.value])]))
      else Fault
    case Running => Fault
    case Final(_) => Fault
  }

  /** async_lib::Resume up to the point where the body runs. */
  function Resume(s: State, f: FrameId): Outcome {
    Enter(s.(stack := s.stack + [Resumer(f)]), f)
  }

  /** executor.Spawn(job). */
  function SpawnOn(s: State, on: Executor, f: FrameId): Outcome {
    match on
    case Game(n) => Next(MarkReady(s, n, f))
    case CompletionQueue(_) => Resume(s, f)
  }

  // ---- one step of the running segment ----

  /** The body may use the task in its variable `slot`. */
  predicate CanUse(s: State, f: FrameId, slot: nat)
    requires f in s.heap
  {
    slot in s.heap[f].slots && s.heap[f].slots[slot] in s.heap && s.heap[f].slots[slot] != f
  }

  predicate IsRunning(s: State, f: FrameId) {
    s.stack != [] && f in s.heap && s.heap[f].point.Running? && s.heap[f].executor.Some?
  }

  function StepReturn(s: State, f: FrameId, result: seq<Value> -> Value): Outcome
    requires IsRunning(s, f)
  {
    var fr := s.heap[f];
    if fr.slots != map[] then Fault
    else Next(s.(heap := s.heap[f := fr.(point := Final(result(fr.vals)))], stack := Pop(s.stack)))
  }

  function StepMake(s: State, f: FrameId, slot: nat, on: Executor, body: Code, next: Code): Outcome
    requires IsRunning(s, f)
  {
    var fr := s.heap[f];
    if slot in fr.slots then Fault
    else Next(s.(heap := s.heap[f := fr.(code := next, slots := fr.slots[slot := s.next],
                                         types := fr.types[slot := FreshTask(body, on)])]
                               [s.next := NewTask(body, on, HeldBy(f, Slot(slot)))],
                 next := s.next + 1))
  }

  function StepAwait(s: State, f: FrameId, slot: nat, next: Code): Outcome
    requires IsRunning(s, f)
  {
    var fr := s.heap[f];
    if !CanUse(s, f, slot) then Fault
    else AwaitTask(s, f, fr.(code := next, slots := fr.slots - {slot}, types := fr.types - {slot}), fr.slots[slot])
  }

  function StepStart(s: State, f: FrameId, slot: nat, next: Code): Outcome
    requires IsRunning(s, f)
  {
    var fr := s.heap[f];
    if !CanUse(s, f, slot) then Fault else
    var c := fr.slots[slot];
    if !s.heap[c].point.Initial? then Fault
    else Next(s.(heap := s.heap[f := fr.(code := next, slots := fr.slots - {slot}, types := fr.types[slot := Started],
                                         point := AtStart(slot, c))]
                               [c := s.heap[c].(executor := fr.executor, point := Running,
                                                owner := HeldBy(f, Starting))],
                 stack := Pop(s.stack) + [Starter(f, c), Body(c)],
                 young := s.young[c := FirstOf(s.heap[c].code, s.heap[c].home)]))
  }

  function StepOperation(s: State, f: FrameId, key: nat, next: Code): Outcome
    requires IsRunning(s, f)
  {
    var fr := s.heap[f];
    if fr.executor.value.Game? then Fault
    else Next(s.(heap := s.heap[f := fr.(code := next, point := AtOperation(key, false))],
                 tags := s.tags + multiset{f},
                 stack := Pop(s.stack)))
  }

  /** The frames once SpawnCrossTask::await_suspend has made its LaunchChild. */
  function WithLauncher(s: State, f: FrameId, on: Executor, slot: nat, next: Code): State
    requires IsRunning(s, f) && CanUse(s, f, slot)
  {
    var fr := s.heap[f];
    var c := fr.slots[slot];
    var body := s.heap[c].role.body;
    var waiting := fr.(code := next, slots := fr.slots - {slot}, types := fr.types - {slot},
                       point := AtCross(on, body, s.next, Some(c), None));
    s.(heap := s.heap[f := waiting]
                     [c := s.heap[c].(owner := HeldBy(f, Crossing))]
                     [s.next := NewLauncher(f, body, on)],
       next := s.next + 1,
       stack := Pop(s.stack))
  }

  function StepCross(s: State, f: FrameId, on: Executor, slot: nat, next: Code): Outcome
    requires IsRunning(s, f)
  {
    if !CanUse(s, f, slot) || s.heap[f].executor.value == on then Fault
    else SpawnOn(WithLauncher(s, f, on, slot, next), on, s.next)
  }

  function StepDetach(s: State, f: FrameId, on: Executor, slot: nat, next: Code): Outcome
    requires IsRunning(s, f)
  {
    var fr := s.heap[f];
    if !CanUse(s, f, slot) then Fault else
    var c := fr.slots[slot];
    SpawnOn(s.(heap := s.heap[f := fr.(code := next, slots := fr.slots - {slot}, types := fr.types - {slot})]
                             [c := s.heap[c].(executor := Some(on), destroyOnDone := true, owner := Detached)]),
            on, c)
  }

  /** LaunchChild awaits the task its waiter's awaitable holds. */
  function StepLaunch(s: State, f: FrameId, p: FrameId): Outcome
    requires IsRunning(s, f)
  {
    if p !in s.heap || p == f || !s.heap[p].point.AtCross? || s.heap[p].point.held.None? then Fault else
    var c := s.heap[p].point.held.value;
    if c !in s.heap || c == f || c == p then Fault
    else AwaitTask(s.(heap := s.heap[p := s.heap[p].(point := s.heap[p].point.(held := None))]),
                   f, s.heap[f].(code := HandBack(p)), c)
  }

  /** LaunchChild stores the result in the awaitable and re-spawns the waiter on its own executor. */
  function StepHandBack(s: State, f: FrameId, p: FrameId): Outcome
    requires IsRunning(s, f)
  {
    var fr := s.heap[f];
    if p !in s.heap || p == f || !s.heap[p].point.AtCross? || fr.vals == [] || s.heap[p].executor.None? then Fault
    else SpawnOn(s.(heap := s.heap[f := fr.(code := Return(_ => Unit))]
                                  [p := s.heap[p].(point :=
                                     s.heap[p].point.(delivered := Some(fr.vals[|fr.vals| - 1])))]),
                 s.heap[p].executor.value, p)
  }

  function StepBody(s: State, f: FrameId): Outcome
    requires s.stack != []
  {
    if !IsRunning(s, f) then Fault else
    match s.heap[f].code
    case Return(result) => StepReturn(s, f, result)
    case Branch(test, yes, no) =>
      Next(s.(heap := s.heap[f := s.heap[f].(code := if test(s.heap[f].vals) then yes else no)]))
    case Make(slot, on, body, next) => StepMake(s, f, slot, on, body, next)
    case Await(slot, next) => StepAwait(s, f, slot, next)
    case Start(slot, next) => StepStart(s, f, slot, next)
    case Operation(key, next) => StepOperation(s, f, key, next)
    case Cross(on, slot, next) => StepCross(s, f, on, slot, next)
    case Detach(on, slot, next) => StepDetach(s, f, on, slot, next)
    case Launch(p) => StepLaunch(s, f, p)
    case HandBack(p) => StepHandBack(s, f, p)
  }

  /** co_await of the task c by f, whose frame is `fr` once the task has left its variable. */
  function AwaitTask(s: State, f: FrameId, fr: Frame, c: FrameId): Outcome
    requires s.stack != [] && c in s.heap && c != f
  {
    var child := s.heap[c];
    // await_ready
    if child.point.Final? then
      Next(s.(heap := s.heap[f := fr.(vals := fr.vals + [child.point.result])] - {c}))
    // await_suspend, the task has not been started
    else if child.executor.None? then
      if !child.point.Initial? then Fault else
      Next(s.(heap := s.heap[f := fr.(point := AtTask(c))]
                            [c := child.(parent := Some(f), executor := fr.executor, point := Running,
                                         owner := HeldBy(f, Awaiting))],
              stack := Pop(s.stack) + [Awaiter(f, c), Body(c)],
              young := s.young[c := FirstOf(child.code, child.home)]))
    // await_suspend, the task was started before
    else if child.executor != fr.executor then Fault
    else Next(s.(heap := s.heap[f := fr.(point := AtTask(c))]
                               [c := child.(parent := Some(f), owner := HeldBy(f, Awaiting))],
                 stack := Pop(s.stack)))
  }

  /** The rest of async_lib::Resume once handle.resume() came back. */
  function StepResumer(s: State, f: FrameId): Outcome
    requires s.stack != []
  {
    if f !in s.heap || s.heap[f].point.Running? then Fault else
    var fr := s.heap[f];
    var popped := s.(stack := Pop(s.stack));
    if !fr.point.Final? then Next(popped) else
    var swept := if fr.destroyOnDone then popped.(heap := s.heap - {f}) else popped;
    if fr.parent.Some? then Resume(swept, fr.parent.value) else Next(swept)
  }

  /** The rest of TaskAwait::await_suspend: false lets the awaiting body go on at once. */
  function StepAwaiter(s: State, p: FrameId, c: FrameId): Outcome
    requires s.stack != []
  {
    if p !in s.heap || c !in s.heap || s.heap[c].point.Running? then Fault
    else if s.heap[c].point.Final? then Enter(s.(stack := Pop(s.stack)), p)
    else Next(s.(stack := Pop(s.stack)))
  }

  /** The rest of StartSubroutine::await_suspend: always false. */
  function StepStarter(s: State, p: FrameId, c: FrameId): Outcome
    requires s.stack != []
  {
    if p !in s.heap || c !in s.heap || s.heap[c].point.Running? then Fault
    else Enter(s.(stack := Pop(s.stack)), p)
  }

  function Top(s: State): Activation
    requires s.stack != []
  {
    s.stack[|s.stack| - 1]
  }

  function Step(s: State): Outcome
    requires s.stack != []
  {
    match Top(s)
    case Body(f) => StepBody(s, f)
    case Resumer(f) => StepResumer(s, f)
    case Awaiter(p, c) => StepAwaiter(s, p, c)
    case Starter(p, c) => StepStarter(s, p, c)
  }

  // ---- the world between two segments ----

  datatype Event =
    | Internal                                 // the running segment goes on
    | SpawnRoot(on: Executor, body: Code)      // async_lib::Spawn from outside any task
    | Tick(frame: FrameId, ok: bool)           // a completion is delivered
    | BeginUpdate(n: nat)                      // Executor::Update is called
    | SwapReady(n: nat)                        // its local vector takes m_ready
    | NextReady(n: nat)                        // its loop resumes one job
    | EndUpdate(n: nat)                        // it found m_ready empty

  predicate Enabled(s: State, e: Event) {
    match e
    case Internal => s.stack != []
    case SpawnRoot(on, body) => s.stack == [] && WellFormed(body, on, map[])
    case Tick(f, _) => s.stack == [] && f in s.tags
    case BeginUpdate(n) => s.stack == [] && n !in s.updating
    case SwapReady(n) => s.stack == [] && n in s.updating && s.updating[n] == [] && Get(s.ready, n) != []
    case NextReady(n) => s.stack == [] && n in s.updating && s.updating[n] != []
    case EndUpdate(n) => s.stack == [] && n in s.updating && s.updating[n] == [] && Get(s.ready, n) == []
  }

  function Apply(s: State, e: Event): Outcome
    requires Enabled(s, e)
  {
    if e.Internal? then Step(s) else Deliver(s.(young := map[]), e)
  }

  /** An event from outside. */
  function Deliver(s: State, e: Event): Outcome
    requires Enabled(s, e) && !e.Internal?
  {
    match e
    case SpawnRoot(on, body) =>
      var root := NewTask(body, on, Detached).(executor := Some(on), destroyOnDone := true);
      SpawnOn(s.(heap := s.heap[s.next := root], next := s.next + 1), on, s.next)
    case Tick(f, ok) =>
      if f !in s.heap || !s.heap[f].point.AtOperation? then Fault else
      Resume(s.(heap := s.heap[f := s.heap[f].(point := s.heap[f].point.(ok := ok))],
                tags := s.tags - multiset{f}), f)
    case BeginUpdate(n) => Next(s.(updating := s.updating[n := []]))
    case SwapReady(n) => Next(s.(updating := s.updating[n := Get(s.ready, n)], ready := s.ready[n := []]))
    case NextReady(n) => Resume(s.(updating := s.updating[n := s.updating[n][1..]]), s.updating[n][0])
    case EndUpdate(n) => Next(s.(updating := s.updating - {n}))
  }

  /** A finite run: every event is enabled where it happens. */
  ghost predicate IsRun(s: State, events: seq<Event>, t: State)
    decreases |events|
  {
    if events == [] then s == t
    else Enabled(s, events[0]) && Apply(s, events[0]).Next? && IsRun(Apply(s, events[0]).state, events[1..], t)
  }
}
