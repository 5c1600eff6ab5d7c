/** Task bodies as data.

    A coroutine of the library is a body that runs between suspension points. Here a body is a
    finite decision tree of the library's own operations: create a task, co_await it, start it as
    a subroutine, park on a completion queue, hand a task to another executor, spawn it detached.
    Tests and results are arbitrary functions of the values collected so far. */
module Programs {

  datatype Option<+T> = None | Some(value: T)

  datatype Value = Unit | Flag(ok: bool) | Num(n: int)

  /** A game executor queues what it is given; a completion-queue executor runs it at once. */
  datatype Executor = Game(id: nat) | CompletionQueue(id: nat)

  type FrameId = nat

  datatype Code =
    | Return(result: seq<Value> -> Value)
    | Branch(test: seq<Value> -> bool, yes: Code, no: Code)
    // slot = body(); the new task is meant for executor `on`
    | Make(slot: nat, on: Executor, body: Code, next: Code)
    // co_await std::move(slot)
    | Await(slot: nat, next: Code)
    // slot = co_await StartSubroutine(std::move(slot))
    | Start(slot: nat, next: Code)
    // co_await of a completion-queue operation; the environment answers `key`
    | Operation(key: nat, next: Code)
    // co_await SpawnCrossTask(on, std::move(slot))
    | Cross(on: Executor, slot: nat, next: Code)
    // async_lib::Spawn(on, std::move(slot))
    | Detach(on: Executor, slot: nat, next: Code)
    // the two halves of SpawnCrossTask::LaunchChild; never part of a user program
    | Launch(waiter: FrameId)
    | HandBack(waiter: FrameId)

  /** Instructions left to execute, counting the LaunchChild that a Cross brings along. */
  function Size(code: Code): (n: nat)
    ensures n >= 1
  {
    match code
    case Return(_) => 1
    case Branch(_, yes, no) => 1 + Size(yes) + Size(no)
    case Make(_, _, body, next) => 1 + Size(body) + Size(next)
    case Await(_, next) => 1 + Size(next)
    case Start(_, next) => 1 + Size(next)
    case Operation(_, next) => 1 + Size(next)
    case Cross(_, _, next) => 4 + Size(next)
    case Detach(_, _, next) => 1 + Size(next)
    case Launch(_) => 3
    case HandBack(_) => 2
  }

  /** What a body does in its first segment, before any operation has answered: it finishes with a
      value, or it parks (None). `tasks` says the same of the tasks in its variables. A cross-await
      parks, unless both executors are immediate: then the child runs and hands back at once. */
  function First(code: Code, on: Executor, vals: seq<Value>, tasks: map<nat, Option<Value>>): Option<Value> {
    match code
    case Return(result) => Some(result(vals))
    case Branch(test, yes, no) => if test(vals) then First(yes, on, vals, tasks) else First(no, on, vals, tasks)
    case Make(slot, to, body, next) => First(next, on, vals, tasks[slot := First(body, to, [], map[])])
    case Await(slot, next) =>
      if slot in tasks && tasks[slot].Some? then First(next, on, vals + [tasks[slot].value], tasks - {slot}) else None
    case Start(_, next) => First(next, on, vals, tasks)
    case Operation(_, _) => None
    case Cross(to, slot, next) =>
      if on.CompletionQueue? && to.CompletionQueue? && slot in tasks && tasks[slot].Some? then
        First(next, on, vals + [tasks[slot].value], tasks - {slot})
      else None
    case Detach(_, slot, next) => First(next, on, vals, tasks - {slot})
    case Launch(_) => Some(Unit)
    case HandBack(_) => Some(Unit)
  }

  /** The first segment of a body that has just been entered. */
  function FirstOf(body: Code, on: Executor): Option<Value> {
    First(body, on, [], map[])
  }

  /** What a local Task variable holds: a task nobody started, with its executor and whether it parks
      before it finishes, or one started as a subroutine. */
  datatype SlotType = Fresh(on: Executor, parks: bool) | Started

  function FreshTask(body: Code, on: Executor): SlotType {
    Fresh(on, FirstOf(body, on).None?)
  }

  predicate IsFresh(t: SlotType, on: Executor) {
    t.Fresh? && t.on == on
  }

  /** A cross-await needs two executors, and a child that parks if both run what they are given at once. */
  predicate CanCross(from: Executor, to: Executor, parks: bool) {
    from != to && (from.Game? || to.Game? || parks)
  }

  /** The library's demands on its callers: a Task variable is assigned only while empty, used
      only while full, empty when the body returns, and used on the executor it is typed for. */
  predicate WellFormed(code: Code, on: Executor, types: map<nat, SlotType>) {
    match code
    case Return(_) => types == map[]
    case Branch(_, yes, no) => WellFormed(yes, on, types) && WellFormed(no, on, types)
    case Make(slot, to, body, next) =>
      slot !in types && WellFormed(body, to, map[]) && WellFormed(next, on, types[slot := FreshTask(body, to)])
    case Await(slot, next) =>
      slot in types && (types[slot] == Started || IsFresh(types[slot], on)) && WellFormed(next, on, types - {slot})
    case Start(slot, next) =>
      slot in types && IsFresh(types[slot], on) && WellFormed(next, on, types[slot := Started])
    case Operation(_, next) => on.CompletionQueue? && WellFormed(next, on, types)
    case Cross(to, slot, next) =>
      && slot in types && IsFresh(types[slot], to) && CanCross(on, to, types[slot].parks)
      && WellFormed(next, on, types - {slot})
    case Detach(to, slot, next) =>
      slot in types && IsFresh(types[slot], to) && WellFormed(next, on, types - {slot})
    case Launch(_) => false
    case HandBack(_) => false
  }

  /** What the environment answers to each operation. */
  type Answers = nat -> bool

  /** Direct recursive evaluation: every child is evaluated where its task is created, with no
      suspension, no scheduler and no frames. `tasks` holds the values of the tasks in scope. */
  function Eval(answers: Answers, code: Code, vals: seq<Value>, tasks: map<nat, Value>): Value {
    match code
    case Return(result) => result(vals)
    case Branch(test, yes, no) =>
      if test(vals) then Eval(answers, yes, vals, tasks) else Eval(answers, no, vals, tasks)
    case Make(slot, _, body, next) =>
      Eval(answers, next, vals, tasks[slot := Eval(answers, body, [], map[])])
    case Await(slot, next) =>
      if slot in tasks then Eval(answers, next, vals + [tasks[slot]], tasks - {slot}) else Unit
    case Start(_, next) => Eval(answers, next, vals, tasks)
    case Operation(key, next) => Eval(answers, next, vals + [Flag(answers(key))], tasks)
    case Cross(_, slot, next) =>
      if slot in tasks then Eval(answers, next, vals + [tasks[slot]], tasks - {slot}) else Unit
    case Detach(_, slot, next) => Eval(answers, next, vals, tasks - {slot})
    case Launch(_) => Unit
    case HandBack(_) => Unit
  }
}
