/** The server's listen loops: each listener asks for one call at a time, on the queue of the executor
    it drew for that call, and starts the call's handler there. */
module Listen {
  import opened RoundRobin

  /** One Listen: who asked, on the queue of which executor, and the draw that chose it. */
  datatype Call = Call(listener: nat, executor: nat, turn: nat)

  /** A ListenUnary coroutine: the executor it is bound to, the call it asked for last, and the Listen
      tags it has out. */
  datatype Listener = Listener(home: nat, call: Call, outstanding: nat)

  datatype State = State(
    size: nat,
    turns: nat,              // calls of SelectNextExecutor so far
    listeners: seq<Listener>,
    posted: seq<Call>,       // every Listen, with the executor whose queue it was given
    spawned: seq<Call>)      // every handler, with the executor it is bound to

  datatype Event = StartListening | Completed(listener: nat, ok: bool)

  function Next(s: State): nat
    requires s.size > 0
  {
    Target(s.turns, s.size)
  }

  /** One turn of the loop, up to its suspension. */
  function Ask(s: State, i: nat): State
    requires s.size > 0 && i < |s.listeners|
  {
    var c, l := Call(i, Next(s), s.turns), s.listeners[i];
    s.(turns := s.turns + 1,
       listeners := s.listeners[i := l.(call := c, outstanding := l.outstanding + 1)],
       posted := s.posted + [c])
  }

  predicate Enabled(s: State, e: Event) {
    e.Completed? ==> e.listener < |s.listeners| && s.listeners[e.listener].outstanding > 0
  }

  function Apply(s: State, e: Event): State
    requires s.size > 0 && Enabled(s, e)
  {
    match e
    case StartListening =>
      var c := Call(|s.listeners|, Next(s), s.turns);
      Ask(s.(turns := s.turns + 1, listeners := s.listeners + [Listener(Next(s), c, 0)]), |s.listeners|)
    case Completed(i, ok) =>
      var l := s.listeners[i];
      var u := s.(listeners := s.listeners[i := l.(outstanding := l.outstanding - 1)]);
      if ok then Ask(u.(spawned := u.spawned + [l.call]), i) else u
  }

  ghost predicate IsRun(s: State, events: seq<Event>, t: State)
    requires s.size > 0
    decreases |events|
  {
    if events == [] then s == t else Enabled(s, events[0]) && IsRun(Apply(s, events[0]), events[1..], t)
  }

  function Init(size: nat): State {
    State(size, 0, [], [], [])
  }

  // ---- per listener ----

  /** One listener's share. */
  function Of(calls: seq<Call>, i: nat): seq<Call> {
    if calls == [] then []
    else
      var last := calls[|calls| - 1];
      Of(calls[..|calls| - 1], i) + if last.listener == i then [last] else []
  }

  lemma OfLast(calls: seq<Call>, c: Call, i: nat)
    ensures Of(calls + [c], i) == Of(calls, i) + if c.listener == i then [c] else []
  {
    assert (calls + [c])[..|calls|] == calls;
  }

  lemma {:induction false} OfStranger(calls: seq<Call>, i: nat)
    requires forall c | c in calls :: c.listener < i
    ensures Of(calls, i) == []
  {
    if calls != [] {
      OfStranger(calls[..|calls| - 1], i);
    }
  }

  /** One tag at a time, and all calls but the latest have their handler, on the executor asked for. The
      executor the listener is bound to was drawn just before that of its first call. */
  ghost predicate ListenerOk(s: State, i: nat)
    requires i < |s.listeners| && s.size > 0
  {
    var l := s.listeners[i];
    && l.outstanding <= 1 && l.call.listener == i && Of(s.posted, i) == Of(s.spawned, i) + [l.call]
    && Of(s.posted, i)[0].turn > 0 && l.home == Target(Of(s.posted, i)[0].turn - 1, s.size)
  }

  /** All listeners draw from one counter: executors are handed out round robin. */
  ghost predicate InTurn(s: State)
    requires s.size > 0
  {
    && (forall c | c in s.posted :: c.turn < s.turns && c.executor == Target(c.turn, s.size))
    && forall j, k | 0 <= j < k < |s.posted| :: s.posted[j].turn < s.posted[k].turn
  }

  ghost predicate Known(s: State) {
    forall c | c in s.posted || c in s.spawned :: c.listener < |s.listeners|
  }

  ghost predicate Inv(s: State) {
    && s.size > 0 && InTurn(s)
    && Known(s)
    && forall i: nat {:trigger ListenerOk(s, i)} | i < |s.listeners| :: ListenerOk(s, i)
  }

  lemma StartKeepsInv(s: State)
    requires Inv(s)
    ensures Inv(Apply(s, StartListening))
  {
    var t, n := Apply(s, StartListening), |s.listeners|;
    var c := t.posted[|s.posted|];
    OfStranger(s.posted, n);
    OfStranger(s.spawned, n);
    forall i: nat | i < |t.listeners| ensures ListenerOk(t, i) {
      OfLast(s.posted, c, i);
      if i < n { assert ListenerOk(s, i); }
    }
  }

  lemma RefusalKeepsInv(s: State, i: nat)
    requires Inv(s) && Enabled(s, Completed(i, false))
    ensures Inv(Apply(s, Completed(i, false)))
  {
    var t := Apply(s, Completed(i, false));
    forall j: nat | j < |t.listeners| ensures ListenerOk(t, j) { assert ListenerOk(s, j); }
  }

  lemma AskKeepsTurn(s: State, i: nat)
    requires s.size > 0 && i < |s.listeners| && InTurn(s)
    ensures InTurn(Ask(s, i))
  {
  }

  /** The state between the handler's spawn and the next Listen. */
  function Accepting(s: State, i: nat): State
    requires Enabled(s, Completed(i, true))
  {
    var l := s.listeners[i];
    s.(listeners := s.listeners[i := l.(outstanding := l.outstanding - 1)], spawned := s.spawned + [l.call])
  }

  lemma CallKeepsKnown(s: State, i: nat)
    requires s.size > 0 && Known(s) && Enabled(s, Completed(i, true)) && s.listeners[i].call.listener == i
    ensures Known(Apply(s, Completed(i, true)))
  {
  }

  lemma CallKeepsListener(s: State, i: nat, j: nat)
    requires Inv(s) && Enabled(s, Completed(i, true)) && j < |s.listeners|
    ensures ListenerOk(Apply(s, Completed(i, true)), j)
  {
    assert ListenerOk(s, i) && ListenerOk(s, j);
    OfLast(s.posted, Call(i, Next(s), s.turns), j);
    OfLast(s.spawned, s.listeners[i].call, j);
  }

  lemma CallKeepsInv(s: State, i: nat)
    requires Inv(s) && Enabled(s, Completed(i, true))
    ensures Inv(Apply(s, Completed(i, true)))
  {
    assert ListenerOk(s, i);
    AskKeepsTurn(Accepting(s, i), i);
    CallKeepsKnown(s, i);
    forall j: nat | j < |s.listeners| ensures ListenerOk(Apply(s, Completed(i, true)), j) {
      CallKeepsListener(s, i, j);
    }
  }

  lemma EventKeepsInv(s: State, e: Event)
    requires Inv(s) && Enabled(s, e)
    ensures Inv(Apply(s, e))
  {
    match e
    case StartListening => StartKeepsInv(s);
    case Completed(i, ok) => if ok { CallKeepsInv(s, i); } else { RefusalKeepsInv(s, i); }
  }

  lemma {:induction false} RunKeepsInv(s: State, events: seq<Event>, t: State)
    requires Inv(s) && IsRun(s, events, t)
    ensures Inv(t) && t.size == s.size
    decreases |events|
  {
    if events != [] {
      EventKeepsInv(s, events[0]);
      RunKeepsInv(Apply(s, events[0]), events[1..], t);
    }
  }

  /** The true completions of listener i. */
  function Accepted(events: seq<Event>, i: nat): nat {
    if events == [] then 0
    else (if events[0] == Completed(i, true) then 1 else 0) + Accepted(events[1..], i)
  }

  lemma EventSpawns(s: State, e: Event, i: nat)
    requires Inv(s) && Enabled(s, e)
    ensures |Of(Apply(s, e).spawned, i)| == |Of(s.spawned, i)| + if e == Completed(i, true) then 1 else 0
  {
    if e.Completed? && e.ok {
      assert ListenerOk(s, e.listener);
      OfLast(s.spawned, s.listeners[e.listener].call, i);
    }
  }

  lemma {:induction false} SpawnsAreAccepted(s: State, events: seq<Event>, t: State, i: nat)
    requires Inv(s) && IsRun(s, events, t)
    ensures |Of(t.spawned, i)| == |Of(s.spawned, i)| + Accepted(events, i)
    decreases |events|
  {
    if events != [] {
      EventSpawns(s, events[0], i);
      EventKeepsInv(s, events[0]);
      SpawnsAreAccepted(Apply(s, events[0]), events[1..], t, i);
    }
  }

  lemma EventLeaves(s: State, e: Event, i: nat)
    requires Inv(s) && Enabled(s, e) && i < |s.listeners| && s.listeners[i].outstanding == 0
    ensures e.Completed? ==> e.listener != i
    ensures var t := Apply(s, e);
      |t.listeners| > i && t.listeners[i] == s.listeners[i] && Of(t.spawned, i) == Of(s.spawned, i)
  {
    if e.Completed? && e.ok {
      assert ListenerOk(s, e.listener);
      OfLast(s.spawned, s.listeners[e.listener].call, i);
    }
  }

  /** After its first false completion a listener gets no further one. */
  lemma {:induction false} StoppedForGood(s: State, events: seq<Event>, t: State, i: nat)
    requires Inv(s) && IsRun(s, events, t) && i < |s.listeners| && s.listeners[i].outstanding == 0
    ensures forall e | e in events && e.Completed? :: e.listener != i
    ensures i < |t.listeners| && t.listeners[i] == s.listeners[i] && Of(t.spawned, i) == Of(s.spawned, i)
    decreases |events|
  {
    if events != [] {
      EventKeepsInv(s, events[0]);
      EventLeaves(s, events[0], i);
      StoppedForGood(Apply(s, events[0]), events[1..], t, i);
    }
  }

  // ---- what the events alone say ----

  function Starts(events: seq<Event>): nat {
    if events == [] then 0 else (if events[0] == StartListening then 1 else 0) + Starts(events[1..])
  }

  /** The true completions of all listeners. */
  function AllAccepted(events: seq<Event>): nat {
    if events == [] then 0
    else (if events[0].Completed? && events[0].ok then 1 else 0) + AllAccepted(events[1..])
  }

  /** A listener has a Listen out from its start to its first false completion. */
  function ListensAfter(s: State, events: seq<Event>, i: nat): nat {
    if Completed(i, false) in events then 0
    else if i < |s.listeners| then s.listeners[i].outstanding
    else 1
  }

  ghost predicate Counted(s: State, events: seq<Event>, t: State) {
    && |t.listeners| == |s.listeners| + Starts(events)
    && |t.posted| == |s.posted| + Starts(events) + AllAccepted(events)
    && |t.spawned| == |s.spawned| + AllAccepted(events)
    && t.turns == s.turns + 2 * Starts(events) + AllAccepted(events)
    && forall i: nat {:trigger ListensAfter(s, events, i)} | i < |t.listeners| ::
         t.listeners[i].outstanding == ListensAfter(s, events, i)
  }

  lemma {:induction false} RunCounts(s: State, events: seq<Event>, t: State)
    requires Inv(s) && IsRun(s, events, t)
    ensures Counted(s, events, t)
    decreases |events|
  {
    if events != [] {
      var u := Apply(s, events[0]);
      EventKeepsInv(s, events[0]);
      RunCounts(u, events[1..], t);
      forall i: nat | i < |t.listeners| ensures t.listeners[i].outstanding == ListensAfter(s, events, i) {
        FirstCounts(s, events, t, i);
      }
    }
  }

  lemma FirstCounts(s: State, events: seq<Event>, t: State, i: nat)
    requires Inv(s) && events != [] && Enabled(s, events[0]) && IsRun(Apply(s, events[0]), events[1..], t)
    requires Inv(Apply(s, events[0])) && Counted(Apply(s, events[0]), events[1..], t) && i < |t.listeners|
    ensures t.listeners[i].outstanding == ListensAfter(s, events, i)
  {
    var e, u := events[0], Apply(s, events[0]);
    assert events == [e] + events[1..];
    assert t.listeners[i].outstanding == ListensAfter(u, events[1..], i);
    if i < |s.listeners| {
      assert ListenerOk(s, i);
      if e == Completed(i, false) { StoppedForGood(u, events[1..], t, i); }
    }
  }

  /** From the events alone: there is one listener for each StartListening; each has a Listen out until its first
      false completion; each start and each true completion posts one Listen, each true completion spawns one
      handler, and every draw of an executor is for a listener or for a Listen. */
  lemma ListenersStart(size: size_t, events: seq<Event>, t: State)
    requires size > 0 && IsRun(Init(size), events, t)
    ensures |t.listeners| == Starts(events)
    ensures forall i: nat | i < |t.listeners| ::
      t.listeners[i].outstanding == if Completed(i, false) in events then 0 else 1
    ensures |t.posted| == Starts(events) + AllAccepted(events) && |t.spawned| == AllAccepted(events)
    ensures t.turns == |t.posted| + |t.listeners|
  {
    RunCounts(Init(size), events, t);
    forall i: nat | i < |t.listeners|
      ensures t.listeners[i].outstanding == if Completed(i, false) in events then 0 else 1
    {
      assert t.listeners[i].outstanding == ListensAfter(Init(size), events, i);
    }
  }

  /** A listener stays where it is, wherever its calls go. */
  lemma {:induction false} HomeStays(s: State, events: seq<Event>, t: State, i: nat)
    requires s.size > 0 && IsRun(s, events, t) && i < |s.listeners|
    ensures i < |t.listeners| && t.listeners[i].home == s.listeners[i].home
    decreases |events|
  {
    if events != [] {
      HomeStays(Apply(s, events[0]), events[1..], t, i);
    }
  }

  lemma {:induction false} OfIn(calls: seq<Call>, i: nat, k: nat)
    requires k < |Of(calls, i)|
    ensures Of(calls, i)[k] in calls && Of(calls, i)[k].listener == i
  {
    if k < |Of(calls[..|calls| - 1], i)| {
      OfIn(calls[..|calls| - 1], i, k);
    }
  }

  /** For every run of all listeners: each has at most one tag out; it started one handler for each of its
      true completions, on the executors it had asked with, in order; these are drawn round robin by all
      listeners together, and so was, just before its first call, the executor it is bound to. */
  lemma ListenersServe(size: size_t, events: seq<Event>, t: State, i: nat)
    requires size > 0 && IsRun(Init(size), events, t) && i < |t.listeners|
    ensures t.listeners[i].outstanding <= 1
    ensures Of(t.posted, i) == Of(t.spawned, i) + [t.listeners[i].call]
    ensures |Of(t.spawned, i)| == Accepted(events, i)
    ensures t.size == size && InTurn(t)
    ensures Of(t.posted, i)[0].turn > 0 && t.listeners[i].home == Target(Of(t.posted, i)[0].turn - 1, size)
  {
    RunKeepsInv(Init(size), events, t);
    SpawnsAreAccepted(Init(size), events, t, i);
    assert ListenerOk(t, i);
  }

  /** A handler goes where its call went, not where its listener is: a listener's first handler shares its
      executor only if there is one executor, or if the draw wrapped between the two on executor 0. */
  lemma FirstHandlerElsewhere(size: size_t, events: seq<Event>, t: State, i: nat)
    requires size > 0 && IsRun(Init(size), events, t) && i < |t.listeners| && Of(t.spawned, i) != []
    ensures var first := Of(t.spawned, i)[0];
      first.executor == t.listeners[i].home <==> size == 1 || (first.turn % WRAP == 0 && (WRAP - 1) % size == 0)
  {
    ListenersServe(size, events, t, i);
    var first := Of(t.posted, i)[0];
    OfIn(t.posted, i, 0);
    assert first.executor == Target(first.turn, size);
    assert first == Of(t.spawned, i)[0];
    NextTarget(first.turn - 1, size);
  }

  /** Nothing after the first false completion. */
  lemma NothingAfterRefusal(s: State, i: nat, events: seq<Event>, t: State)
    requires Inv(s) && Enabled(s, Completed(i, false)) && IsRun(Apply(s, Completed(i, false)), events, t)
    ensures forall e | e in events && e.Completed? :: e.listener != i
    ensures Of(t.spawned, i) == Of(s.spawned, i)
  {
    assert ListenerOk(s, i);
    EventKeepsInv(s, Completed(i, false));
    StoppedForGood(Apply(s, Completed(i, false)), events, t, i);
  }

  // ---- the server ----

  class Server {
    const selector: ExecutorSelector
    var listeners: seq<Listener>
    var posted: seq<Call>
    var spawned: seq<Call>

    ghost predicate Valid()
      reads this, selector
    {
      selector.Valid()
    }

    ghost function Now(): State
      reads this, selector
    {
      State(selector.size, |selector.chosen|, listeners, posted, spawned)
    }

    constructor (selector: ExecutorSelector)
      requires selector.Valid() && selector.chosen == []
      ensures Valid() && this.selector == selector && Now() == Init(selector.size)
    {
      this.selector := selector;
      listeners, posted, spawned := [], [], [];
    }

    /** From the head of the loop to the suspension in Listen. */
    method AskForCall(i: nat)
      requires Valid() && i < |listeners|
      modifies this, selector
      ensures Valid() && Now() == Ask(old(Now()), i)
    {
      var turn := |selector.chosen|;
      var executor := selector.SelectNextExecutor();
      var l := listeners[i];
      listeners := listeners[i := l.(call := Call(i, executor, turn), outstanding := l.outstanding + 1)];
      posted := posted + [Call(i, executor, turn)];
    }

    method StartListeningUnary()
      requires Valid()
      modifies this, selector
      ensures Valid() && Now() == Apply(old(Now()), StartListening)
    {
      var turn := |selector.chosen|;
      var home := selector.SelectNextExecutor();
      listeners := listeners + [Listener(home, Call(|listeners|, home, turn), 0)];
      AskForCall(|listeners| - 1);
    }

    method OnCompletion(i: nat, ok: bool)
      requires Valid() && Enabled(Now(), Completed(i, ok))
      modifies this, selector
      ensures Valid() && Now() == Apply(old(Now()), Completed(i, ok))
    {
      var l := listeners[i];
      listeners := listeners[i := l.(outstanding := l.outstanding - 1)];
      if ok {
        spawned := spawned + [l.call];
        AskForCall(i);
      }
    }
  }
}
