/** Every cross-await over a whole run.

    A frame's cross-awaits go round: it crosses, the LaunchChild hands the result over once, and the
    frame is resumed once. `Travels` is that protocol as an automaton over what a run is seen to do. */
module Trips {
  import opened Programs
  import opened Machine
  import opened Invariants
  import opened HeapLemmas
  import opened CallLemmas
  import opened StackLemmas
  import opened Steps
  import opened CallSteps
  import opened FirstSegments
  import opened Events
  import opened Segments
  import opened Meaning
  import opened Theorems

  /** One thing seen of a frame's cross-awaits, with the executor on which it happened. */
  datatype Hop =
    | Crossed(on: Executor, to: Executor, body: Code)   // SpawnCrossTask::await_suspend
    | Handed(on: Executor, result: Value)               // LaunchChild stores the result
    | Resumed(on: Executor, result: Value)              // the frame goes on with it

  /** The body of f does something for the frame p. */
  ghost function BodyHops(s: State, f: FrameId, p: FrameId): seq<Hop>
    requires f in s.heap
  {
    var fr := s.heap[f];
    if fr.executor.None? then []
    else if f == p && fr.code.Cross? && CanUse(s, f, fr.code.slot) && s.heap[fr.slots[fr.code.slot]].role.Program? then
      [Crossed(fr.executor.value, fr.code.on, s.heap[fr.slots[fr.code.slot]].role.body)]
    else if fr.code == HandBack(p) && fr.vals != [] && p in s.heap && s.heap[p].executor.Some? then
      var v, home := fr.vals[|fr.vals| - 1], s.heap[p].executor.value;
      [Handed(fr.executor.value, v)] + if home.CompletionQueue? then [Resumed(home, v)] else []
    else []
  }

  ghost function Hops(s: State, e: Event, p: FrameId): seq<Hop> {
    match e
    case Internal =>
      if s.stack != [] && Top(s).Body? && Top(s).frame in s.heap then BodyHops(s, Top(s).frame, p) else []
    case NextReady(n) =>
      if n in s.updating && s.updating[n] != [] && s.updating[n][0] == p && TripOf(s, p).Stored? then
        [Resumed(Game(n), TripOf(s, p).result)]
      else []
    case _ => []
  }

  ghost function RunHops(s: State, events: seq<Event>, p: FrameId): seq<Hop>
    decreases |events|
  {
    if events == [] || !Enabled(s, events[0]) || Apply(s, events[0]).Fault? then []
    else Hops(s, events[0], p) + RunHops(Apply(s, events[0]).state, events[1..], p)
  }

  /** Out to another executor with a task, back with what direct evaluation of the task's body gives, and on
      with that value on the executor where the await was. */
  ghost predicate Travels(answers: Answers, from: Trip, hops: seq<Hop>, to: Trip)
    decreases |hops|
  {
    if hops == [] then from == to
    else
      match hops[0]
      case Crossed(on, other, body) =>
        from.AtHome? && other != on && Travels(answers, Away(on, other, body), hops[1..], to)
      case Handed(on, v) =>
        && from.Away? && on == from.to && v == TaskValue(answers, from.body)
        && Travels(answers, Stored(from.from, v), hops[1..], to)
      case Resumed(on, v) =>
        from.Stored? && on == from.from && v == from.result && Travels(answers, AtHome, hops[1..], to)
  }

  lemma {:induction false} TravelsOn(answers: Answers, a: Trip, hops: seq<Hop>, b: Trip, more: seq<Hop>, c: Trip)
    requires Travels(answers, a, hops, b) && Travels(answers, b, more, c)
    ensures Travels(answers, a, hops + more, c)
    decreases |hops|
  {
    if hops == [] {
      assert hops + more == more;
    } else {
      assert (hops + more)[1..] == hops[1..] + more;
      var next := match hops[0]
        case Crossed(on, other, body) => Away(on, other, body)
        case Handed(_, v) => Stored(a.from, v)
        case Resumed(_, _) => AtHome;
      TravelsOn(answers, next, hops[1..], b, more, c);
    }
  }

  // ---- one event ----

  lemma CrossTravels(answers: Answers, s: State, f: FrameId, t: State)
    requires At(s, f) && IsRunning(s, f) && s.heap[f].code.Cross? && StepBody(s, f) == Next(t)
    ensures Travels(answers, TripOf(s, f), BodyHops(s, f, f), TripOf(t, f))
  {
    Here(s, f);
    CrossIsWhole(s, f, t);
    InVariable(s, f, s.heap[f].code.slot);
    assert BodyHops(s, f, f)[1..] == [];
  }

  lemma BackTravels(answers: Answers, s: State, f: FrameId, p: FrameId, t: State)
    requires At(s, f) && Meant(answers, s) && IsRunning(s, f)
    requires s.heap[f].code == HandBack(p) && StepBody(s, f) == Next(t)
    ensures Travels(answers, TripOf(s, p), BodyHops(s, f, p), TripOf(t, p))
  {
    Here(s, f);
    BackDoes(s, f, t);
    HandOverAge(s, f, p);
    assert CarrierOk(s, f) && MeansOk(answers, s, f) && FrameOk(s, p);
    var hops := BodyHops(s, f, p);
    if s.heap[p].home.Game? {
      assert hops[1..] == [];
    } else {
      var v := s.heap[f].vals[|s.heap[f].vals| - 1];
      assert hops[1..] == [Resumed(s.heap[p].home, v)] && hops[1..][1..] == [];
      assert Travels(answers, Stored(s.heap[p].home, v), hops[1..], AtHome);
    }
  }

  lemma BodyTravels(answers: Answers, s: State, f: FrameId, p: FrameId, t: State)
    requires At(s, f) && Meant(answers, s) && StepBody(s, f) == Next(t)
    ensures Travels(answers, TripOf(s, p), BodyHops(s, f, p), TripOf(t, p))
  {
    Here(s, f);
    if s.heap[f].code == HandBack(p) {
      BackTravels(answers, s, f, p, t);
    } else if s.heap[f].code.Cross? && f == p {
      CrossTravels(answers, s, f, t);
    } else {
      hide Inv;
      StepKeepsKind(s, t, p);
    }
  }

  lemma NextReadyTravels(answers: Answers, s: State, n: nat, p: FrameId, t: State)
    requires Inv(s) && Enabled(s, NextReady(n)) && Apply(s, NextReady(n)) == Next(t)
    ensures Travels(answers, TripOf(s, p), Hops(s, NextReady(n), p), TripOf(t, p))
  {
    var f := s.updating[n][0];
    NextReadyHead(s, n);
    var u := NextReadyDoes(s, n);
    Look(s, t, {f}, p);
    var hops := Hops(s, NextReady(n), p);
    if hops != [] { assert hops[1..] == []; }
  }

  lemma RootTravels(s: State, on: Executor, body: Code, p: FrameId, t: State)
    requires Inv(s) && Enabled(s, SpawnRoot(on, body)) && Apply(s, SpawnRoot(on, body)) == Next(t)
    ensures TripOf(t, p) == TripOf(s, p)
  {
    NextIsFree(s);
    var u := SpawnRootDoes(s, on, body);
    Look(s, t, {s.next}, p);
  }

  lemma TickTravels(s: State, f: FrameId, ok: bool, p: FrameId, t: State)
    requires Inv(s) && Enabled(s, Tick(f, ok)) && Apply(s, Tick(f, ok)) == Next(t)
    ensures TripOf(t, p) == TripOf(s, p)
  {
    assert s.tags[f] > 0;
    assert InOperation(s, f);
  }

  lemma InHeap(s: State)
    requires Inv(s) && s.stack != [] && Top(s).Body?
    ensures Top(s).frame in s.heap
  {
    Here(s, Top(s).frame);
  }

  lemma EventTravels(answers: Answers, s: State, e: Event, p: FrameId, t: State)
    requires Inv(s) && Meant(answers, s) && Enabled(s, e) && Apply(s, e) == Next(t)
    ensures Travels(answers, TripOf(s, p), Hops(s, e, p), TripOf(t, p))
  {
    hide Inv, StepBody, Resume, SpawnOn, BodyHops;
    match e
    case Internal =>
      if Top(s).Body? {
        InHeap(s);
        BodyTravels(answers, s, Top(s).frame, p, t);
      } else {
        StepKeepsKind(s, t, p);
      }
    case NextReady(n) => NextReadyTravels(answers, s, n, p, t);
    case SpawnRoot(on, body) => RootTravels(s, on, body, p, t);
    case Tick(f, ok) => TickTravels(s, f, ok, p, t);
    case _ =>
  }

  lemma {:induction false} RunTravels(answers: Answers, s: State, events: seq<Event>, t: State, p: FrameId)
    requires Inv(s) && Meant(answers, s) && IsAnsweredRun(answers, s, events, t)
    ensures Travels(answers, TripOf(s, p), RunHops(s, events, p), TripOf(t, p))
    decreases |events|
  {
    if events != [] {
      var u := Apply(s, events[0]).state;
      ApplyKeepsInv(s, events[0]);
      EventMeans(answers, s, events[0], u);
      EventTravels(answers, s, events[0], p, u);
      RunTravels(answers, u, events[1..], t, p);
      TravelsOn(answers, TripOf(s, p), Hops(s, events[0], p), TripOf(u, p), RunHops(u, events[1..], p), TripOf(t, p));
    }
  }

  // ---- how often ----

  ghost function CountOf(hops: seq<Hop>, kind: Hop -> bool): nat {
    if hops == [] then 0 else (if kind(hops[0]) then 1 else 0) + CountOf(hops[1..], kind)
  }

  lemma {:induction false} TravelsOnce(answers: Answers, from: Trip, hops: seq<Hop>, to: Trip)
    requires Travels(answers, from, hops, to)
    ensures CountOf(hops, (h: Hop) => h.Crossed?) + (if from.Away? then 1 else 0)
      == CountOf(hops, (h: Hop) => h.Handed?) + (if to.Away? then 1 else 0)
    ensures CountOf(hops, (h: Hop) => h.Handed?) + (if from.Stored? then 1 else 0)
      == CountOf(hops, (h: Hop) => h.Resumed?) + (if to.Stored? then 1 else 0)
    decreases |hops|
  {
    if hops != [] {
      var next := match hops[0]
        case Crossed(on, other, body) => Away(on, other, body)
        case Handed(_, v) => Stored(from.from, v)
        case Resumed(_, _) => AtHome;
      TravelsOnce(answers, next, hops[1..], to);
    }
  }

  /** For every program, every schedule and all answers: a frame's cross-awaits follow one another, each is
      followed by exactly one hand-over, on the executor crossed to, of the value direct evaluation of the task
      gives, and then by exactly one resumption, with that value and on the frame's own executor. Only the
      latest may still be under way. */
  lemma EveryCrossComesBackOnce(answers: Answers, events: seq<Event>, t: State, p: FrameId)
    requires IsAnsweredRun(answers, EMPTY, events, t)
    ensures Travels(answers, AtHome, RunHops(EMPTY, events, p), TripOf(t, p))
    ensures var hops, trip := RunHops(EMPTY, events, p), TripOf(t, p);
      && CountOf(hops, (h: Hop) => h.Crossed?) == CountOf(hops, (h: Hop) => h.Handed?) + (if trip.Away? then 1 else 0)
      && CountOf(hops, (h: Hop) => h.Handed?) == CountOf(hops, (h: Hop) => h.Resumed?) + (if trip.Stored? then 1 else 0)
  {
    EmptyIsGood(answers);
    RunTravels(answers, EMPTY, events, t, p);
    TravelsOnce(answers, AtHome, RunHops(EMPTY, events, p), TripOf(t, p));
  }
}
