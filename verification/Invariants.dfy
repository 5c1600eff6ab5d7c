/** What every reachable state satisfies. */
module Invariants {
  import opened Programs
  import opened Machine

  ghost predicate Bound(fr: Frame) {
    fr.executor == Some(fr.home)
  }

  /** A frame that sits in the ready queue of its game executor. */
  ghost predicate IsReady(fr: Frame) {
    || (fr.point.Initial? && fr.owner.Detached?)
    || (fr.point.AtCross? && fr.point.delivered.Some?)
  }

  /** A LaunchChild that still has to hand its result over. */
  ghost predicate IsCarrier(fr: Frame) {
    fr.code.Launch? || fr.code.HandBack?
  }

  /** A frame inside co_await SpawnCrossTask whose result has not come back yet. */
  ghost predicate IsWaiting(fr: Frame) {
    fr.point.AtCross? && fr.point.delivered.None?
  }

  // ---- one frame on its own ----

  ghost predicate LocalOk(fr: Frame) {
    && (fr.executor == None || Bound(fr))
    && (fr.executor == None ==> fr.point.Initial? && !fr.owner.Detached?)
    && (fr.point.Initial? ==>
          && fr.slots == map[] && fr.vals == []
          && (fr.role.Program? ==> fr.code == fr.role.body)
          && (fr.executor.Some? ==> fr.owner.Detached? && fr.home.Game?))
    && (fr.point.Final? ==> fr.slots == map[] && fr.code.Return?)
    && (fr.point.AtOperation? ==> fr.home.CompletionQueue?)
    && (fr.point.AtCross? && fr.point.delivered.Some? ==> fr.point.held == None && fr.home.Game?)
    && (fr.point.AtStart? ==> fr.point.slot !in fr.slots)
    && (fr.destroyOnDone <==> fr.owner.Detached?)
    && fr.parent == (if fr.owner.HeldBy? && fr.owner.place.Awaiting? then Some(fr.owner.frame) else None)
    && (fr.role.Launcher? ==> LauncherOk(fr))
    && (IsCarrier(fr) ==> fr.role.Launcher?)
  }

  ghost predicate LauncherOk(fr: Frame)
    requires fr.role.Launcher?
  {
    && fr.owner.Detached?
    && fr.slots == map[]
    && (match fr.code
        case Launch(p) => p == fr.role.waiter && fr.vals == [] && (fr.point.Initial? || fr.point.Running?)
        case HandBack(p) =>
          p == fr.role.waiter && ((fr.point.AtTask? && fr.vals == []) || (fr.point.Running? && |fr.vals| == 1))
        case Return(_) => fr.point.Running? || fr.point.Final?
        case _ => false)
  }

  /** The rest of the body is well formed for what the Task variables hold. */
  ghost predicate TypedOk(fr: Frame) {
    && fr.types.Keys == fr.slots.Keys + (if fr.point.AtStart? then {fr.point.slot} else {})
    && (fr.point.AtStart? && fr.point.slot in fr.types ==> fr.types[fr.point.slot] == Started)
    && (IsCarrier(fr) || WellFormed(fr.code, fr.home, fr.types))
  }

  // ---- two frames ----

  function Hold(fr: Frame, place: Place): Option<FrameId> {
    match place
    case Slot(i) => if i in fr.slots then Some(fr.slots[i]) else None
    case Awaiting => if fr.point.AtTask? then Some(fr.point.child) else None
    case Starting => if fr.point.AtStart? then Some(fr.point.child) else None
    case Crossing => if fr.point.AtCross? then fr.point.held else None
  }

  /** Frame g holds the task c at `place`. */
  ghost predicate EdgeOk(g: FrameId, holder: Frame, place: Place, c: FrameId, task: Frame) {
    && Hold(holder, place) == Some(c)
    && Bound(holder)
    && task.role.Program?
    && (if place.Awaiting? && holder.role.Launcher? then holder.role.waiter < c else g < c)
    && (match place
        case Slot(i) =>
          i in holder.types && (if task.executor == None then holder.types[i] == FreshTask(task.role.body, task.home)
                                else holder.types[i] == Started && task.executor == holder.executor)
        case Awaiting =>
          && task.executor == holder.executor
          && (holder.role.Launcher? ==> holder.role.body == task.role.body)
        case Starting => task.executor == holder.executor
        case Crossing =>
          task.executor == None && task.home == holder.point.on && task.role.body == holder.point.body)
  }

  /** Frame p waits for what the LaunchChild frame l will hand back; not both run at once. */
  ghost predicate HandOk(p: FrameId, waiter: Frame, l: FrameId, carrier: Frame) {
    && IsWaiting(waiter) && IsCarrier(carrier)
    && waiter.point.launcher == l
    && carrier.role == Launcher(p, waiter.point.body)
    && carrier.home == waiter.point.on
    && waiter.home != carrier.home
    && (waiter.point.held.Some? <==> carrier.code.Launch?)
  }

  ghost predicate OwnerOk(s: State, c: FrameId)
    requires c in s.heap
  {
    s.heap[c].owner.HeldBy? ==>
      var g := s.heap[c].owner.frame;
      g in s.heap && EdgeOk(g, s.heap[g], s.heap[c].owner.place, c, s.heap[c])
  }

  ghost predicate HoldOk(s: State, g: FrameId, place: Place)
    requires g in s.heap
  {
    Hold(s.heap[g], place).Some? ==>
      var c := Hold(s.heap[g], place).value;
      c in s.heap && s.heap[c].owner == HeldBy(g, place)
  }

  ghost predicate WaiterOk(s: State, p: FrameId)
    requires p in s.heap
  {
    IsWaiting(s.heap[p]) ==>
      var l := s.heap[p].point.launcher;
      l in s.heap && HandOk(p, s.heap[p], l, s.heap[l])
  }

  ghost predicate CarrierOk(s: State, l: FrameId)
    requires l in s.heap
  {
    IsCarrier(s.heap[l]) && s.heap[l].role.Launcher? ==>
      var p := s.heap[l].role.waiter;
      p in s.heap && HandOk(p, s.heap[p], l, s.heap[l])
  }

  ghost predicate FrameOk(s: State, f: FrameId)
    requires f in s.heap
  {
    f < s.next && LocalOk(s.heap[f]) && TypedOk(s.heap[f])
  }

  ghost predicate FramesOk(s: State) { forall f {:trigger FrameOk(s, f)} | f in s.heap :: FrameOk(s, f) }
  ghost predicate OwnersOk(s: State) { forall f {:trigger OwnerOk(s, f)} | f in s.heap :: OwnerOk(s, f) }
  ghost predicate HoldsOk(s: State) {
    forall f, place {:trigger HoldOk(s, f, place)} | f in s.heap :: HoldOk(s, f, place)
  }
  ghost predicate WaitersOk(s: State) { forall f {:trigger WaiterOk(s, f)} | f in s.heap :: WaiterOk(s, f) }
  ghost predicate CarriersOk(s: State) { forall f {:trigger CarrierOk(s, f)} | f in s.heap :: CarrierOk(s, f) }

  ghost predicate HeapOk(s: State) {
    FramesOk(s) && OwnersOk(s) && HoldsOk(s) && WaitersOk(s) && CarriersOk(s)
  }

  // ---- tags and queues ----

  ghost predicate InOperation(s: State, f: FrameId) {
    f in s.heap && s.heap[f].point.AtOperation?
  }

  ghost predicate TagsOk(s: State) {
    forall f: FrameId {:trigger s.tags[f]} :: s.tags[f] == if InOperation(s, f) then 1 else 0
  }

  /** How often executor n will resume f. */
  ghost function Queued(s: State, n: nat, f: FrameId): nat {
    multiset(Queue(s, n))[f]
  }

  ghost predicate ReadyOn(s: State, n: nat, f: FrameId) {
    f in s.heap && IsReady(s.heap[f]) && s.heap[f].home == Game(n)
  }

  ghost predicate QueuesOk(s: State) {
    forall n: nat, f: FrameId {:trigger Queued(s, n, f)} :: Queued(s, n, f) == if ReadyOn(s, n, f) then 1 else 0
  }

  // ---- the native call stack ----

  function Subject(a: Activation): FrameId {
    match a
    case Body(f) => f
    case Resumer(f) => f
    case Awaiter(_, c) => c
    case Starter(_, c) => c
  }

  ghost predicate EntryOk(s: State, a: Activation) {
    && Subject(a) in s.heap
    && Bound(s.heap[Subject(a)])
    && (s.heap[Subject(a)].home.Game? ==> s.heap[Subject(a)].home.id in s.updating)
    && (match a
        case Body(f) => s.heap[f].point.Running?
        case Resumer(f) => true
        case Awaiter(p, c) => p in s.heap && s.heap[p].point == AtTask(c)
        case Starter(p, c) => p in s.heap && s.heap[p].point.AtStart? && s.heap[p].point.child == c)
  }

  /** What may sit on top of the call a. */
  ghost predicate Linked(s: State, a: Activation, b: Activation) {
    if a.Body? then b.Resumer?
    else
      match b
      case Body(f) => f == Subject(a)
      case Awaiter(p, _) => p == Subject(a)
      case Starter(p, _) => p == Subject(a)
      case Resumer(_) => Subject(a) in s.heap && s.heap[Subject(a)].point.AtCross?
  }

  ghost predicate LinkOk(s: State, k: int) {
    0 < k < |s.stack| && Linked(s, s.stack[k - 1], s.stack[k])
  }

  /** No call among the first m concerns x. */
  ghost predicate Clear(s: State, x: FrameId, m: int) {
    forall k | 0 <= k < m && k < |s.stack| :: Subject(s.stack[k]) != x
  }

  /** The first m native calls are in order. */
  ghost predicate PrefixOk(s: State, m: nat) {
    && m <= |s.stack|
    && (m > 0 ==> s.stack[0].Resumer?)
    && (forall k {:trigger EntryOk(s, s.stack[k])} | 0 <= k < m :: EntryOk(s, s.stack[k]))
    && (forall k {:trigger LinkOk(s, k)} | 0 < k < m :: LinkOk(s, k))
    && (forall k | 0 <= k < m && !s.stack[k].Body? :: ClearCalls(s, Subject(s.stack[k]), k))
  }

  ghost predicate ClearCalls(s: State, x: FrameId, m: int) {
    forall k | 0 <= k < m && k < |s.stack| && !s.stack[k].Body? :: Subject(s.stack[k]) != x
  }

  ghost predicate StackOk(s: State) {
    PrefixOk(s, |s.stack|)
  }

  /** A frame that is mid-call is accounted for by the stack. */
  ghost predicate ActiveOk(s: State, f: FrameId)
    requires f in s.heap
  {
    var fr := s.heap[f];
    && (fr.point.Running? ==> Body(f) in s.stack)
    && (fr.point.AtStart? ==> Starter(f, fr.point.child) in s.stack)
    && (fr.point.Final? && (fr.owner.Detached? || fr.owner.place.Awaiting?) ==>
          s.stack != [] && !Top(s).Body? && Subject(Top(s)) == f)
  }

  ghost predicate ActivesOk(s: State) {
    forall f {:trigger ActiveOk(s, f)} | f in s.heap :: ActiveOk(s, f)
  }

  /** All of it but what concerns first segments. */
  ghost predicate Core(s: State) {
    HeapOk(s) && TagsOk(s) && QueuesOk(s) && StackOk(s) && ActivesOk(s)
  }

  // ---- first segments ----

  /** What the task c does in its first segment. */
  ghost function FirstAt(s: State, c: FrameId): Option<Value> {
    if c in s.heap && s.heap[c].role.Program? then FirstOf(s.heap[c].role.body, s.heap[c].home) else None
  }

  ghost function Firsts(s: State, fr: Frame): map<nat, Option<Value>> {
    map i | i in fr.slots :: FirstAt(s, fr.slots[i])
  }

  /** The rest of a first segment, from a state of the frame in that segment. */
  ghost function FirstNow(s: State, fr: Frame): Option<Value> {
    match fr.point
    case Initial => None
    case Running => First(fr.code, fr.home, fr.vals, Firsts(s, fr))
    case AtStart(slot, c) => First(fr.code, fr.home, fr.vals, Firsts(s, fr)[slot := FirstAt(s, c)])
    case AtTask(c) => FirstThen(s, fr, FirstAt(s, c))
    case AtOperation(_, _) => None
    case AtCross(on, body, _, _, _) =>
      if fr.home.CompletionQueue? && on.CompletionQueue? then FirstThen(s, fr, FirstOf(body, on)) else None
    case Final(result) => Some(result)
  }

  /** The frame goes on at once if what it waits for has come. */
  ghost function FirstThen(s: State, fr: Frame, child: Option<Value>): Option<Value> {
    if child.Some? then First(fr.code, fr.home, fr.vals + [child.value], Firsts(s, fr)) else None
  }

  /** A task that the young frame f holds was started, if at all, in this segment too. */
  ghost predicate KidOk(s: State, f: FrameId, place: Place)
    requires f in s.heap
  {
    !place.Crossing? && Hold(s.heap[f], place).Some? && Hold(s.heap[f], place).value in s.heap
      && !s.heap[Hold(s.heap[f], place).value].point.Initial? ==>
      Hold(s.heap[f], place).value in s.young
  }

  /** A frame in its first segment does what `First` says. */
  ghost predicate FirstOk(s: State, f: FrameId)
    requires f in s.heap
  {
    f in s.young ==>
      var fr := s.heap[f];
      && fr.executor.Some? && !fr.point.Initial?
      && (forall place {:trigger KidOk(s, f, place)} :: KidOk(s, f, place))
      && (match fr.role
          case Program(body) =>
            s.young[f] == FirstNow(s, fr) && (fr.owner.HeldBy? ==> s.young[f] == FirstOf(body, fr.home))
          case Launcher(_, body) =>
            && s.young[f].Some?
            && (fr.code.HandBack? && fr.point.Running? ==> fr.vals != [] && FirstOf(body, fr.home) == Some(fr.vals[0])))
  }

  /** A call on the stack concerns x. */
  ghost predicate OnStack(s: State, x: FrameId) {
    exists k {:trigger s.stack[k]} | 0 <= k < |s.stack| :: Subject(s.stack[k]) == x
  }

  /** The LaunchChild that p waits for cannot hand over in the segment in which p crossed, unless p
      is off the stack. */
  ghost predicate TiedOk(s: State, p: FrameId)
    requires p in s.heap
  {
    var fr := s.heap[p];
    IsWaiting(fr) && fr.home.CompletionQueue? && fr.point.launcher in s.heap && (p in s.young || OnStack(s, p)) ==>
      var l := fr.point.launcher;
      if s.heap[l].home.Game? then s.heap[l].point.Initial?
      else l in s.young && (OnStack(s, p) ==> FirstOf(fr.point.body, fr.point.on).None?)
  }

  ghost predicate YoungOk(s: State) {
    && (forall f | f in s.young :: f < s.next && (s.young[f].None? ==> f in s.heap))
    && (forall f {:trigger FirstOk(s, f)} | f in s.heap :: FirstOk(s, f))
    && (forall p {:trigger TiedOk(s, p)} | p in s.heap :: TiedOk(s, p))
  }

  ghost predicate Inv(s: State) {
    Core(s) && YoungOk(s)
  }
}
