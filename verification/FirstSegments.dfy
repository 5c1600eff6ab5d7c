/** Every step keeps the part of the invariant about first segments, and with it the whole.

    A frame is young while the segment that entered it for the first time still runs. What such a frame
    does until it parks or finishes is what `First` says of its body: no operation has answered, every
    task it holds is as young as it is, and a task that parks cannot come back before the segment is
    over. So a LaunchChild whose child parks does not hand over in the segment in which its waiter
    crossed, and when it does, no native call concerns the waiter any more: resuming it from inside the
    hand-over is safe even when both executors run what they are given at once. The lemmas have the form
    of those of Meaning: one for each step, and one for the frames a step does not write. */
module FirstSegments {
  import opened Programs
  import opened Machine
  import opened Invariants
  import opened HeapLemmas
  import opened CallLemmas
  import opened StackLemmas
  import opened Steps
  import opened CallSteps

  /** The body of f runs on top of the stack. */
  ghost predicate At(s: State, f: FrameId) {
    Inv(s) && s.stack != [] && Top(s) == Body(f)
  }

  /** A native call has just come back. */
  ghost predicate AtCall(s: State) {
    Inv(s) && s.stack != [] && !Top(s).Body?
  }

  // ---- frames a step does not write ----

  /** Every task but `gone` lives on with its role and its executor. */
  ghost predicate KindsKept(s: State, t: State, gone: set<FrameId>) {
    forall c {:trigger c in s.heap} | c in s.heap && c !in gone ::
      c in t.heap && t.heap[c].role == s.heap[c].role && t.heap[c].home == s.heap[c].home
  }

  lemma KindsFrom(s: State, t: State, changed: set<FrameId>, gone: set<FrameId>)
    requires Only(s, t, changed)
    requires forall c | c in changed && c in s.heap && c !in gone ::
      c in t.heap && t.heap[c].role == s.heap[c].role && t.heap[c].home == s.heap[c].home
    ensures KindsKept(s, t, gone)
  {
    forall c | c in s.heap && c !in gone
      ensures c in t.heap && t.heap[c].role == s.heap[c].role && t.heap[c].home == s.heap[c].home
    {
      Look(s, t, changed, c);
    }
  }

  /** The frames destroyed were not held by a frame that stays as it was. */
  ghost predicate HeldWithin(s: State, changed: set<FrameId>, gone: set<FrameId>) {
    forall c | c in gone && c in s.heap :: s.heap[c].owner.Detached? || s.heap[c].owner.frame in changed
  }

  /** Variables that f keeps stand for what they did. */
  lemma FirstsKept(s: State, t: State, f: FrameId, to: Frame, drop: set<nat>, gone: set<FrameId>)
    requires HeapOk(s) && f in s.heap && KindsKept(s, t, gone)
    requires forall c, i | c in gone && c in s.heap && s.heap[c].owner == HeldBy(f, Slot(i)) :: i in drop
    requires to.slots == s.heap[f].slots - drop
    ensures Firsts(t, to) == Firsts(s, s.heap[f]) - drop
    ensures drop == {} ==> Firsts(t, to) == Firsts(s, s.heap[f])
  {
    forall i | i in to.slots ensures FirstAt(t, to.slots[i]) == FirstAt(s, to.slots[i]) {
      assert HoldOk(s, f, Slot(i));
    }
  }

  /** A task that a step starts becomes young. */
  ghost predicate StartsYoung(s: State, t: State, c: FrameId) {
    c in t.heap && !t.heap[c].point.Initial? ==> (c in s.heap && !s.heap[c].point.Initial?) || c in t.young
  }

  /** Young frames stay young, and only written frames become so. */
  ghost predicate Ages(s: State, t: State, changed: set<FrameId>) {
    && (forall f | f in s.young :: f in t.young && t.young[f] == s.young[f])
    && (forall f | f in t.young && f !in s.young :: f in changed && f in t.heap && f < t.next)
  }

  ghost predicate SameCalls(s: State, t: State, changed: set<FrameId>) {
    forall a | a in t.stack :: a in s.stack || Subject(a) in changed
  }

  /** What a step does to the young, apart from the frames it writes. */
  ghost predicate Quiet(s: State, t: State, changed: set<FrameId>, gone: set<FrameId>) {
    && Only(s, t, changed) && KindsKept(s, t, gone) && HeldWithin(s, changed, gone)
    && Ages(s, t, changed) && SameCalls(s, t, changed)
    && (forall c | c in changed :: StartsYoung(s, t, c))
    && (forall c | c in gone :: c in s.heap && s.heap[c].point.Final?)
    && (forall l | l in changed && l in s.heap && l in t.heap && s.heap[l].point.Initial? && s.heap[l].executor.Some? ::
          t.heap[l].point.Initial?)
  }

  lemma YoungElsewhere(s: State, t: State, changed: set<FrameId>, gone: set<FrameId>)
    requires Inv(s) && Quiet(s, t, changed, gone)
    requires forall f | f in changed && f in t.heap :: FirstOk(t, f) && TiedOk(t, f)
    ensures YoungOk(t)
  {
    forall f | f in t.young ensures f < t.next && (t.young[f].None? ==> f in t.heap) {
      if f in s.young { YoungLives(s, t, changed, gone, f); }
    }
    forall f | f in t.heap ensures FirstOk(t, f) {
      Look(s, t, changed, f);
      if f !in changed { FirstHere(s, t, changed, gone, f); }
    }
    forall p | p in t.heap ensures TiedOk(t, p) {
      Look(s, t, changed, p);
      if p !in changed { TiedHere(s, t, changed, gone, p); }
    }
  }

  lemma YoungLives(s: State, t: State, changed: set<FrameId>, gone: set<FrameId>, f: FrameId)
    requires Inv(s) && Quiet(s, t, changed, gone) && f in s.young
    ensures f < t.next && (s.young[f].None? ==> f in t.heap)
  {
    if f in s.heap { assert FirstOk(s, f); }
  }

  lemma FirstHere(s: State, t: State, changed: set<FrameId>, gone: set<FrameId>, f: FrameId)
    requires Inv(s) && Quiet(s, t, changed, gone) && f in s.heap && f !in changed
    ensures f in t.heap && FirstOk(t, f)
  {
    Look(s, t, changed, f);
    assert FirstOk(s, f);
    if f in s.young {
      forall place ensures KidOk(t, f, place) { KidHere(s, t, changed, gone, f, place); }
      FirstsKept(s, t, f, s.heap[f], {}, gone);
      assert HoldOk(s, f, Awaiting) && HoldOk(s, f, Starting);
    }
  }

  lemma KidHere(s: State, t: State, changed: set<FrameId>, gone: set<FrameId>, f: FrameId, place: Place)
    requires Inv(s) && Quiet(s, t, changed, gone) && f in s.heap && f !in changed && f in s.young && f in t.heap
    ensures KidOk(t, f, place)
  {
    Look(s, t, changed, f);
    assert FirstOk(s, f);
    assert KidOk(s, f, place) && HoldOk(s, f, place);
    if Hold(s.heap[f], place).Some? { Look(s, t, changed, Hold(s.heap[f], place).value); }
  }

  lemma TiedHere(s: State, t: State, changed: set<FrameId>, gone: set<FrameId>, p: FrameId)
    requires Inv(s) && Quiet(s, t, changed, gone) && p in s.heap && p !in changed
    ensures p in t.heap && TiedOk(t, p)
  {
    Look(s, t, changed, p);
    assert TiedOk(s, p) && WaiterOk(s, p);
    if IsWaiting(s.heap[p]) {
      var l := s.heap[p].point.launcher;
      assert FrameOk(s, l);
      Look(s, t, changed, l);
      if OnStack(t, p) {
        var k :| 0 <= k < |t.stack| && Subject(t.stack[k]) == p;
        assert t.stack[k] in s.stack;
      }
    }
  }

  // ---- the frames a step writes ----

  /** The task that f holds at `place` after a step was its own before, or had not been started. */
  ghost predicate KidFrom(s: State, t: State, f: FrameId, place: Place)
    requires f in t.heap
  {
    !place.Crossing? && Hold(t.heap[f], place).Some? ==>
      var c := Hold(t.heap[f], place).value;
      StartsYoung(s, t, c)
      && (c in s.heap && !s.heap[c].point.Initial? ==>
            s.heap[c].owner.HeldBy? && s.heap[c].owner.frame == f && !s.heap[c].owner.place.Crossing?)
  }

  lemma KidsFrom(s: State, t: State, f: FrameId)
    requires Inv(s) && f in s.heap && f in s.young && f in t.heap && forall g | g in s.young :: g in t.young
    requires forall place :: KidFrom(s, t, f, place)
    ensures forall place :: KidOk(t, f, place)
  {
    assert FirstOk(s, f);
    forall place ensures KidOk(t, f, place) {
      assert KidFrom(s, t, f, place);
      if !place.Crossing? && Hold(t.heap[f], place).Some? {
        var c := Hold(t.heap[f], place).value;
        if c in s.heap && !s.heap[c].point.Initial? {
          assert OwnerOk(s, c) && KidOk(s, f, s.heap[c].owner.place);
        }
      }
    }
  }

  /** A frame that holds only what it held. */
  lemma KidsStay(s: State, t: State, f: FrameId, changed: set<FrameId>)
    requires Inv(s) && f in s.heap && f in s.young && f in t.heap && Only(s, t, changed) && Ages(s, t, changed)
    requires forall c | c in changed :: StartsYoung(s, t, c)
    requires forall place: Place | !place.Crossing? && Hold(t.heap[f], place).Some? ::
      Hold(t.heap[f], place) == Hold(s.heap[f], place)
    ensures forall place :: KidOk(t, f, place)
  {
    forall place ensures KidFrom(s, t, f, place) {
      assert HoldOk(s, f, place);
      if Hold(t.heap[f], place).Some? { Look(s, t, changed, Hold(t.heap[f], place).value); }
    }
    KidsFrom(s, t, f);
  }

  /** A task that has just been entered. */
  lemma EnteredFirst(s: State, c: FrameId)
    requires c in s.heap && c in s.young && s.young[c] == FirstOf(s.heap[c].code, s.heap[c].home)
    requires s.heap[c].role.Program? && s.heap[c].code == s.heap[c].role.body && s.heap[c].executor.Some?
    requires s.heap[c].slots == map[] && s.heap[c].vals == [] && s.heap[c].point.Running?
    ensures FirstOk(s, c) && TiedOk(s, c)
  {
    assert Firsts(s, s.heap[c]) == map[];
    forall place ensures KidOk(s, c, place) {}
  }

  /** A task of which only owner and parent change. */
  lemma SameFirst(s: State, t: State, c: FrameId, changed: set<FrameId>)
    requires Inv(s) && Quiet(s, t, changed, {}) && c in changed && c in s.heap && c in t.heap
    requires t.heap[c] == s.heap[c].(owner := t.heap[c].owner, parent := t.heap[c].parent)
    requires s.heap[c].owner.HeldBy? || t.heap[c].owner.Detached? || c !in s.young
    requires forall l | l in changed :: !(l in s.heap && IsCarrier(s.heap[l]))
    requires (c in t.young ==> c in s.young) && (OnStack(t, c) ==> OnStack(s, c))
    ensures FirstOk(t, c) && TiedOk(t, c)
  {
    assert FirstOk(s, c) && TiedOk(s, c) && WaiterOk(s, c);
    if c in s.young {
      KidsStay(s, t, c, changed);
      FirstsKept(s, t, c, t.heap[c], {}, {});
      assert HoldOk(s, c, Awaiting) && HoldOk(s, c, Starting);
    }
    if IsWaiting(s.heap[c]) { Look(s, t, changed, s.heap[c].point.launcher); }
  }

  // ---- bodies ----

  /** What an operation writes that concerns no other frame. */
  ghost predicate PlainWrites(s: State, f: FrameId, t: State) {
    && f in s.heap && f in t.heap && Only(s, t, {f}) && t.young == s.young
    && s.stack != [] && (t.stack == s.stack || t.stack == Pop(s.stack))
    && (var fr, to := s.heap[f], t.heap[f];
        && fr.point.Running? && to == fr.(code := to.code, point := to.point)
        && match fr.code
           case Return(result) => to.point == Final(result(fr.vals))
           case Branch(test, yes, no) => to.point.Running? && to.code == if test(fr.vals) then yes else no
           case Operation(_, next) => to.point.AtOperation?
           case _ => false)
  }

  lemma PlainDoes(s: State, f: FrameId, t: State)
    requires CoreAt(s, f) && IsRunning(s, f) && StepBody(s, f) == Next(t)
    requires s.heap[f].code.Return? || s.heap[f].code.Branch? || s.heap[f].code.Operation?
    ensures PlainWrites(s, f, t)
  {
    Here(s, f);
  }

  lemma PlainFirst(s: State, f: FrameId, t: State)
    requires Inv(s) && PlainWrites(s, f, t) && (s.heap[f].role.Program? || s.heap[f].code.Return?)
    ensures YoungOk(t)
  {
    hide HeapOk, TagsOk, QueuesOk, StackOk, ActivesOk, FirstOk, TiedOk;
    KindsFrom(s, t, {f}, {});
    PlainSelfFirst(s, f, t);
    YoungElsewhere(s, t, {f}, {});
  }

  lemma PlainSelfFirst(s: State, f: FrameId, t: State)
    requires Inv(s) && PlainWrites(s, f, t) && (s.heap[f].role.Program? || s.heap[f].code.Return?)
    requires KindsKept(s, t, {})
    ensures FirstOk(t, f) && TiedOk(t, f)
  {
    assert FirstOk(s, f);
    if f in s.young {
      KidsStay(s, t, f, {f});
      FirstsKept(s, t, f, t.heap[f], {}, {});
    }
  }

  /** Frame f makes the task c. */
  ghost predicate Makes(s: State, t: State, f: FrameId, c: FrameId) {
    && f in s.heap && f in t.heap && c !in s.heap && c in t.heap && c < t.next && Only(s, t, {f, c})
    && s.heap[f].point.Running? && s.heap[f].executor.Some? && s.heap[f].role.Program? && s.heap[f].code.Make?
    && (var fr, Make(slot, on, body, next) := s.heap[f], s.heap[f].code;
        && slot !in fr.slots && t.heap[c] == NewTask(body, on, HeldBy(f, Slot(slot)))
        && t.heap[f] == fr.(code := next, slots := fr.slots[slot := c], types := t.heap[f].types))
    && t.stack == s.stack && t.young == s.young
  }

  lemma MakeDoes(s: State, f: FrameId, t: State)
    requires At(s, f) && IsRunning(s, f) && s.heap[f].code.Make? && StepBody(s, f) == Next(t)
    ensures Makes(s, t, f, s.next)
  {
    Here(s, f);
    NextIsFree(s);
  }

  lemma MakeFirst(s: State, f: FrameId, t: State)
    requires At(s, f) && IsRunning(s, f) && s.heap[f].code.Make? && StepBody(s, f) == Next(t)
    ensures YoungOk(t)
  {
    hide Inv, YoungOk, StepBody;
    MakeDoes(s, f, t);
    MadeFirst(s, t, f, s.next);
  }

  lemma MadeFirst(s: State, t: State, f: FrameId, c: FrameId)
    requires Inv(s) && Makes(s, t, f, c) && c == s.next
    ensures YoungOk(t)
  {
    hide HeapOk, TagsOk, QueuesOk, StackOk, ActivesOk, FirstOk, TiedOk;
    KindsFrom(s, t, {f, c}, {});
    MakerFirst(s, t, f, c);
    UnstartedFirst(t, c);
    YoungElsewhere(s, t, {f, c}, {});
  }

  lemma MakerFirst(s: State, t: State, f: FrameId, c: FrameId)
    requires Inv(s) && Makes(s, t, f, c) && KindsKept(s, t, {}) && c !in s.young
    ensures FirstOk(t, f) && TiedOk(t, f)
  {
    assert FirstOk(s, f);
    if f in s.young {
      forall place ensures KidFrom(s, t, f, place) { MakerHolds(s, t, f, c, place); }
      KidsFrom(s, t, f);
      FirstsKept(s, t, f, t.heap[f].(slots := s.heap[f].slots), {}, {});
      assert Firsts(t, t.heap[f]) ==
        Firsts(s, s.heap[f])[s.heap[f].code.slot := FirstOf(s.heap[f].code.body, s.heap[f].code.on)];
    }
  }

  lemma MakerHolds(s: State, t: State, f: FrameId, c: FrameId, place: Place)
    requires Inv(s) && Makes(s, t, f, c)
    ensures KidFrom(s, t, f, place)
  {
    assert HoldOk(s, f, place);
    if Hold(t.heap[f], place).Some? { Look(s, t, {f, c}, Hold(t.heap[f], place).value); }
  }

  // ---- co_await of a task ----

  /** The rest of f's body once the task c has left its variable. */
  lemma AwaitRest(s: State, t: State, f: FrameId, slot: nat, gone: set<FrameId>)
    requires HeapOk(s) && f in s.heap && s.heap[f].point.Running?
    requires s.heap[f].code.Await? && s.heap[f].code.slot == slot
    requires slot in s.heap[f].slots && KindsKept(s, t, gone) && gone <= {s.heap[f].slots[slot]} && f in t.heap
    requires t.heap[f].slots == s.heap[f].slots - {slot} && t.heap[f].code == s.heap[f].code.next
    requires t.heap[f].home == s.heap[f].home
    ensures FirstNow(s, s.heap[f]) ==
      FirstThen(t, t.heap[f].(vals := s.heap[f].vals), FirstAt(s, s.heap[f].slots[slot]))
  {
    assert HoldOk(s, f, Slot(slot));
    FirstsKept(s, t, f, t.heap[f], {slot}, gone);
  }

  /** The result of a finished task that a young frame holds is the one `First` gives. */
  lemma KidFinished(s: State, f: FrameId, place: Place, c: FrameId)
    requires Inv(s) && f in s.heap && f in s.young && c in s.heap && s.heap[c].point.Final?
    requires s.heap[c].owner == HeldBy(f, place) && !place.Crossing?
    ensures c in s.young && FirstAt(s, c) == Some(s.heap[c].point.result) == s.young[c]
    ensures s.heap[c].role.Program?
  {
    assert FrameOk(s, c) && OwnerOk(s, c) && FirstOk(s, f) && FirstOk(s, c);
    assert KidOk(s, f, place);
  }

  /** Frame f takes the result of c, which is gone. */
  ghost predicate Takes(s: State, t: State, f: FrameId, c: FrameId, code: Code, slots: map<nat, FrameId>) {
    && f in s.heap && c in s.heap && f in t.heap && c !in t.heap && f != c && Only(s, t, {f, c})
    && s.heap[c].point.Final? && s.heap[c].owner.HeldBy? && s.heap[c].owner.frame == f
    && !s.heap[c].owner.place.Crossing?
    && t.heap[f] == s.heap[f].(code := code, slots := slots, types := t.heap[f].types, point := Running,
                               vals := s.heap[f].vals + [s.heap[c].point.result])
    && t.young == s.young
  }

  lemma AwaitFinishedFirst(s: State, f: FrameId, t: State)
    requires Inv(s) && IsAwait(s, f, t) && s.heap[Awaited(s, f)].point.Final?
    ensures YoungOk(t)
  {
    Here(s, f);
    var slot, c := s.heap[f].code.slot, Awaited(s, f);
    InVariable(s, f, slot);
    assert t.stack == s.stack;
    assert Takes(s, t, f, c, s.heap[f].code.next, s.heap[f].slots - {slot});
    TakenFirst(s, t, f, c, slot);
  }

  lemma TakenFirst(s: State, t: State, f: FrameId, c: FrameId, slot: nat)
    requires Inv(s) && f in s.heap && s.heap[f].code.Await? && slot == s.heap[f].code.slot && s.heap[f].role.Program?
    requires slot in s.heap[f].slots && s.heap[f].slots[slot] == c && s.heap[f].point.Running?
    requires Takes(s, t, f, c, s.heap[f].code.next, s.heap[f].slots - {slot}) && t.stack == s.stack
    ensures YoungOk(t)
  {
    assert FirstOk(s, f);
    KindsFrom(s, t, {f, c}, {c});
    if f in s.young {
      KidFinished(s, f, s.heap[c].owner.place, c);
      AwaitRest(s, t, f, slot, {c});
      KidsStay(s, t, f, {f, c});
    }
    YoungElsewhere(s, t, {f, c}, {c});
  }

  /** Frame f awaits c; `call` are the native calls that remain. */
  ghost predicate Awaits(s: State, t: State, f: FrameId, c: FrameId, slot: nat) {
    && f in s.heap && c in s.heap && f in t.heap && c in t.heap && f != c && Only(s, t, {f, c})
    && s.heap[f].point.Running? && s.heap[f].role.Program? && s.heap[f].code.Await? && slot == s.heap[f].code.slot
    && slot in s.heap[f].slots && s.heap[f].slots[slot] == c && s.heap[c].owner == HeldBy(f, Slot(slot))
    && t.heap[f] == s.heap[f].(code := s.heap[f].code.next, slots := s.heap[f].slots - {slot}, types := t.heap[f].types,
                               point := AtTask(c))
    && s.stack != []
  }

  lemma AwaiterFirst(s: State, t: State, f: FrameId, c: FrameId, slot: nat)
    requires Inv(s) && Awaits(s, t, f, c, slot) && KindsKept(s, t, {}) && Ages(s, t, {f, c}) && StartsYoung(s, t, c)
    requires f in t.young ==> f in s.young
    ensures FirstOk(t, f) && TiedOk(t, f)
  {
    assert FirstOk(s, f);
    if f in s.young {
      AwaitRest(s, t, f, slot, {});
      forall place ensures KidFrom(s, t, f, place) {
        assert HoldOk(s, f, place);
        if Hold(t.heap[f], place).Some? { Look(s, t, {f, c}, Hold(t.heap[f], place).value); }
      }
      KidsFrom(s, t, f);
    }
  }

  lemma AwaitPendingDoes(s: State, f: FrameId, t: State)
    requires IsAwait(s, f, t) && !s.heap[Awaited(s, f)].point.Final?
    ensures Awaits(s, t, f, Awaited(s, f), s.heap[f].code.slot)
    ensures var c := Awaited(s, f);
      if s.heap[c].executor == None then
        && t.stack == Pop(s.stack) + [Awaiter(f, c), Body(c)] && Enters(s, t, c)
      else
        && t.stack == Pop(s.stack) && t.young == s.young
        && t.heap[c] == s.heap[c].(owner := t.heap[c].owner, parent := t.heap[c].parent)
  {
    Here(s, f);
    InVariable(s, f, s.heap[f].code.slot);
  }

  /** The unstarted task c is entered. */
  ghost predicate Enters(s: State, t: State, c: FrameId) {
    && c in s.heap && c in t.heap && s.heap[c].executor == None && t.heap[c].executor.Some?
    && t.young == s.young[c := FirstOf(s.heap[c].code, s.heap[c].home)]
    && t.heap[c].role == s.heap[c].role && t.heap[c].home == s.heap[c].home && t.heap[c].code == s.heap[c].code
    && t.heap[c].slots == s.heap[c].slots && t.heap[c].vals == s.heap[c].vals && t.heap[c].point.Running?
  }

  lemma EntersFirst(s: State, t: State, c: FrameId)
    requires Inv(s) && Enters(s, t, c) && s.heap[c].role.Program?
    ensures FirstOk(t, c) && TiedOk(t, c) && c !in s.young && c < s.next
  {
    assert FrameOk(s, c) && FirstOk(s, c);
    EnteredFirst(t, c);
  }

  lemma AwaitPendingFirst(s: State, f: FrameId, t: State)
    requires Inv(s) && IsAwait(s, f, t) && !s.heap[Awaited(s, f)].point.Final?
    ensures YoungOk(t)
  {
    var slot, c := s.heap[f].code.slot, Awaited(s, f);
    AwaitPendingDoes(s, f, t);
    assert OwnerOk(s, c);
    if s.heap[c].executor == None {
      AwaitFreshFirst(s, f, c, slot, t);
    } else {
      AwaitStartedFirst(s, f, c, slot, t);
    }
  }

  lemma AwaitFreshFirst(s: State, f: FrameId, c: FrameId, slot: nat, t: State)
    requires Inv(s) && Awaits(s, t, f, c, slot) && Enters(s, t, c) && s.heap[c].role.Program?
    requires t.stack == Pop(s.stack) + [Awaiter(f, c), Body(c)]
    ensures YoungOk(t)
  {
    hide Inv, FirstOk, TiedOk;
    EntersFirst(s, t, c);
    KindsFrom(s, t, {f, c}, {});
    AwaiterFirst(s, t, f, c, slot);
    YoungElsewhere(s, t, {f, c}, {});
  }

  lemma AwaitStartedFirst(s: State, f: FrameId, c: FrameId, slot: nat, t: State)
    requires Inv(s) && Awaits(s, t, f, c, slot) && t.stack == Pop(s.stack) && t.young == s.young
    requires t.heap[c] == s.heap[c].(owner := t.heap[c].owner, parent := t.heap[c].parent)
    requires s.heap[c].executor.Some? && s.heap[c].role.Program?
    ensures YoungOk(t)
  {
    hide LinkOk, EntryOk, ClearCalls, YoungOk, WellFormed, First;
    hide Inv, FirstOk, TiedOk;
    NotCarrier(s, f);
    NotCarrier(s, c);
    HeldIsEntered(s, c);
    KindsFrom(s, t, {f, c}, {});
    AwaiterFirst(s, t, f, c, slot);
    SameFirst(s, t, c, {f, c});
    YoungElsewhere(s, t, {f, c}, {});
  }

  lemma NotCarrier(s: State, f: FrameId)
    requires Inv(s) && f in s.heap && s.heap[f].role.Program?
    ensures !IsCarrier(s.heap[f])
  {
    assert FrameOk(s, f);
  }

  lemma HeldIsEntered(s: State, c: FrameId)
    requires Inv(s) && c in s.heap && s.heap[c].owner.HeldBy? && s.heap[c].executor.Some?
    ensures !s.heap[c].point.Initial?
  {
    assert FrameOk(s, c);
  }

  // ---- StartSubroutine, SpawnCrossTask and Spawn ----

  lemma StartFirst(s: State, f: FrameId, t: State)
    requires At(s, f) && IsRunning(s, f) && s.heap[f].code.Start?
    requires StepStart(s, f, s.heap[f].code.slot, s.heap[f].code.next) == Next(t)
    ensures YoungOk(t)
  {
    hide YoungOk, TagsOk, QueuesOk, StackOk, ActivesOk;
    var slot := s.heap[f].code.slot;
    StartDoes(s, f, t);
    var c := s.heap[f].slots[slot];
    EntersFirst(s, t, c);
    KindsFrom(s, t, {f, c}, {});
    StartingFirst(s, f, c, slot, t);
    YoungElsewhere(s, t, {f, c}, {});
  }

  /** Frame f starts the subroutine c. */
  ghost predicate Starts(s: State, t: State, f: FrameId, c: FrameId, slot: nat) {
    && f in s.heap && f in t.heap && f != c && Only(s, t, {f, c})
    && s.heap[f].point.Running? && s.heap[f].role.Program? && s.heap[f].code.Start? && slot == s.heap[f].code.slot
    && slot in s.heap[f].slots && s.heap[f].slots[slot] == c && Enters(s, t, c) && s.heap[c].role.Program?
    && t.heap[f] == s.heap[f].(code := s.heap[f].code.next, slots := s.heap[f].slots - {slot}, types := t.heap[f].types,
                               point := AtStart(slot, c))
    && s.stack != [] && t.stack == Pop(s.stack) + [Starter(f, c), Body(c)]
    && s.heap[c].owner == HeldBy(f, Slot(slot))
  }

  lemma StartDoes(s: State, f: FrameId, t: State)
    requires CoreAt(s, f) && IsRunning(s, f) && s.heap[f].code.Start?
    requires StepStart(s, f, s.heap[f].code.slot, s.heap[f].code.next) == Next(t)
    ensures s.heap[f].code.slot in s.heap[f].slots
    ensures Starts(s, t, f, s.heap[f].slots[s.heap[f].code.slot], s.heap[f].code.slot)
  {
    Here(s, f);
    InVariable(s, f, s.heap[f].code.slot);
  }

  lemma StartingFirst(s: State, f: FrameId, c: FrameId, slot: nat, t: State)
    requires Inv(s) && Starts(s, t, f, c, slot) && KindsKept(s, t, {})
    ensures FirstOk(t, f) && TiedOk(t, f)
  {
    assert FirstOk(s, f);
    if f in s.young {
      assert HoldOk(s, f, Slot(slot));
      FirstsKept(s, t, f, t.heap[f], {slot}, {});
      assert Firsts(t, t.heap[f])[slot := FirstAt(t, c)] == Firsts(s, s.heap[f]);
      forall place ensures KidFrom(s, t, f, place) {
        assert HoldOk(s, f, place);
        if Hold(t.heap[f], place).Some? { Look(s, t, {f, c}, Hold(t.heap[f], place).value); }
      }
      KidsFrom(s, t, f);
    }
  }

  /** Frame f hands the task c to the new LaunchChild l. */
  ghost predicate Crosses(s: State, t: State, f: FrameId, c: FrameId, l: FrameId, slot: nat) {
    && f in s.heap && f in t.heap && c in s.heap && c in t.heap && l !in s.heap && l in t.heap && f != c
    && Only(s, t, {f, c, l}) && l < t.next && s.stack != []
    && s.heap[f].point.Running? && s.heap[f].executor.Some? && s.heap[f].role.Program?
    && s.heap[f].code.Cross? && slot == s.heap[f].code.slot
    && slot in s.heap[f].slots && s.heap[f].slots[slot] == c
    && s.heap[c].executor == None && s.heap[c].role.Program? && s.heap[c].owner == HeldBy(f, Slot(slot))
    && (var fr, on, body := s.heap[f], s.heap[f].code.on, s.heap[c].role.body;
        && s.heap[c].home == on
        && (fr.home.CompletionQueue? && on.CompletionQueue? ==> FirstOf(body, on).None?)
        && t.heap[f] == fr.(code := fr.code.next, slots := fr.slots - {slot}, types := t.heap[f].types,
                            point := AtCross(on, body, l, Some(c), None))
        && t.heap[c] == s.heap[c].(owner := HeldBy(f, Crossing))
        && t.heap[l] == NewLauncher(f, body, on).(point := t.heap[l].point)
        && (if on.Game? then t.heap[l].point.Initial? && t.young == s.young && t.stack == Pop(s.stack)
            else && t.heap[l].point.Running? && t.young == s.young[l := Some(Unit)]
                 && t.stack == Pop(s.stack) + [Resumer(l), Body(l)]))
  }

  lemma CrossIsWhole(s: State, f: FrameId, t: State)
    requires IsCross(s, f, t)
    ensures s.heap[f].code.slot in s.heap[f].slots
    ensures Crosses(s, t, f, s.heap[f].slots[s.heap[f].code.slot], s.next, s.heap[f].code.slot)
  {
    hide YoungOk, TagsOk, QueuesOk, StackOk, ActivesOk;
    CrossDoes(s, f, t);
    NextIsFree(s);
    Here(s, f);
    InVariable(s, f, s.heap[f].code.slot);
    assert FrameOk(s, s.heap[f].slots[s.heap[f].code.slot]);
  }

  lemma CrossFirst(s: State, f: FrameId, c: FrameId, l: FrameId, slot: nat, t: State)
    requires Inv(s) && Crosses(s, t, f, c, l, slot) && l >= s.next
    ensures YoungOk(t)
  {
    assert l !in s.young;
    CrossQuiet(s, f, c, l, slot, t);
    CrossingFirst(s, f, c, l, slot, t);
    CrossingTied(s, f, c, l, slot, t);
    assert FirstOk(s, c);
    hide Inv, FirstOk, TiedOk;
    LauncherFirst(t, l);
    TaskAside(s, c);
    UnstartedFirst(t, c);
    YoungElsewhere(s, t, {f, c, l}, {});
  }

  lemma CrossQuiet(s: State, f: FrameId, c: FrameId, l: FrameId, slot: nat, t: State)
    requires Crosses(s, t, f, c, l, slot) && l !in s.young
    ensures Quiet(s, t, {f, c, l}, {})
  {
    KindsFrom(s, t, {f, c, l}, {});
  }

  /** A task that was not started is in its initial state, and not young. */
  lemma TaskAside(s: State, c: FrameId)
    requires Inv(s) && c in s.heap && s.heap[c].executor == None
    ensures s.heap[c].point.Initial? && c !in s.young && c < s.next
  {
    assert FrameOk(s, c) && FirstOk(s, c);
  }

  lemma LauncherFirst(t: State, l: FrameId)
    requires l in t.heap && t.heap[l].role.Launcher? && t.heap[l].code.Launch? && t.heap[l].executor.Some?
    requires t.heap[l].slots == map[] && (t.heap[l].point.Initial? || t.heap[l].point.Running?)
    requires l in t.young ==> t.young[l].Some? && t.heap[l].point.Running?
    ensures FirstOk(t, l) && TiedOk(t, l)
  {
    forall place ensures KidOk(t, l, place) {}
  }

  lemma UnstartedFirst(t: State, c: FrameId)
    requires c in t.heap && c !in t.young && t.heap[c].point.Initial?
    ensures FirstOk(t, c) && TiedOk(t, c)
  {
  }

  lemma CrossingFirst(s: State, f: FrameId, c: FrameId, l: FrameId, slot: nat, t: State)
    requires Inv(s) && Crosses(s, t, f, c, l, slot) && Quiet(s, t, {f, c, l}, {})
    ensures FirstOk(t, f)
  {
    assert FirstOk(s, f);
    if f in s.young {
      assert HoldOk(s, f, Slot(slot));
      FirstsKept(s, t, f, t.heap[f], {slot}, {});
      KidsStay(s, t, f, {f, c, l});
    }
  }

  lemma CrossingTied(s: State, f: FrameId, c: FrameId, l: FrameId, slot: nat, t: State)
    requires Crosses(s, t, f, c, l, slot)
    ensures TiedOk(t, f)
  {
  }

  lemma DetachDoesAll(s: State, f: FrameId, t: State)
    requires IsDetach(s, f, t)
    ensures s.heap[f].code.slot in s.heap[f].slots
    ensures LetsGo(s, t, f, s.heap[f].slots[s.heap[f].code.slot], s.heap[f].code.slot)
  {
    DetachDoes(s, f, t);
    Here(s, f);
    InVariable(s, f, s.heap[f].code.slot);
    assert FrameOk(s, s.heap[f].slots[s.heap[f].code.slot]);
  }

  /** Frame f spawns the task c. */
  ghost predicate LetsGo(s: State, t: State, f: FrameId, c: FrameId, slot: nat) {
    && f in s.heap && f in t.heap && c in s.heap && c in t.heap && f != c && Only(s, t, {f, c}) && s.stack != []
    && s.heap[f].point.Running? && s.heap[f].executor.Some? && s.heap[f].role.Program? && s.heap[f].code.Detach?
    && slot == s.heap[f].code.slot && slot in s.heap[f].slots && s.heap[f].slots[slot] == c
    && s.heap[c].executor == None && s.heap[c].role.Program? && s.heap[c].owner == HeldBy(f, Slot(slot))
    && s.heap[c].code == s.heap[c].role.body && s.heap[c].slots == map[] && s.heap[c].vals == []
    && s.heap[c].point.Initial?
    && t.heap[f] == s.heap[f].(code := s.heap[f].code.next, slots := s.heap[f].slots - {slot}, types := t.heap[f].types)
    && t.heap[c] == s.heap[c].(executor := t.heap[c].executor, destroyOnDone := true, owner := Detached,
                               point := t.heap[c].point)
    && t.heap[c].executor.Some?
    && (if s.heap[f].code.on.Game? then t.heap[c].point.Initial? && t.young == s.young && t.stack == s.stack
        else Enters(s, t, c) && t.stack == s.stack + [Resumer(c), Body(c)])
  }

  lemma DetachFirst(s: State, f: FrameId, c: FrameId, slot: nat, t: State)
    requires Inv(s) && LetsGo(s, t, f, c, slot)
    ensures YoungOk(t)
  {
    TaskAside(s, c);
    DetachQuiet(s, f, c, slot, t);
    SpawnerFirst(s, f, c, slot, t);
    if s.heap[f].code.on.Game? { UnstartedFirst(t, c); } else { EntersFirst(s, t, c); }
    YoungElsewhere(s, t, {f, c}, {});
  }

  lemma DetachQuiet(s: State, f: FrameId, c: FrameId, slot: nat, t: State)
    requires LetsGo(s, t, f, c, slot) && c !in s.young && c < s.next
    ensures Quiet(s, t, {f, c}, {})
  {
    KindsFrom(s, t, {f, c}, {});
  }

  lemma SpawnerFirst(s: State, f: FrameId, c: FrameId, slot: nat, t: State)
    requires Inv(s) && LetsGo(s, t, f, c, slot) && Quiet(s, t, {f, c}, {})
    ensures FirstOk(t, f) && TiedOk(t, f)
  {
    assert FirstOk(s, f);
    if f in s.young {
      assert HoldOk(s, f, Slot(slot));
      FirstsKept(s, t, f, t.heap[f], {slot}, {});
      KidsStay(s, t, f, {f, c});
    }
  }

  // ---- LaunchChild ----

  lemma LaunchDoesAll(s: State, f: FrameId, p: FrameId, t: State)
    requires CoreAt(s, f) && IsRunning(s, f) && s.heap[f].code == Launch(p) && StepLaunch(s, f, p) == Next(t)
    ensures p in s.heap && s.heap[p].point.AtCross? && s.heap[p].point.held.Some?
    ensures var c := s.heap[p].point.held.value;
      && IsLaunch(s, t, f, p, c) && Enters(s, t, c) && s.heap[c].role.Program? && s.heap[f].role.Launcher?
      && s.heap[c].owner.HeldBy? && t.stack == Pop(s.stack) + [Awaiter(f, c), Body(c)]
  {
    hide YoungOk, TagsOk, QueuesOk, StackOk, ActivesOk, WellFormed, First;
    Here(s, f);
    assert CarrierOk(s, f) && HoldOk(s, p, Crossing);
    var c := s.heap[p].point.held.value;
    assert OwnerOk(s, c) && FrameOk(s, c) && FrameOk(s, p);
  }

  lemma LaunchFirst(s: State, f: FrameId, p: FrameId, c: FrameId, t: State)
    requires Inv(s) && IsLaunch(s, t, f, p, c) && Enters(s, t, c) && s.heap[c].role.Program? && s.heap[f].role.Launcher?
    requires s.stack != [] && t.stack == Pop(s.stack) + [Awaiter(f, c), Body(c)]
    ensures YoungOk(t)
  {
    EntersFirst(s, t, c);
    LaunchQuiet(s, f, p, c, t);
    WaiterFirst(s, f, p, c, t);
    LaunchingFirst(s, f, p, c, t);
    YoungElsewhere(s, t, {f, p, c}, {});
  }

  lemma LaunchQuiet(s: State, f: FrameId, p: FrameId, c: FrameId, t: State)
    requires IsLaunch(s, t, f, p, c) && Enters(s, t, c) && c !in s.young && c < s.next
    requires s.stack != [] && t.stack == Pop(s.stack) + [Awaiter(f, c), Body(c)]
    ensures Quiet(s, t, {f, p, c}, {})
  {
    KindsFrom(s, t, {f, p, c}, {});
  }

  lemma WaiterFirst(s: State, f: FrameId, p: FrameId, c: FrameId, t: State)
    requires Inv(s) && IsLaunch(s, t, f, p, c) && Enters(s, t, c) && Quiet(s, t, {f, p, c}, {})
    requires s.stack != [] && t.stack == Pop(s.stack) + [Awaiter(f, c), Body(c)]
    ensures FirstOk(t, p) && TiedOk(t, p)
  {
    assert FirstOk(s, p) && FrameOk(s, p);
    WaiterTied(s, f, p, c, t);
    if p in s.young {
      FirstsKept(s, t, p, t.heap[p], {}, {});
      KidsStay(s, t, p, {f, p, c});
    }
  }

  lemma WaiterTied(s: State, f: FrameId, p: FrameId, c: FrameId, t: State)
    requires Inv(s) && IsLaunch(s, t, f, p, c) && Enters(s, t, c) && Quiet(s, t, {f, p, c}, {})
    requires s.stack != [] && t.stack == Pop(s.stack) + [Awaiter(f, c), Body(c)]
    ensures TiedOk(t, p)
  {
    assert FirstOk(s, p) && TiedOk(s, p) && CarrierOk(s, f) && FrameOk(s, f);
    if OnStack(t, p) {
      var k :| 0 <= k < |t.stack| && Subject(t.stack[k]) == p;
      assert t.stack[k] in s.stack;
    }
  }

  lemma LaunchingFirst(s: State, f: FrameId, p: FrameId, c: FrameId, t: State)
    requires Inv(s) && IsLaunch(s, t, f, p, c) && Enters(s, t, c) && s.heap[f].role.Launcher?
    ensures FirstOk(t, f) && TiedOk(t, f)
  {
    assert FirstOk(s, f) && FrameOk(s, f);
    if f in t.young {
      forall place ensures KidOk(t, f, place) {}
    }
  }

  /** The two frames a hand-over writes. */
  ghost predicate BackWrites(s: State, f: FrameId, p: FrameId, t: State) {
    && f in s.heap && p in s.heap && f in t.heap && p in t.heap && f != p && Only(s, t, {f, p})
    && s.heap[f].code == HandBack(p) && s.heap[f].vals != []
    && t.heap[f] == s.heap[f].(code := t.heap[f].code) && t.heap[f].code.Return?
    && s.heap[p].point.AtCross?
    && var v := s.heap[f].vals[|s.heap[f].vals| - 1];
       t.heap[p] == if s.heap[p].home.Game? then s.heap[p].(point := s.heap[p].point.(delivered := Some(v)))
                    else s.heap[p].(point := Running, vals := s.heap[p].vals + [v])
  }

  lemma BackDoes(s: State, f: FrameId, t: State)
    requires IsBack(s, f, t)
    ensures BackWrites(s, f, s.heap[f].code.waiter, t)
  {
    hide WellFormed, First, LauncherOk, YoungOk, TagsOk, QueuesOk;
    Here(s, f);
    var p := s.heap[f].code.waiter;
    assert CarrierOk(s, f) && FrameOk(s, p);
  }

  lemma BackCalls(s: State, f: FrameId, t: State)
    requires IsBack(s, f, t)
    ensures f in s.heap && s.heap[f].point.Running? && s.heap[f].role.Launcher? && t.young == s.young
    ensures var p := s.heap[f].code.waiter;
      && p in s.heap && t.stack == s.stack + if s.heap[p].home.Game? then [] else [Resumer(p), Body(p)]
  {
    Here(s, f);
    var p := s.heap[f].code.waiter;
    assert CarrierOk(s, f) && FrameOk(s, p);
  }

  /** While the LaunchChild of a young waiter hands over, the value is the one `First` gives, and a
      waiter on a completion queue is off the stack. */
  lemma HandOverAge(s: State, f: FrameId, p: FrameId)
    requires Inv(s) && f in s.heap && s.heap[f].code == HandBack(p) && s.heap[f].point.Running?
    ensures p in s.heap && IsWaiting(s.heap[p]) && s.heap[p].point.launcher == f && |s.heap[f].vals| == 1
    ensures s.heap[p].home.CompletionQueue? ==> !OnStack(s, p)
    ensures s.heap[p].home.CompletionQueue? && p in s.young ==>
      && s.heap[p].point.on.CompletionQueue?
      && FirstOf(s.heap[p].point.body, s.heap[p].point.on) == Some(s.heap[f].vals[0])
  {
    assert FrameOk(s, f) && CarrierOk(s, f) && FirstOk(s, f);
    assert TiedOk(s, p);
  }

  lemma HandBackIsClear(s: State, f: FrameId)
    requires Inv(s) && f in s.heap && s.heap[f].point.Running?
    ensures HandClear(s, f)
  {
    if s.heap[f].code.HandBack? {
      var p := s.heap[f].code.waiter;
      HandOverAge(s, f, p);
      forall k | 0 <= k < |s.stack| ensures s.heap[p].home.CompletionQueue? ==> Subject(s.stack[k]) != p {
        assert Subject(s.stack[k]) == p ==> OnStack(s, p);
      }
    }
  }

  lemma HandBackFirst(s: State, f: FrameId, p: FrameId, t: State)
    requires Inv(s) && BackWrites(s, f, p, t) && s.heap[f].point.Running? && s.heap[f].role.Launcher?
    requires t.young == s.young
    requires t.stack == s.stack + if s.heap[p].home.Game? then [] else [Resumer(p), Body(p)]
    ensures YoungOk(t)
  {
    KindsFrom(s, t, {f, p}, {});
    assert Quiet(s, t, {f, p}, {});
    BackedFirst(s, f, p, t);
    CarriedFirst(s, f, p, t);
    hide Inv, FirstOk, TiedOk;
    YoungElsewhere(s, t, {f, p}, {});
  }

  lemma BackedFirst(s: State, f: FrameId, p: FrameId, t: State)
    requires Inv(s) && BackWrites(s, f, p, t) && s.heap[f].point.Running? && Quiet(s, t, {f, p}, {})
    requires t.young == s.young
    ensures FirstOk(t, p) && TiedOk(t, p)
  {
    assert FirstOk(s, p) && FrameOk(s, p);
    HandOverAge(s, f, p);
    if p in s.young {
      FirstsKept(s, t, p, t.heap[p], {}, {});
      KidsStay(s, t, p, {f, p});
    }
  }

  lemma CarriedFirst(s: State, f: FrameId, p: FrameId, t: State)
    requires Inv(s) && BackWrites(s, f, p, t) && s.heap[f].point.Running? && s.heap[f].role.Launcher?
    requires t.young == s.young
    ensures FirstOk(t, f) && TiedOk(t, f)
  {
    assert FirstOk(s, f) && FrameOk(s, f);
    if f in t.young {
      forall place ensures KidOk(t, f, place) {}
    }
  }

  // ---- calls coming back ----

  lemma SweptFirst(s: State, f: FrameId, t: State)
    requires Inv(s) && f in s.heap && s.heap[f].point.Final? && s.heap[f].owner.Detached? && s.stack != []
    requires t == s.(heap := s.heap - {f}, stack := Pop(s.stack))
    ensures YoungOk(t)
  {
    KindsFrom(s, t, {f}, {f});
    YoungElsewhere(s, t, {f}, {f});
  }

  lemma ReturnedFirst(s: State, t: State)
    requires Inv(s) && s.stack != [] && t == s.(stack := Pop(s.stack))
    ensures YoungOk(t)
  {
    YoungElsewhere(s, t, {}, {});
  }

  /** Going on with the result of an awaited task. */
  lemma TookFirst(s: State, t: State, p: FrameId, c: FrameId)
    requires Inv(s) && Took(s, t, p, c) && t.young == s.young && SameCalls(s, t, {p, c})
    ensures YoungOk(t)
  {
    KindsFrom(s, t, {p, c}, {c});
    TakerFirst(s, t, p, c);
    assert Quiet(s, t, {p, c}, {c});
    YoungElsewhere(s, t, {p, c}, {c});
  }

  lemma TakerFirst(s: State, t: State, p: FrameId, c: FrameId)
    requires Inv(s) && Took(s, t, p, c) && t.young == s.young && KindsKept(s, t, {c})
    ensures FirstOk(t, p) && TiedOk(t, p)
  {
    assert FirstOk(s, p) && FrameOk(s, p) && OwnerOk(s, c) && FrameOk(s, c);
    if p in s.young {
      KidFinished(s, p, Awaiting, c);
      FirstsKept(s, t, p, t.heap[p], {}, {c});
      KidsStay(s, t, p, {p, c});
    }
  }

  /** The body of p goes on with the started task c in its variable. */
  ghost predicate GoesOnWith(s: State, t: State, p: FrameId, c: FrameId) {
    && p in s.heap && p in t.heap && c in s.heap && c in t.heap && p != c
    && Only(s, t, {p, c}) && t.young == s.young && s.heap[p].role.Program? && s.heap[p].executor.Some?
    && s.heap[c].role.Program?
    && s.heap[p].point.AtStart? && s.heap[p].point.child == c && s.heap[c].owner == HeldBy(p, Starting)
    && t.heap[p] == s.heap[p].(point := Running, slots := s.heap[p].slots[s.heap[p].point.slot := c])
    && t.heap[c] == s.heap[c].(owner := t.heap[c].owner)
    && s.stack != [] && t.stack == Pop(s.stack) + [Body(p)] && s.heap[c].executor.Some?
  }

  lemma StarterDoes(s: State, p: FrameId, c: FrameId, t: State)
    requires CoreAtCall(s) && Top(s) == Starter(p, c) && StepStarter(s, p, c) == Next(t)
    ensures GoesOnWith(s, t, p, c)
  {
    CallHere(s, c);
    assert HoldOk(s, p, Starting) && FrameOk(s, p) && FrameOk(s, c);
  }

  lemma StarterFirst(s: State, p: FrameId, c: FrameId, t: State)
    requires Inv(s) && GoesOnWith(s, t, p, c)
    ensures YoungOk(t)
  {
    hide YoungOk, TagsOk, QueuesOk, StackOk, ActivesOk, WellFormed, First;
    KindsFrom(s, t, {p, c}, {});
    StartedFirst(s, p, c, t);
    NotCarrier(s, p);
    NotCarrier(s, c);
    HeldIsEntered(s, c);
    SameFirst(s, t, c, {p, c});
    YoungElsewhere(s, t, {p, c}, {});
  }

  lemma StartedFirst(s: State, p: FrameId, c: FrameId, t: State)
    requires Inv(s) && GoesOnWith(s, t, p, c) && KindsKept(s, t, {})
    ensures FirstOk(t, p) && TiedOk(t, p)
  {
    assert FirstOk(s, p);
    if p in s.young {
      FirstsKept(s, t, p, s.heap[p], {}, {});
      assert Firsts(t, t.heap[p]) == Firsts(s, s.heap[p])[s.heap[p].point.slot := FirstAt(s, c)];
      forall place ensures KidFrom(s, t, p, place) {
        assert HoldOk(s, p, place);
        if Hold(t.heap[p], place).Some? { Look(s, t, {p, c}, Hold(t.heap[p], place).value); }
      }
      KidsFrom(s, t, p);
    }
  }

  // ---- one step ----

  lemma BodyKeepsYoung(s: State, f: FrameId, t: State)
    requires At(s, f) && IsRunning(s, f) && StepBody(s, f) == Next(t)
    ensures YoungOk(t)
  {
    Here(s, f);
    var fr := s.heap[f];
    match fr.code
    case Make(_, _, _, _) => MakeFirst(s, f, t);
    case Await(slot, _) => InVariable(s, f, slot); AwaitFirst(s, f, t);
    case Start(_, _) => StartFirst(s, f, t);
    case Cross(_, _, _) => CrossIsWhole(s, f, t); CrossFirst(s, f, fr.slots[fr.code.slot], s.next, fr.code.slot, t);
    case Detach(_, _, _) => DetachDoesAll(s, f, t); DetachFirst(s, f, fr.slots[fr.code.slot], fr.code.slot, t);
    case Launch(p) => LaunchDoesAll(s, f, p, t); LaunchFirst(s, f, p, s.heap[p].point.held.value, t);
    case HandBack(p) => BackDoes(s, f, t); BackCalls(s, f, t); HandBackFirst(s, f, p, t);
    case _ => PlainDoes(s, f, t); PlainFirst(s, f, t);
  }

  lemma AwaitFirst(s: State, f: FrameId, t: State)
    requires Inv(s) && IsAwait(s, f, t)
    ensures YoungOk(t)
  {
    if s.heap[Awaited(s, f)].point.Final? { AwaitFinishedFirst(s, f, t); } else { AwaitPendingFirst(s, f, t); }
  }

  lemma CallKeepsYoung(s: State, t: State)
    requires AtCall(s) && Step(s) == Next(t)
    ensures YoungOk(t)
  {
    CallHere(s, Subject(Top(s)));
    match Top(s)
    case Starter(p, c) => StarterDoes(s, p, c, t); StarterFirst(s, p, c, t);
    case Awaiter(p, c) =>
      if s.heap[c].point.Final? { AwaiterTakes(s, p, c, t); TookFirst(s, t, p, c); } else { ReturnedFirst(s, t); }
    case Resumer(f) =>
      if Ended(s, f) && s.heap[f].owner.HeldBy? {
        ResumerTakes(s, f, s.heap[f].owner.frame, t);
        TookFirst(s, t, s.heap[f].owner.frame, f);
      } else if Ended(s, f) {
        SweptFirst(s, f, t);
      } else {
        ReturnedFirst(s, t);
      }
  }

  lemma AwaiterTakes(s: State, p: FrameId, c: FrameId, t: State)
    requires CoreAtCall(s) && Top(s) == Awaiter(p, c) && c in s.heap && s.heap[c].point.Final?
    requires StepAwaiter(s, p, c) == Next(t)
    ensures Took(s, t, p, c) && t.young == s.young && SameCalls(s, t, {p, c})
  {
    CallHere(s, c);
    assert HoldOk(s, p, Awaiting) && FrameOk(s, p);
  }

  lemma ResumerTakes(s: State, f: FrameId, p: FrameId, t: State)
    requires CoreAtCall(s) && Top(s) == Resumer(f) && f in s.heap && s.heap[f].point.Final?
    requires s.heap[f].owner == HeldBy(p, Awaiting) && StepResumer(s, f) == Next(t)
    ensures Took(s, t, p, f) && t.young == s.young && SameCalls(s, t, {p, f})
  {
    hide HeapOk, TagsOk, QueuesOk, StackOk, ActivesOk;
    ParentWaits(s, f, p);
  }

  lemma ParentWaits(s: State, f: FrameId, p: FrameId)
    requires CoreAtCall(s) && Top(s) == Resumer(f) && f in s.heap && s.heap[f].owner == HeldBy(p, Awaiting)
    ensures p in s.heap && p != f && s.heap[p].point == AtTask(f) && f < s.next && p < s.next
    ensures s.heap[f].parent == Some(p) && !s.heap[f].destroyOnDone
  {
    CallHere(s, f);
    assert FrameOk(s, p) && FrameOk(s, f);
  }

  /** No step of a reachable segment faults, and every one keeps the invariant. */
  lemma StepKeepsInv(s: State)
    requires Inv(s) && s.stack != []
    ensures Step(s).Next? && Inv(Step(s).state)
  {
    if Top(s).Body? {
      var f := Top(s).frame;
      Here(s, f);
      HandBackIsClear(s, f);
      StepKeepsCore(s);
      BodyKeepsYoung(s, f, Step(s).state);
    } else {
      StepKeepsCore(s);
      CallKeepsYoung(s, Step(s).state);
    }
  }
}
