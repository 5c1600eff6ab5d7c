/** How the heap invariant survives each way a step rewrites frames.

    The heap part of the invariant speaks about single frames, about each task and the place that holds
    it, and about each cross-awaiting frame and the LaunchChild that owes it a result. A step rewrites at
    most three frames. Each way it does so has a predicate here (`IsLocal`, `IsRelease`, `IsRehold`,
    `IsMake`, `IsRoot`, `IsSweep`, `IsLetGo`, `IsCrossing`, `IsLaunch`, `IsHandBack`) and a lemma that it
    keeps the heap part; the proofs go through the frames that changed one by one and leave the others to
    `Look`. The steps of all operations are instances of these few shapes. */
module HeapLemmas {
  import opened Programs
  import opened Machine
  import opened Invariants

  ghost predicate Same(s: State, t: State, d: FrameId) {
    (d in s.heap <==> d in t.heap) && (d in s.heap ==> t.heap[d] == s.heap[d])
  }

  /** Frames outside `changed` are as they were. */
  ghost predicate Only(s: State, t: State, changed: set<FrameId>) {
    s.next <= t.next && forall d {:trigger Same(s, t, d)} | d !in changed :: Same(s, t, d)
  }

  lemma Look(s: State, t: State, changed: set<FrameId>, d: FrameId)
    requires Only(s, t, changed)
    ensures d in changed || Same(s, t, d)
  {
  }

  /** The parts of a frame its neighbours rely on are the same. */
  ghost predicate Stable(fr: Frame, to: Frame) {
    && to.role == fr.role && to.home == fr.home && to.executor == fr.executor
    && (IsCarrier(fr) || IsCarrier(to) ==> to.code == fr.code)
  }

  ghost predicate SelfOk(fr: Frame) {
    LocalOk(fr) && TypedOk(fr)
  }

  ghost predicate TypesKept(fr: Frame, to: Frame, except: set<Place>) {
    forall i {:trigger Slot(i)} | i in fr.types && Slot(i) !in except :: i in to.types && to.types[i] == fr.types[i]
  }

  /** A holder that changes keeps a task it goes on holding. */
  lemma EdgeKept(g: FrameId, fr: Frame, to: Frame, at: Place, d: FrameId, task: Frame)
    requires EdgeOk(g, fr, at, d, task) && Stable(fr, to) && Hold(to, at) == Some(d) && !at.Crossing?
    requires at.Slot? ==> at.slot in to.types && at.slot in fr.types && to.types[at.slot] == fr.types[at.slot]
    ensures EdgeOk(g, to, at, d, task)
  {
  }

  // ---- frame f changes, but holds what it held and is held where it was ----

  ghost predicate IsLocal(s: State, t: State, f: FrameId) {
    && f in s.heap && f in t.heap && Only(s, t, {f})
    && Stable(s.heap[f], t.heap[f]) && SelfOk(t.heap[f])
    && t.heap[f].owner == s.heap[f].owner && t.heap[f].types == s.heap[f].types
    && !IsWaiting(s.heap[f]) && !IsWaiting(t.heap[f])
    && (forall at :: Hold(t.heap[f], at) == Hold(s.heap[f], at))
  }

  lemma LocalChange(s: State, t: State, f: FrameId)
    requires HeapOk(s) && IsLocal(s, t, f)
    ensures HeapOk(t)
  {
    hide WellFormed, First, LauncherOk, YoungOk, TagsOk, QueuesOk;
    assert FrameOk(s, f);
    assert Hold(s.heap[f], Crossing) == None;
    forall g | g in t.heap ensures FrameOk(t, g) { Look(s, t, {f}, g); assert FrameOk(s, g); }
    forall g | g in t.heap ensures OwnerOk(t, g) {
      Look(s, t, {f}, g);
      assert OwnerOk(s, g);
      if s.heap[g].owner.HeldBy? {
        Look(s, t, {f}, s.heap[g].owner.frame);
        assert Hold(t.heap[f], s.heap[g].owner.place) == Hold(s.heap[f], s.heap[g].owner.place);
      }
    }
    forall g, at | g in t.heap ensures HoldOk(t, g, at) {
      Look(s, t, {f}, g);
      assert HoldOk(s, g, at);
      if Hold(s.heap[g], at).Some? { Look(s, t, {f}, Hold(s.heap[g], at).value); }
    }
    HandsElsewhere(s, t, {f});
  }

  /** No frame of `changed` takes part in a hand-over, except unchanged ends of one. */
  lemma HandsElsewhere(s: State, t: State, changed: set<FrameId>)
    requires FramesOk(s) && WaitersOk(s) && CarriersOk(s) && Only(s, t, changed)
    requires forall d | d in changed && d in t.heap :: d in s.heap && HandSide(s.heap[d]) == HandSide(t.heap[d])
    requires forall d | d in changed && d in s.heap && d !in t.heap :: !IsWaiting(s.heap[d]) && !IsCarrier(s.heap[d])
    ensures WaitersOk(t) && CarriersOk(t)
  {
    forall g | g in t.heap ensures WaiterOk(t, g) {
      Look(s, t, changed, g);
      assert WaiterOk(s, g);
      if IsWaiting(s.heap[g]) { Look(s, t, changed, s.heap[g].point.launcher); }
    }
    forall g | g in t.heap ensures CarrierOk(t, g) {
      Look(s, t, changed, g);
      assert CarrierOk(s, g) && FrameOk(s, g);
      if IsCarrier(s.heap[g]) { Look(s, t, changed, s.heap[g].role.waiter); }
    }
  }

  /** A changed task is held as before, unless its holder changed too. */
  ghost predicate HolderKnows(s: State, t: State, changed: set<FrameId>, c: FrameId) {
    c in s.heap && s.heap[c].owner.HeldBy? && s.heap[c].owner.frame !in changed ==>
      c in t.heap && t.heap[c].owner == s.heap[c].owner
  }

  lemma HoldsElsewhere(s: State, t: State, changed: set<FrameId>)
    requires HoldsOk(s) && Only(s, t, changed)
    requires forall c | c in changed :: HolderKnows(s, t, changed, c)
    requires forall d, at | d in changed && d in t.heap :: HoldOk(t, d, at)
    ensures HoldsOk(t)
  {
    forall d, at | d in t.heap ensures HoldOk(t, d, at) {
      Look(s, t, changed, d);
      if d !in changed {
        assert HoldOk(s, d, at);
        if Hold(s.heap[d], at).Some? {
          var c := Hold(s.heap[d], at).value;
          Look(s, t, changed, c);
          assert c in changed ==> HolderKnows(s, t, changed, c);
        }
      }
    }
  }

  /** What a hand-over depends on. */
  ghost function HandSide(fr: Frame): (Role, Executor, bool, Option<Code>, Option<Point>) {
    (fr.role, fr.home, IsCarrier(fr), if IsCarrier(fr) then Some(fr.code) else None,
     if IsWaiting(fr) then Some(fr.point) else None)
  }

  // ---- frame g gives up the finished task c, which is destroyed ----

  ghost predicate IsRelease(s: State, t: State, g: FrameId, place: Place, c: FrameId) {
    && g in s.heap && g in t.heap && c in s.heap && c !in t.heap && Only(s, t, {g, c})
    && s.heap[c].point.Final? && s.heap[c].owner == HeldBy(g, place)
    && Stable(s.heap[g], t.heap[g]) && SelfOk(t.heap[g])
    && t.heap[g].owner == s.heap[g].owner
    && TypesKept(s.heap[g], t.heap[g], {place})
    && !IsWaiting(s.heap[g]) && !IsWaiting(t.heap[g])
    && (forall at :: Hold(t.heap[g], at) == if at == place then None else Hold(s.heap[g], at))
  }

  lemma Release(s: State, t: State, g: FrameId, place: Place, c: FrameId)
    requires HeapOk(s) && IsRelease(s, t, g, place, c)
    ensures HeapOk(t)
  {
    assert FrameOk(s, g) && FrameOk(s, c) && OwnerOk(s, c);
    forall d | d in t.heap ensures FrameOk(t, d) { Look(s, t, {g, c}, d); assert FrameOk(s, d); }
    ReleaseEdges(s, t, g, place, c);
    HandsElsewhere(s, t, {g, c});
  }

  lemma ReleaseEdges(s: State, t: State, g: FrameId, place: Place, c: FrameId)
    requires HeapOk(s) && IsRelease(s, t, g, place, c)
    ensures OwnersOk(t) && HoldsOk(t)
  {
    hide YoungOk, WellFormed, First;
    assert FrameOk(s, g) && FrameOk(s, c);
    assert Hold(t.heap[g], Crossing) == None;
    forall d | d in t.heap ensures OwnerOk(t, d) {
      Look(s, t, {g, c}, d);
      assert OwnerOk(s, d) && OwnerOk(s, c);
      if s.heap[d].owner.HeldBy? {
        var h, at := s.heap[d].owner.frame, s.heap[d].owner.place;
        Look(s, t, {g, c}, h);
        assert Hold(t.heap[g], at) == if at == place then None else Hold(s.heap[g], at);
      }
    }
    forall d, at | d in t.heap ensures HoldOk(t, d, at) {
      Look(s, t, {g, c}, d);
      assert HoldOk(s, d, at);
      if Hold(s.heap[d], at).Some? { Look(s, t, {g, c}, Hold(s.heap[d], at).value); }
    }
  }

  // ---- frame g moves the task c from one of its places to another ----

  ghost predicate IsRehold(s: State, t: State, g: FrameId, place: Place, c: FrameId, to: Place) {
    && g in s.heap && g in t.heap && c in s.heap && c in t.heap && c != g && Only(s, t, {g, c})
    && place != to && Hold(s.heap[g], to) == None
    && s.heap[c].owner == HeldBy(g, place) && t.heap[c].owner == HeldBy(g, to)
    && Stable(s.heap[g], t.heap[g]) && SelfOk(t.heap[g])
    && t.heap[g].owner == s.heap[g].owner
    && TypesKept(s.heap[g], t.heap[g], {place, to})
    && !IsWaiting(s.heap[g]) && !IsWaiting(t.heap[g])
    && (forall at :: Hold(t.heap[g], at) ==
          if at == place then None else if at == to then Some(c) else Hold(s.heap[g], at))
    && EdgeOk(g, t.heap[g], to, c, t.heap[c])
    && Moved(s.heap[c], t.heap[c])
  }

  /** A held task whose owner changes: not started yet, or otherwise left alone. */
  ghost predicate Moved(fr: Frame, to: Frame) {
    && SelfOk(to)
    && if fr.executor == None
       then
         && to == fr.(owner := to.owner, parent := to.parent, executor := to.executor, point := to.point)
         && (to.point.Running? || to.point.Initial?)
       else to == fr.(owner := to.owner, parent := to.parent)
  }

  lemma Rehold(s: State, t: State, g: FrameId, place: Place, c: FrameId, to: Place)
    requires HeapOk(s) && IsRehold(s, t, g, place, c, to)
    ensures HeapOk(t)
  {
    hide WellFormed, First, LauncherOk, YoungOk, TagsOk, QueuesOk;
    assert FrameOk(s, g) && FrameOk(s, c) && OwnerOk(s, c);
    forall d | d in t.heap ensures FrameOk(t, d) { Look(s, t, {g, c}, d); assert FrameOk(s, d); }
    ReholdEdges(s, t, g, place, c, to);
    HandsElsewhere(s, t, {g, c});
  }

  lemma ReholdEdges(s: State, t: State, g: FrameId, place: Place, c: FrameId, to: Place)
    requires HeapOk(s) && IsRehold(s, t, g, place, c, to)
    ensures OwnersOk(t) && HoldsOk(t)
  {
    assert FrameOk(s, g) && FrameOk(s, c);
    forall d | d in t.heap ensures OwnerOk(t, d) {
      Look(s, t, {g, c}, d);
      assert OwnerOk(s, d);
      if d != c && s.heap[d].owner.HeldBy? {
        var h, at := s.heap[d].owner.frame, s.heap[d].owner.place;
        if h == g {
          ReholdOther(s, t, g, place, c, to, d);
        } else {
          Look(s, t, {g, c}, h);
        }
      }
    }
    ReholdHolds(s, t, g, place, c, to);
  }

  /** The other tasks of g stay where they are. */
  lemma ReholdOther(s: State, t: State, g: FrameId, place: Place, c: FrameId, to: Place, d: FrameId)
    requires HeapOk(s) && IsRehold(s, t, g, place, c, to)
    requires d in s.heap && d != c && d != g && s.heap[d].owner.HeldBy? && s.heap[d].owner.frame == g
    ensures d in t.heap && OwnerOk(t, d)
  {
    var at := s.heap[d].owner.place;
    assert OwnerOk(s, d) && OwnerOk(s, c) && Hold(t.heap[g], Crossing) == None;
    Look(s, t, {g, c}, d);
    assert at != place && at != to;
    assert Hold(t.heap[g], at) == Hold(s.heap[g], at);
    EdgeKept(g, s.heap[g], t.heap[g], at, d, s.heap[d]);
  }

  lemma ReholdHolds(s: State, t: State, g: FrameId, place: Place, c: FrameId, to: Place)
    requires HeapOk(s) && IsRehold(s, t, g, place, c, to)
    ensures HoldsOk(t)
  {
    hide WellFormed, First, LauncherOk, YoungOk, TagsOk, QueuesOk;
    assert FrameOk(s, g) && FrameOk(s, c);
    forall d, at | d in {g, c} && d in t.heap ensures HoldOk(t, d, at) {
      if d in s.heap {
        assert HoldOk(s, d, at);
        if Hold(s.heap[d], at).Some? { Look(s, t, {g, c}, Hold(s.heap[d], at).value); }
      }
    }
    HoldsElsewhere(s, t, {g, c});
  }

  // ---- frame g creates the task c in one of its variables ----

  ghost predicate IsMake(s: State, t: State, g: FrameId, i: nat, c: FrameId) {
    && g in s.heap && g in t.heap && c !in s.heap && c in t.heap && c == s.next && t.next == c + 1
    && Only(s, t, {g, c})
    && Stable(s.heap[g], t.heap[g]) && SelfOk(t.heap[g]) && SelfOk(t.heap[c])
    && t.heap[g].owner == s.heap[g].owner
    && TypesKept(s.heap[g], t.heap[g], {Slot(i)})
    && !IsWaiting(s.heap[g]) && !IsWaiting(t.heap[g])
    && Hold(s.heap[g], Slot(i)) == None
    && (forall at :: Hold(t.heap[g], at) == if at == Slot(i) then Some(c) else Hold(s.heap[g], at))
    && t.heap[c].owner == HeldBy(g, Slot(i)) && EdgeOk(g, t.heap[g], Slot(i), c, t.heap[c])
    && t.heap[c].point.Initial?
  }

  lemma Create(s: State, t: State, g: FrameId, i: nat, c: FrameId)
    requires HeapOk(s) && IsMake(s, t, g, i, c)
    ensures HeapOk(t)
  {
    hide WellFormed, First, LauncherOk, YoungOk, TagsOk, QueuesOk;
    assert FrameOk(s, g);
    forall d | d in t.heap ensures FrameOk(t, d) { Look(s, t, {g, c}, d); if d in s.heap { assert FrameOk(s, d); } }
    assert Hold(t.heap[g], Crossing) == None;
    forall d | d in t.heap ensures OwnerOk(t, d) {
      Look(s, t, {g, c}, d);
      if d != c {
        assert OwnerOk(s, d);
        if s.heap[d].owner.HeldBy? {
          var h, at := s.heap[d].owner.frame, s.heap[d].owner.place;
          Look(s, t, {g, c}, h);
          assert Hold(t.heap[g], at) == if at == Slot(i) then Some(c) else Hold(s.heap[g], at);
        }
      }
    }
    CreateHolds(s, t, g, i, c);
    Appears(s, t, {g}, c);
  }

  lemma CreateHolds(s: State, t: State, g: FrameId, i: nat, c: FrameId)
    requires HeapOk(s) && IsMake(s, t, g, i, c)
    ensures HoldsOk(t)
  {
    assert FrameOk(s, g);
    forall d, at | d in {g, c} && d in t.heap ensures HoldOk(t, d, at) {
      if d in s.heap {
        assert HoldOk(s, d, at);
        if Hold(s.heap[d], at).Some? { Look(s, t, {g, c}, Hold(s.heap[d], at).value); }
      }
    }
    HoldsElsewhere(s, t, {g, c});
  }

  /** A fresh frame c that takes part in no hand-over. */
  lemma Appears(s: State, t: State, changed: set<FrameId>, c: FrameId)
    requires FramesOk(s) && WaitersOk(s) && CarriersOk(s) && Only(s, t, changed + {c})
    requires c !in s.heap && c in t.heap && !IsWaiting(t.heap[c]) && !IsCarrier(t.heap[c])
    requires forall d | d in changed :: d in s.heap && d in t.heap && HandSide(s.heap[d]) == HandSide(t.heap[d])
    ensures WaitersOk(t) && CarriersOk(t)
  {
    var touched := changed + {c};
    forall g | g in t.heap ensures WaiterOk(t, g) {
      Look(s, t, touched, g);
      if g != c {
        assert WaiterOk(s, g);
        if IsWaiting(s.heap[g]) { Look(s, t, touched, s.heap[g].point.launcher); }
      }
    }
    forall g | g in t.heap ensures CarrierOk(t, g) {
      Look(s, t, touched, g);
      if g != c {
        assert CarrierOk(s, g) && FrameOk(s, g);
        if IsCarrier(s.heap[g]) { Look(s, t, touched, s.heap[g].role.waiter); }
      }
    }
  }

  // ---- a detached frame appears, or disappears once it is finished ----

  ghost predicate IsRoot(s: State, t: State, c: FrameId) {
    && c !in s.heap && c in t.heap && c == s.next && t.next == c + 1 && Only(s, t, {c})
    && SelfOk(t.heap[c]) && t.heap[c].owner.Detached? && !IsCarrier(t.heap[c])
    && t.heap[c].slots == map[] && (t.heap[c].point.Initial? || t.heap[c].point.Running?)
  }

  lemma Root(s: State, t: State, c: FrameId)
    requires HeapOk(s) && IsRoot(s, t, c)
    ensures HeapOk(t)
  {
    forall d | d in t.heap ensures FrameOk(t, d) { Look(s, t, {c}, d); if d in s.heap { assert FrameOk(s, d); } }
    forall d | d in t.heap ensures OwnerOk(t, d) {
      Look(s, t, {c}, d);
      if d != c {
        assert OwnerOk(s, d);
        if s.heap[d].owner.HeldBy? { Look(s, t, {c}, s.heap[d].owner.frame); }
      }
    }
    forall d, at | d in t.heap ensures HoldOk(t, d, at) {
      Look(s, t, {c}, d);
      if d != c {
        assert HoldOk(s, d, at);
        if Hold(s.heap[d], at).Some? { Look(s, t, {c}, Hold(s.heap[d], at).value); }
      }
    }
    Appears(s, t, {}, c);
  }

  ghost predicate IsSweep(s: State, t: State, c: FrameId) {
    && c in s.heap && c !in t.heap && Only(s, t, {c})
    && s.heap[c].point.Final? && s.heap[c].owner.Detached?
  }

  lemma Sweep(s: State, t: State, c: FrameId)
    requires HeapOk(s) && IsSweep(s, t, c)
    ensures HeapOk(t)
  {
    assert FrameOk(s, c);
    forall d | d in t.heap ensures FrameOk(t, d) { Look(s, t, {c}, d); assert FrameOk(s, d); }
    forall d | d in t.heap ensures OwnerOk(t, d) {
      Look(s, t, {c}, d);
      assert OwnerOk(s, d);
      if s.heap[d].owner.HeldBy? { Look(s, t, {c}, s.heap[d].owner.frame); }
    }
    forall d, at | d in t.heap ensures HoldOk(t, d, at) {
      Look(s, t, {c}, d);
      assert HoldOk(s, d, at);
      if Hold(s.heap[d], at).Some? { Look(s, t, {c}, Hold(s.heap[d], at).value); }
    }
    HandsElsewhere(s, t, {c});
  }

  // ---- frame g lets the task c go: async_lib::Spawn from a task ----

  ghost predicate IsLetGo(s: State, t: State, g: FrameId, i: nat, c: FrameId) {
    && g in s.heap && g in t.heap && c in s.heap && c in t.heap && c != g && Only(s, t, {g, c})
    && s.heap[c].owner == HeldBy(g, Slot(i)) && t.heap[c].owner.Detached?
    && s.heap[c].executor == None && SelfOk(t.heap[c])
    && t.heap[c].role == s.heap[c].role && t.heap[c].home == s.heap[c].home && t.heap[c].code == s.heap[c].code
    && t.heap[c].slots == map[] && (t.heap[c].point.Initial? || t.heap[c].point.Running?)
    && Stable(s.heap[g], t.heap[g]) && SelfOk(t.heap[g])
    && t.heap[g].owner == s.heap[g].owner
    && TypesKept(s.heap[g], t.heap[g], {Slot(i)})
    && !IsWaiting(s.heap[g]) && !IsWaiting(t.heap[g])
    && (forall at :: Hold(t.heap[g], at) == if at == Slot(i) then None else Hold(s.heap[g], at))
  }

  lemma LetGo(s: State, t: State, g: FrameId, i: nat, c: FrameId)
    requires HeapOk(s) && IsLetGo(s, t, g, i, c)
    ensures HeapOk(t)
  {
    assert FrameOk(s, g) && FrameOk(s, c) && OwnerOk(s, c);
    forall d | d in t.heap ensures FrameOk(t, d) { Look(s, t, {g, c}, d); assert FrameOk(s, d); }
    LetGoEdges(s, t, g, i, c);
    HandsElsewhere(s, t, {g, c});
  }

  lemma LetGoEdges(s: State, t: State, g: FrameId, i: nat, c: FrameId)
    requires HeapOk(s) && IsLetGo(s, t, g, i, c)
    ensures OwnersOk(t) && HoldsOk(t)
  {
    hide YoungOk, WellFormed, First;
    assert FrameOk(s, g) && FrameOk(s, c) && OwnerOk(s, c);
    assert Hold(t.heap[g], Crossing) == None;
    forall d | d in t.heap ensures OwnerOk(t, d) {
      Look(s, t, {g, c}, d);
      assert OwnerOk(s, d);
      if s.heap[d].owner.HeldBy? {
        var h, at := s.heap[d].owner.frame, s.heap[d].owner.place;
        Look(s, t, {g, c}, h);
        assert Hold(t.heap[g], at) == if at == Slot(i) then None else Hold(s.heap[g], at);
      }
    }
    forall d, at | d in t.heap ensures HoldOk(t, d, at) {
      Look(s, t, {g, c}, d);
      assert HoldOk(s, d, at);
      if Hold(s.heap[d], at).Some? { Look(s, t, {g, c}, Hold(s.heap[d], at).value); }
    }
  }

  // ---- frame g crosses over: its task c goes to the awaitable, LaunchChild l appears ----

  ghost predicate IsCrossing(s: State, t: State, g: FrameId, i: nat, c: FrameId, l: FrameId) {
    && g in s.heap && g in t.heap && c in s.heap && c in t.heap && c != g
    && l == s.next && l !in s.heap && l in t.heap && t.next == l + 1 && Only(s, t, {g, c, l})
    && s.heap[c].owner == HeldBy(g, Slot(i)) && s.heap[c].executor == None
    && t.heap[c] == s.heap[c].(owner := HeldBy(g, Crossing))
    && t.heap[g].role == s.heap[g].role && t.heap[g].home == s.heap[g].home && t.heap[g].executor == s.heap[g].executor
    && !IsCarrier(s.heap[g]) && !IsCarrier(t.heap[g]) && SelfOk(t.heap[g])
    && t.heap[g].owner == s.heap[g].owner
    && TypesKept(s.heap[g], t.heap[g], {Slot(i)})
    && s.heap[g].point.Running? && IsWaiting(t.heap[g])
    && (forall at :: Hold(t.heap[g], at) ==
          if at == Slot(i) then None else if at == Crossing then Some(c) else Hold(s.heap[g], at))
    && EdgeOk(g, t.heap[g], Crossing, c, t.heap[c])
    && HandOk(g, t.heap[g], l, t.heap[l]) && SelfOk(t.heap[l])
    && (t.heap[l].point.Initial? || t.heap[l].point.Running?)
  }

  lemma CrossOver(s: State, t: State, g: FrameId, i: nat, c: FrameId, l: FrameId)
    requires HeapOk(s) && IsCrossing(s, t, g, i, c, l)
    ensures HeapOk(t)
  {
    assert FrameOk(s, g) && FrameOk(s, c) && OwnerOk(s, c);
    forall d | d in t.heap ensures FrameOk(t, d) { Look(s, t, {g, c, l}, d); if d != l { assert FrameOk(s, d); } }
    CrossOverEdges(s, t, g, i, c, l);
    CrossOverHands(s, t, g, i, c, l);
  }

  lemma CrossOverEdges(s: State, t: State, g: FrameId, i: nat, c: FrameId, l: FrameId)
    requires HeapOk(s) && IsCrossing(s, t, g, i, c, l)
    ensures OwnersOk(t) && HoldsOk(t)
  {
    assert FrameOk(s, g) && FrameOk(s, c) && OwnerOk(s, c);
    forall d | d in t.heap ensures OwnerOk(t, d) {
      Look(s, t, {g, c, l}, d);
      if d != l {
        assert OwnerOk(s, d);
        if s.heap[d].owner.HeldBy? {
          var h, at := s.heap[d].owner.frame, s.heap[d].owner.place;
          Look(s, t, {g, c, l}, h);
          assert Hold(t.heap[g], at) ==
            if at == Slot(i) then None else if at == Crossing then Some(c) else Hold(s.heap[g], at);
        }
      }
    }
    CrossOverHolds(s, t, g, i, c, l);
  }

  lemma CrossOverHolds(s: State, t: State, g: FrameId, i: nat, c: FrameId, l: FrameId)
    requires HeapOk(s) && IsCrossing(s, t, g, i, c, l)
    ensures HoldsOk(t)
  {
    assert FrameOk(s, g) && FrameOk(s, c);
    forall d, at | d in {g, c, l} && d in t.heap ensures HoldOk(t, d, at) {
      if d in s.heap {
        assert HoldOk(s, d, at);
        if Hold(s.heap[d], at).Some? { Look(s, t, {g, c, l}, Hold(s.heap[d], at).value); }
      }
    }
    HoldsElsewhere(s, t, {g, c, l});
  }

  lemma CrossOverHands(s: State, t: State, g: FrameId, i: nat, c: FrameId, l: FrameId)
    requires HeapOk(s) && IsCrossing(s, t, g, i, c, l)
    ensures WaitersOk(t) && CarriersOk(t)
  {
    assert FrameOk(s, c);
    var changed := {g, c, l};
    forall d | d in t.heap ensures WaiterOk(t, d) {
      Look(s, t, changed, d);
      if d in s.heap {
        assert WaiterOk(s, d);
        if IsWaiting(s.heap[d]) { Look(s, t, changed, s.heap[d].point.launcher); }
      }
    }
    forall d | d in t.heap ensures CarrierOk(t, d) {
      Look(s, t, changed, d);
      if d in s.heap {
        assert CarrierOk(s, d) && FrameOk(s, d);
        if IsCarrier(s.heap[d]) { Look(s, t, changed, s.heap[d].role.waiter); }
      }
    }
  }

  // ---- LaunchChild l awaits the task c held by its waiter's awaitable ----

  ghost predicate IsLaunch(s: State, t: State, l: FrameId, p: FrameId, c: FrameId) {
    && l in s.heap && l in t.heap && p in s.heap && p in t.heap && c in s.heap && c in t.heap
    && l != p && l != c && p != c && Only(s, t, {l, p, c})
    && s.heap[l].point.Running? && s.heap[l].code == Launch(p)
    && t.heap[l] == s.heap[l].(code := HandBack(p), point := AtTask(c))
    && IsWaiting(s.heap[p]) && s.heap[p].point.held == Some(c)
    && t.heap[p] == s.heap[p].(point := s.heap[p].point.(held := None))
    && t.heap[c] == s.heap[c].(parent := Some(l), executor := s.heap[l].executor, point := Running,
                               owner := HeldBy(l, Awaiting))
  }

  lemma LaunchTask(s: State, t: State, l: FrameId, p: FrameId, c: FrameId)
    requires HeapOk(s) && IsLaunch(s, t, l, p, c)
    ensures HeapOk(t)
  {
    assert FrameOk(s, l) && FrameOk(s, p) && FrameOk(s, c);
    assert CarrierOk(s, l) && HoldOk(s, p, Crossing) && OwnerOk(s, c);
    forall d | d in t.heap ensures FrameOk(t, d) { Look(s, t, {l, p, c}, d); assert FrameOk(s, d); }
    LaunchTaskEdges(s, t, l, p, c);
    LaunchTaskHands(s, t, l, p, c);
  }

  lemma LaunchTaskEdges(s: State, t: State, l: FrameId, p: FrameId, c: FrameId)
    requires HeapOk(s) && IsLaunch(s, t, l, p, c)
    ensures OwnersOk(t) && HoldsOk(t)
  {
    hide YoungOk, WellFormed, First;
    assert FrameOk(s, l) && FrameOk(s, p) && FrameOk(s, c);
    assert CarrierOk(s, l) && HoldOk(s, p, Crossing) && OwnerOk(s, c);
    forall d | d in t.heap ensures OwnerOk(t, d) {
      Look(s, t, {l, p, c}, d);
      assert OwnerOk(s, d);
      if s.heap[d].owner.HeldBy? { Look(s, t, {l, p, c}, s.heap[d].owner.frame); }
    }
    LaunchTaskHolds(s, t, l, p, c);
  }

  lemma LaunchTaskHolds(s: State, t: State, l: FrameId, p: FrameId, c: FrameId)
    requires HeapOk(s) && IsLaunch(s, t, l, p, c)
    ensures HoldsOk(t)
  {
    assert FrameOk(s, l) && FrameOk(s, p) && FrameOk(s, c) && CarrierOk(s, l) && HoldOk(s, p, Crossing);
    forall d, at | d in {l, p, c} && d in t.heap ensures HoldOk(t, d, at) {
      if d in s.heap {
        assert HoldOk(s, d, at);
        if Hold(s.heap[d], at).Some? { Look(s, t, {l, p, c}, Hold(s.heap[d], at).value); }
      }
    }
    HoldsElsewhere(s, t, {l, p, c});
  }

  lemma LaunchTaskHands(s: State, t: State, l: FrameId, p: FrameId, c: FrameId)
    requires HeapOk(s) && IsLaunch(s, t, l, p, c)
    ensures WaitersOk(t) && CarriersOk(t)
  {
    assert FrameOk(s, l) && CarrierOk(s, l) && HoldOk(s, p, Crossing) && OwnerOk(s, c) && FrameOk(s, c);
    forall d | d in t.heap ensures WaiterOk(t, d) {
      Look(s, t, {l, p, c}, d);
      assert WaiterOk(s, d);
      if IsWaiting(s.heap[d]) { Look(s, t, {l, p, c}, s.heap[d].point.launcher); }
    }
    forall d | d in t.heap ensures CarrierOk(t, d) {
      Look(s, t, {l, p, c}, d);
      assert CarrierOk(s, d) && FrameOk(s, d);
      if IsCarrier(s.heap[d]) { Look(s, t, {l, p, c}, s.heap[d].role.waiter); }
    }
  }

  // ---- LaunchChild l hands its result to its waiter p ----

  ghost predicate IsHandBack(s: State, t: State, l: FrameId, p: FrameId) {
    && l in s.heap && l in t.heap && p in s.heap && p in t.heap && l != p && Only(s, t, {l, p})
    && s.heap[l].code == HandBack(p) && s.heap[l].role.Launcher?
    && t.heap[l] == s.heap[l].(code := t.heap[l].code) && t.heap[l].code.Return? && SelfOk(t.heap[l])
    && Stable(s.heap[p], t.heap[p]) && SelfOk(t.heap[p])
    && t.heap[p].owner == s.heap[p].owner && t.heap[p].types == s.heap[p].types && t.heap[p].slots == s.heap[p].slots
    && (t.heap[p].point.Running? || (t.heap[p].point.AtCross? && t.heap[p].point.delivered.Some?))
  }

  lemma HandOver(s: State, t: State, l: FrameId, p: FrameId)
    requires HeapOk(s) && IsHandBack(s, t, l, p)
    ensures HeapOk(t)
  {
    assert FrameOk(s, l) && FrameOk(s, p) && CarrierOk(s, l);
    forall d | d in t.heap ensures FrameOk(t, d) { Look(s, t, {l, p}, d); assert FrameOk(s, d); }
    forall d | d in t.heap ensures OwnerOk(t, d) {
      Look(s, t, {l, p}, d);
      assert OwnerOk(s, d);
      if s.heap[d].owner.HeldBy? { Look(s, t, {l, p}, s.heap[d].owner.frame); }
    }
    HandOverHolds(s, t, l, p);
    HandOverHands(s, t, l, p);
  }

  lemma HandOverHolds(s: State, t: State, l: FrameId, p: FrameId)
    requires HeapOk(s) && IsHandBack(s, t, l, p)
    ensures HoldsOk(t)
  {
    assert FrameOk(s, l) && FrameOk(s, p) && CarrierOk(s, l);
    forall d, at | d in {l, p} && d in t.heap ensures HoldOk(t, d, at) {
      if d in s.heap {
        assert HoldOk(s, d, at);
        if Hold(s.heap[d], at).Some? { Look(s, t, {l, p}, Hold(s.heap[d], at).value); }
      }
    }
    HoldsElsewhere(s, t, {l, p});
  }

  lemma HandOverHands(s: State, t: State, l: FrameId, p: FrameId)
    requires HeapOk(s) && IsHandBack(s, t, l, p)
    ensures WaitersOk(t) && CarriersOk(t)
  {
    assert FrameOk(s, l) && CarrierOk(s, l);
    forall d | d in t.heap ensures WaiterOk(t, d) {
      Look(s, t, {l, p}, d);
      assert WaiterOk(s, d);
      if IsWaiting(s.heap[d]) { Look(s, t, {l, p}, s.heap[d].point.launcher); }
    }
    forall d | d in t.heap ensures CarrierOk(t, d) {
      Look(s, t, {l, p}, d);
      assert CarrierOk(s, d) && FrameOk(s, d);
      if IsCarrier(s.heap[d]) { Look(s, t, {l, p}, s.heap[d].role.waiter); }
    }
  }
}
