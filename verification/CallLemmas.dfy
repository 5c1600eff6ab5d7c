/** How the call stack, the tags and the queues survive a step.

    The invariant ties the native call stack to the heap from both sides: each call concerns a frame in
    the right state, and each frame in the middle of a call has that call on the stack. A step changes
    few frames, so the calls below the top survive if none of them concerns a frame that changed. The
    first lemmas show that: a parked frame has no call at all, and the call a running frame depends on is
    the last one that concerns it. Tags and queues are counted per frame; the lemmas about them say
    that the count changes for exactly the frame that parks, is queued, or is taken out, and for no
    other. */
module CallLemmas {
  import opened Programs
  import opened Machine
  import opened Invariants
  import opened HeapLemmas

  // ---- which calls can be below the top ----

  /** A frame whose body is not in the middle of a native call. */
  ghost predicate IsParked(fr: Frame) {
    fr.point.Initial? || fr.point.AtOperation? || fr.point.Final?
  }

  /** What a call that is not on top says about its subject. */
  lemma Above(s: State, k: nat)
    requires StackOk(s) && k < |s.stack| - 1
    ensures Subject(s.stack[k]) in s.heap
    ensures var x := Subject(s.stack[k]);
      match s.heap[x].point
      case Running => true
      case AtTask(c) => s.stack[k + 1] == Awaiter(x, c)
      case AtStart(_, c) => s.stack[k + 1] == Starter(x, c)
      case AtCross(_, _, _, _, _) => true
      case _ => false
  {
    assert LinkOk(s, k + 1) && EntryOk(s, s.stack[k]) && EntryOk(s, s.stack[k + 1]);
  }

  lemma ParkedIsClear(s: State, x: FrameId)
    requires StackOk(s) && s.stack != [] && x in s.heap && IsParked(s.heap[x])
    ensures Clear(s, x, |s.stack| - 1)
    ensures Top(s).Body? ==> Clear(s, x, |s.stack|)
  {
    assert EntryOk(s, s.stack[|s.stack| - 1]);
    forall k | 0 <= k < |s.stack| - 1 ensures Subject(s.stack[k]) != x {
      Above(s, k);
    }
  }

  /** The body on top was entered by the call right below it, and by no other. */
  lemma BodyOnTop(s: State, f: FrameId)
    requires StackOk(s) && s.stack != [] && Top(s) == Body(f)
    ensures |s.stack| >= 2 && !s.stack[|s.stack| - 2].Body? && Subject(s.stack[|s.stack| - 2]) == f
    ensures Clear(s, f, |s.stack| - 2)
    ensures f in s.heap && EntryOk(s, Body(f))
  {
    var top := |s.stack| - 1;
    assert EntryOk(s, s.stack[top]);
    assert top > 0;
    assert LinkOk(s, top);
    forall k | 0 <= k < top - 1 ensures Subject(s.stack[k]) != f {
      if s.stack[k].Body? {
        if k > 0 { assert LinkOk(s, k); }
        assert ClearCalls(s, f, top - 1);
      }
    }
  }

  lemma CallOnTop(s: State, x: FrameId)
    requires StackOk(s) && s.stack != [] && !Top(s).Body? && Subject(Top(s)) == x
    requires x in s.heap && !s.heap[x].point.Running?
    ensures Clear(s, x, |s.stack| - 1)
    ensures EntryOk(s, Top(s))
  {
    var top := |s.stack| - 1;
    assert EntryOk(s, s.stack[top]);
    forall k | 0 <= k < top ensures Subject(s.stack[k]) != x {
      assert EntryOk(s, s.stack[k]);
    }
  }

  /** The awaiter p of the frame under Resume is not itself being resumed. */
  lemma AwaitingIsClear(s: State, p: FrameId, f: FrameId)
    requires StackOk(s) && s.stack != [] && Top(s) == Resumer(f)
    requires p in s.heap && s.heap[p].point == AtTask(f) && p != f
    ensures Clear(s, p, |s.stack|)
  {
    var top := |s.stack| - 1;
    assert ClearCalls(s, f, top);
    forall k | 0 <= k < top ensures Subject(s.stack[k]) != p {
      Above(s, k);
    }
  }

  // ---- the stack after a step ----

  /** Calls about d read the same as before. */
  ghost predicate Calm(s: State, t: State, d: FrameId) {
    d in s.heap ==>
      && d in t.heap && t.heap[d].executor == s.heap[d].executor && t.heap[d].home == s.heap[d].home
      && (t.heap[d].point == s.heap[d].point || (s.heap[d].point.AtCross? && t.heap[d].point.AtCross?))
  }

  /** d is only the subject of the last of the first m calls. */
  ghost predicate OnlyLast(s: State, t: State, d: FrameId, m: nat) {
    && 0 < m <= |s.stack| && !s.stack[m - 1].Body? && Clear(s, d, m - 1)
    && d in s.heap && d in t.heap && t.heap[d].executor == s.heap[d].executor && t.heap[d].home == s.heap[d].home
  }

  ghost predicate Harmless(s: State, t: State, d: FrameId, m: nat) {
    Calm(s, t, d) || Clear(s, d, m) || OnlyLast(s, t, d, m)
  }

  lemma PrefixKept(s: State, t: State, m: nat, changed: set<FrameId>)
    requires StackOk(s) && Only(s, t, changed) && s.updating.Keys <= t.updating.Keys
    requires m <= |s.stack| && m <= |t.stack| && t.stack[..m] == s.stack[..m]
    requires forall d | d in changed :: Harmless(s, t, d, m)
    ensures PrefixOk(t, m)
  {
    forall k | 0 <= k < m ensures t.stack[k] == s.stack[k] { assert t.stack[..m][k] == s.stack[..m][k]; }
    forall k | 0 <= k < m ensures EntryOk(t, t.stack[k]) { EntryKept(s, t, m, changed, k); }
    forall k | 0 < k < m ensures LinkOk(t, k) {
      var x := Subject(s.stack[k - 1]);
      assert LinkOk(s, k) && EntryOk(s, s.stack[k - 1]);
      Look(s, t, changed, x);
      assert x in changed ==> Harmless(s, t, x, m);
    }
    forall k | 0 <= k < m && !t.stack[k].Body? ensures ClearCalls(t, Subject(t.stack[k]), k) {
      assert ClearCalls(s, Subject(s.stack[k]), k);
    }
  }

  lemma EntryKept(s: State, t: State, m: nat, changed: set<FrameId>, k: nat)
    requires StackOk(s) && Only(s, t, changed) && s.updating.Keys <= t.updating.Keys
    requires k < m <= |s.stack|
    requires forall d | d in changed :: Harmless(s, t, d, m)
    ensures EntryOk(t, s.stack[k])
  {
    var x := Subject(s.stack[k]);
    assert EntryOk(s, s.stack[k]);
    Look(s, t, changed, x);
    assert x in changed ==> Harmless(s, t, x, m);
    if k > 0 && (s.stack[k].Awaiter? || s.stack[k].Starter?) {
      var p := s.stack[k].host;
      assert LinkOk(s, k) && EntryOk(s, s.stack[k - 1]);
      Look(s, t, changed, p);
      assert p in changed ==> Harmless(s, t, p, m);
    }
  }

  lemma Pushed(t: State, m: nat)
    requires PrefixOk(t, m) && m < |t.stack| && EntryOk(t, t.stack[m])
    requires if m == 0 then t.stack[m].Resumer? else Linked(t, t.stack[m - 1], t.stack[m])
    requires !t.stack[m].Body? ==> ClearCalls(t, Subject(t.stack[m]), m)
    ensures PrefixOk(t, m + 1)
  {
    forall k | 0 <= k < m + 1 ensures EntryOk(t, t.stack[k]) {}
    forall k | 0 < k < m + 1 ensures LinkOk(t, k) {}
  }

  // ---- running, starting and finished frames ----

  /** The frame whose state depends on the call a being on the stack. */
  function Depends(a: Activation): FrameId {
    if a.Starter? then a.host else Subject(a)
  }

  lemma ActivesElsewhere(s: State, t: State, changed: set<FrameId>)
    requires ActivesOk(s) && Only(s, t, changed)
    requires forall a | a in s.stack :: a in t.stack || Depends(a) in changed || a.Resumer? || a.Awaiter?
    requires s.stack == [] || Top(s).Body? || Subject(Top(s)) in changed || !Ended(s, Subject(Top(s)))
    requires forall d | d in changed && d in t.heap :: ActiveOk(t, d)
    ensures ActivesOk(t)
  {
    forall d | d in t.heap ensures ActiveOk(t, d) {
      Look(s, t, changed, d);
      if d !in changed { assert ActiveOk(s, d); }
    }
  }

  ghost predicate Ended(s: State, d: FrameId) {
    d in s.heap && s.heap[d].point.Final? && (s.heap[d].owner.Detached? || s.heap[d].owner.place.Awaiting?)
  }

  // ---- tags and queues ----

  lemma TagsElsewhere(s: State, t: State, changed: set<FrameId>)
    requires TagsOk(s) && Only(s, t, changed)
    requires forall f | f !in changed :: t.tags[f] == s.tags[f]
    requires forall f | f in changed :: t.tags[f] == if InOperation(t, f) then 1 else 0
    ensures TagsOk(t)
  {
    forall f: FrameId ensures t.tags[f] == if InOperation(t, f) then 1 else 0 {
      Look(s, t, changed, f);
    }
  }

  lemma QueuesElsewhere(s: State, t: State, changed: set<FrameId>)
    requires QueuesOk(s) && Only(s, t, changed) && t.ready == s.ready && t.updating == s.updating
    requires forall n: nat, f {:trigger ReadyOn(t, n, f)} | f in changed :: ReadyOn(t, n, f) == ReadyOn(s, n, f)
    ensures QueuesOk(t)
  {
    forall n: nat, f: FrameId ensures Queued(t, n, f) == if ReadyOn(t, n, f) then 1 else 0 {
      Look(s, t, changed, f);
      assert Queued(s, n, f) == Queued(t, n, f);
    }
  }

  /** Job x is pushed to executor n's queue. */
  lemma QueuesPushed(s: State, t: State, changed: set<FrameId>, n: nat, x: FrameId)
    requires QueuesOk(s) && Only(s, t, changed) && t.updating == s.updating
    requires t.ready == s.ready[n := Get(s.ready, n) + [x]]
    requires x in changed && ReadyOn(t, n, x)
    requires forall m: nat, f {:trigger ReadyOn(t, m, f)} | f in changed && f != x ::
      ReadyOn(t, m, f) == ReadyOn(s, m, f)
    requires !(x in s.heap && IsReady(s.heap[x]))
    ensures QueuesOk(t)
  {
    forall m: nat, f: FrameId ensures Queued(t, m, f) == if ReadyOn(t, m, f) then 1 else 0 {
      Look(s, t, changed, f);
      QueuedOneMore(s, t, n, x, m, f);
      if f == x { assert !ReadyOn(s, m, x); }
    }
  }

  lemma QueuedOneMore(s: State, t: State, n: nat, x: FrameId, m: nat, f: FrameId)
    requires t.updating == s.updating && t.ready == s.ready[n := Get(s.ready, n) + [x]]
    ensures Queued(t, m, f) == Queued(s, m, f) + if m == n && f == x then 1 else 0
  {
    if m == n {
      OneMore(Get(s.updating, n), Get(s.ready, n), x, f);
    } else {
      assert Get(t.ready, m) == Get(s.ready, m);
    }
  }

  lemma OneMore(batch: seq<FrameId>, ready: seq<FrameId>, x: FrameId, f: FrameId)
    ensures multiset(batch + (ready + [x]))[f] == multiset(batch + ready)[f] + if f == x then 1 else 0
  {
    assert batch + (ready + [x]) == (batch + ready) + [x];
  }
}
