/** The shapes of the call stack a step leaves behind.

    A segment is a stack of native calls. On top is a body that runs, or a call whose body has just come
    back. A step leaves the stack in one of few shapes: the body on top is gone, it is covered by another
    call and another body, it stays, or a call has returned and its host's body is back on top. There is
    one lemma for each; they share the part below the top, which CallLemmas keeps. What has to be shown
    anew is that the new top is accounted for by its frame, and that each frame in the middle of a call
    still finds that call on the stack. */
module StackLemmas {
  import opened Programs
  import opened Machine
  import opened Invariants
  import opened HeapLemmas
  import opened CallLemmas

  ghost predicate InBody(s: State, f: FrameId) {
    StackOk(s) && s.stack != [] && Top(s) == Body(f)
  }

  ghost predicate SameBinding(s: State, t: State, f: FrameId) {
    f in s.heap && f in t.heap && t.heap[f].executor == s.heap[f].executor && t.heap[f].home == s.heap[f].home
  }

  ghost predicate SameLoops(s: State, t: State) {
    t.updating == s.updating
  }

  /** The body on top stopped: its call remains. */
  lemma BodyStops(s: State, t: State, changed: set<FrameId>, f: FrameId)
    requires InBody(s, f) && Only(s, t, changed) && SameLoops(s, t) && SameBinding(s, t, f)
    requires forall d | d in changed && d != f :: Harmless(s, t, d, |s.stack| - 1)
    requires |t.stack| >= |s.stack| - 1 && t.stack[..|s.stack| - 1] == Pop(s.stack)
    ensures |s.stack| >= 2 && PrefixOk(t, |s.stack| - 1)
    ensures !t.stack[|s.stack| - 2].Body? && Subject(t.stack[|s.stack| - 2]) == f
    ensures f in s.heap && EntryOk(s, Body(f))
  {
    BodyOnTop(s, f);
    var m := |s.stack| - 1;
    assert OnlyLast(s, t, f, m);
    forall d | d in changed ensures Harmless(s, t, d, m) {}
    assert t.stack[m - 1] == t.stack[..m][m - 1] == s.stack[m - 1];
    PrefixKept(s, t, m, changed);
  }

  /** The body on top entered the body of c through `call`. */
  lemma BodyEnters(s: State, t: State, changed: set<FrameId>, f: FrameId, call: Activation, c: FrameId)
    requires InBody(s, f) && Only(s, t, changed) && SameLoops(s, t) && SameBinding(s, t, f)
    requires forall d | d in changed && d != f :: Harmless(s, t, d, |s.stack| - 1)
    requires t.stack == Pop(s.stack) + [call, Body(c)]
    requires !call.Body? && Subject(call) == c && EntryOk(t, call) && EntryOk(t, Body(c))
    requires match call
      case Resumer(_) => t.heap[f].point.AtCross?
      case Awaiter(p, _) => p == f
      case Starter(p, _) => p == f
      case Body(_) => false
    requires Clear(s, c, |s.stack| - 1)
    ensures StackOk(t)
  {
    var m := |s.stack| - 1;
    assert t.stack[..m] == Pop(s.stack);
    BodyStops(s, t, changed, f);
    forall k | 0 <= k < m ensures Subject(t.stack[k]) != c { assert t.stack[k] == s.stack[k]; }
    Pushed(t, m);
    Pushed(t, m + 1);
  }

  /** The body on top goes on. */
  lemma BodyGoesOn(s: State, t: State, changed: set<FrameId>, f: FrameId, m: nat)
    requires InBody(s, f) && Only(s, t, changed) && SameLoops(s, t) && SameBinding(s, t, f)
    requires t.heap[f].point.Running?
    requires forall d | d in changed && d != f :: Harmless(s, t, d, |s.stack|)
    requires |t.stack| >= |s.stack| == m && t.stack[..m] == s.stack
    ensures PrefixOk(t, m) && f in s.heap && EntryOk(s, Body(f))
  {
    BodyOnTop(s, f);
    assert Calm(s, t, f);
    forall d | d in changed ensures Harmless(s, t, d, m) {}
    PrefixKept(s, t, m, changed);
  }

  /** The body on top goes on once the body of c, resumed on top of it, comes back. */
  lemma BodyResumes(s: State, t: State, changed: set<FrameId>, f: FrameId, c: FrameId)
    requires InBody(s, f) && Only(s, t, changed) && SameLoops(s, t) && SameBinding(s, t, f)
    requires t.heap[f].point.Running?
    requires forall d | d in changed && d != f :: Harmless(s, t, d, |s.stack|)
    requires t.stack == s.stack + [Resumer(c), Body(c)]
    requires EntryOk(t, Resumer(c)) && EntryOk(t, Body(c)) && Clear(s, c, |s.stack|)
    ensures StackOk(t)
  {
    var m := |s.stack|;
    assert t.stack[..m] == s.stack;
    BodyGoesOn(s, t, changed, f, m);
    assert t.stack[m - 1] == s.stack[m - 1] == Body(f);
    forall k | 0 <= k < m ensures Subject(t.stack[k]) != c { assert t.stack[k] == s.stack[k]; }
    Pushed(t, m);
    Pushed(t, m + 1);
  }

  // ---- a call on top comes back ----

  lemma CallReturns(s: State, t: State, changed: set<FrameId>)
    requires StackOk(s) && s.stack != [] && Only(s, t, changed) && SameLoops(s, t)
    requires forall d | d in changed :: Harmless(s, t, d, |s.stack| - 1)
    requires |t.stack| >= |s.stack| - 1 && t.stack[..|s.stack| - 1] == Pop(s.stack)
    ensures PrefixOk(t, |s.stack| - 1)
  {
    PrefixKept(s, t, |s.stack| - 1, changed);
  }

  /** Its host p goes on. */
  lemma HostGoesOn(s: State, t: State, changed: set<FrameId>, p: FrameId)
    requires StackOk(s) && s.stack != [] && (Top(s).Awaiter? || Top(s).Starter?) && Top(s).host == p
    requires Only(s, t, changed) && SameLoops(s, t) && p in changed && SameBinding(s, t, p) && t.heap[p].point.Running?
    requires forall d | d in changed && d != p :: Harmless(s, t, d, |s.stack| - 1)
    requires t.stack == Pop(s.stack) + [Body(p)]
    ensures StackOk(t)
  {
    var m := |s.stack| - 1;
    assert t.stack[..m] == Pop(s.stack);
    assert EntryOk(s, s.stack[m]) && m > 0;
    assert LinkOk(s, m) && EntryOk(s, s.stack[m - 1]);
    HostIsLast(s, p);
    assert OnlyLast(s, t, p, m);
    CallReturns(s, t, changed);
    assert t.stack[m - 1] == s.stack[m - 1];
    assert EntryOk(t, t.stack[m - 1]);
    Pushed(t, m);
  }

  lemma HostIsLast(s: State, p: FrameId)
    requires StackOk(s) && s.stack != [] && (Top(s).Awaiter? || Top(s).Starter?) && Top(s).host == p
    ensures |s.stack| >= 2 && Subject(s.stack[|s.stack| - 2]) == p && !s.stack[|s.stack| - 2].Body?
    ensures Clear(s, p, |s.stack| - 2)
  {
    var m := |s.stack| - 1;
    assert EntryOk(s, s.stack[m]) && m > 0;
    assert LinkOk(s, m);
    assert ClearCalls(s, p, m - 1);
    forall k | 0 <= k < m - 1 ensures Subject(s.stack[k]) != p {
      Above(s, k);
      assert EntryOk(s, s.stack[k]);
    }
  }

  /** Resume goes on with the parent p. */
  lemma ParentResumes(s: State, t: State, changed: set<FrameId>, p: FrameId, m: nat)
    requires StackOk(s) && m <= |s.stack| && (m == 0 || (m < |s.stack| && s.stack[m].Resumer?))
    requires Only(s, t, changed) && s.updating.Keys <= t.updating.Keys
    requires forall d | d in changed :: Calm(s, t, d) || Clear(s, d, m)
    requires t.stack == s.stack[..m] + [Resumer(p), Body(p)]
    requires EntryOk(t, Resumer(p)) && EntryOk(t, Body(p)) && Clear(s, p, m)
    ensures StackOk(t)
  {
    assert t.stack[..m] == s.stack[..m];
    PrefixKept(s, t, m, changed);
    if m > 0 {
      assert LinkOk(s, m);
      assert t.stack[m - 1] == s.stack[m - 1];
      assert EntryOk(t, t.stack[m - 1]) && EntryOk(s, s.stack[m - 1]);
      ResumerLinkKept(s, t, changed, m);
    }
    forall k | 0 <= k < m ensures Subject(t.stack[k]) != p { assert t.stack[k] == s.stack[k]; }
    Pushed(t, m);
    Pushed(t, m + 1);
  }

  /** A Resume below the top may be replaced by another. */
  lemma ResumerLinkKept(s: State, t: State, changed: set<FrameId>, m: nat)
    requires StackOk(s) && 0 < m < |s.stack| && s.stack[m].Resumer? && Only(s, t, changed)
    requires forall d | d in changed :: Calm(s, t, d) || Clear(s, d, m)
    ensures forall p :: Linked(t, s.stack[m - 1], Resumer(p))
  {
    assert LinkOk(s, m) && EntryOk(s, s.stack[m - 1]);
    if !s.stack[m - 1].Body? {
      var x := Subject(s.stack[m - 1]);
      Look(s, t, changed, x);
      assert x in changed ==> Calm(s, t, x);
    }
  }
}
