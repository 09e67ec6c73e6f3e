/**
  awp_pthread_join_deadline after its helper thread was created: waiter and helper share a heap
  box under a mutex, and whichever leaves last frees it.
 */
module JoinBox {

  /** pthread_join, lock, the critical section, unlock, and the free if the waiter let go. */
  datatype Helper =
    | HJoin
    | HLock
    | HSetRc(rc: int)
    | HSetDone
    | HTest
    | HCast(free: bool)
    | HUnlock(free: bool)
    | HFree
    | HGone

  /** The polling loop of the waiter and its two ways out. */
  datatype Waiter =
    | WLock
    | WDone
    | WClock
    | WRelease
    | WUnlockTimeout
    | WUnlockNap
    | WNap
    | WRc
    | WUnlockDone(rc: int)
    | WFree(rc: int)
    | WOut(ans: Answer)

  /** 0 joined, 1 timed out, negative error. */
  datatype Answer = TimedOut | JoinResult(rc: int)

  datatype Lock = Unlocked | ByWaiter | ByHelper

  /**
    `ended`: the thread to be joined has ended. `result` is what pthread_join gives the helper: 0, for
    which it waits until the thread has ended, or an error. `frees` counts frees of the box.
   */
  datatype Box = Box(
    mu: Lock,
    rc: int,
    done: bool,
    released: bool,
    frees: nat,
    ended: bool,
    result: int,
    w: Waiter,
    h: Helper)

  predicate Init(s: Box)
  {
    s.mu == Unlocked && s.rc == 0 && !s.done && !s.released && s.frees == 0 && s.w == WLock && s.h == HJoin
  }

  /** The helper's only move. */
  function HelperMove(s: Box): Box
  {
    match s.h
    case HJoin => s.(h := HLock)
    case HLock => s.(mu := ByHelper, h := HSetRc(s.result))
    case HSetRc(rc) => s.(rc := rc, h := HSetDone)
    case HSetDone => s.(done := true, h := HTest)
    case HTest => s.(h := HCast(s.released))
    case HCast(f) => s.(h := HUnlock(f))
    case HUnlock(f) => s.(mu := Unlocked, h := if f then HFree else HGone)
    case HFree => s.(frees := s.frees + 1, h := HGone)
    case HGone => s
  }

  /** The waiter's move, giving up if it reads the clock. */
  function WaiterMove(s: Box): Box
  {
    match s.w
    case WLock => s.(mu := ByWaiter, w := WDone)
    case WDone => s.(w := if s.done then WRc else WClock)
    case WClock => s.(w := WRelease)
    case WRelease => s.(released := true, w := WUnlockTimeout)
    case WUnlockTimeout => s.(mu := Unlocked, w := WOut(TimedOut))
    case WUnlockNap => s.(mu := Unlocked, w := WNap)
    case WNap => s.(w := WLock)
    case WRc => s.(w := WUnlockDone(s.rc))
    case WUnlockDone(rc) => s.(mu := Unlocked, w := WFree(rc))
    case WFree(rc) => s.(frees := s.frees + 1, w := WOut(JoinResult(rc)))
    case WOut(_) => s
  }

  predicate HelperStep(s: Box, s': Box)
  {
    && s.h != HGone && (s.h == HJoin ==> s.ended || s.result != 0) && (s.h == HLock ==> s.mu == Unlocked)
    && s' == HelperMove(s)
  }

  predicate WaiterStep(s: Box, s': Box)
  {
    || (!s.w.WOut? && (s.w == WLock ==> s.mu == Unlocked) && s' == WaiterMove(s))
    || (s.w == WClock && s' == s.(w := WUnlockNap))          // time left: sleep and look again
  }

  predicate TargetEnds(s: Box, s': Box) { !s.ended && s' == s.(ended := true) }

  ghost predicate Step(s: Box, s': Box) { HelperStep(s, s') || WaiterStep(s, s') || TargetEnds(s, s') }

  ghost predicate StepAt(tr: seq<Box>, i: nat)
    requires i + 1 < |tr|
  {
    Step(tr[i], tr[i + 1])
  }

  ghost predicate Run(tr: seq<Box>)
  {
    && |tr| > 0 && Init(tr[0])
    && forall i :: 0 <= i < |tr| - 1 ==> StepAt(tr, i)
  }

  // ---- the invariant ----------------------------------------------------------

  predicate HelperLocks(h: Helper) { h.HSetRc? || h.HSetDone? || h.HTest? || h.HCast? || h.HUnlock? }

  predicate WaiterLocks(w: Waiter)
  {
    w.WDone? || w.WClock? || w.WRelease? || w.WUnlockTimeout? || w.WUnlockNap? || w.WRc? || w.WUnlockDone?
  }

  predicate HelperPublished(h: Helper) { h.HTest? || h.HCast? || h.HUnlock? || h.HFree? || h.HGone? }

  predicate Joined(w: Waiter) { w.WOut? && w.ans.JoinResult? }

  predicate LockOk(s: Box)
  {
    (s.mu == ByHelper <==> HelperLocks(s.h)) && (s.mu == ByWaiter <==> WaiterLocks(s.w))
  }

  /** What the flags of the box say about where the helper is. */
  predicate HelperOk(s: Box)
  {
    && (s.h != HJoin ==> s.ended || s.result != 0)
    && (s.done <==> HelperPublished(s.h)) && (s.done || s.h.HSetDone? ==> s.rc == s.result)
    && (s.h.HSetRc? ==> s.h.rc == s.result)
    && (s.h.HCast? || s.h.HUnlock? ==> s.h.free == s.released)
    && (s.h.HFree? ==> s.released)
  }

  /** What the flags of the box say about where the waiter is. */
  predicate WaiterOk(s: Box)
  {
    && (s.released <==> s.w.WUnlockTimeout? || s.w == WOut(TimedOut))
    && (s.w.WClock? || s.w.WRelease? || s.w.WUnlockTimeout? || s.w.WUnlockNap? ==> !s.done)
    && (s.w.WRc? || s.w.WUnlockDone? || s.w.WFree? || Joined(s.w) ==> s.h == HGone)
    && (s.w.WUnlockDone? || s.w.WFree? ==> s.w.rc == s.result)
    && (Joined(s.w) ==> s.w.ans.rc == s.result)
  }

  predicate Inv(s: Box)
  {
    && LockOk(s) && HelperOk(s) && WaiterOk(s)
    && s.frees == (if Joined(s.w) then 1 else 0) + (if s.h.HGone? && s.released then 1 else 0)
  }

  lemma HelperKeeps(s: Box, s': Box)
    requires Inv(s) && HelperStep(s, s')
    ensures Inv(s')
  {
  }

  lemma WaiterKeeps(s: Box, s': Box)
    requires Inv(s) && WaiterStep(s, s')
    ensures Inv(s')
  {
  }

  lemma TargetKeeps(s: Box, s': Box)
    requires Inv(s) && TargetEnds(s, s')
    ensures Inv(s')
  {
  }

  lemma {:induction false} RunInv(tr: seq<Box>, i: nat)
    requires Run(tr) && i < |tr|
    ensures Inv(tr[i])
  {
    hide Inv, HelperStep, WaiterStep, TargetEnds;
    if i == 0 {
      assert Inv(tr[0]) by { InitInv(tr[0]); }
    } else {
      RunInv(tr, i - 1);
      assert StepAt(tr, i - 1);
      if HelperStep(tr[i - 1], tr[i]) { HelperKeeps(tr[i - 1], tr[i]); }
      else if WaiterStep(tr[i - 1], tr[i]) { WaiterKeeps(tr[i - 1], tr[i]); }
      else { TargetKeeps(tr[i - 1], tr[i]); }
    }
  }

  lemma InitInv(s: Box)
    requires Init(s)
    ensures Inv(s)
  {
  }

  /**
    In every interleaving the box is freed at most once, and once both sides have ended it has
    been freed exactly once: by the helper if the waiter timed out, by the waiter otherwise.
    A call that did not time out answers with the result of the join, and 0 only if the thread has ended.
   */
  lemma FreedOnce(tr: seq<Box>, i: nat)
    requires Run(tr) && i < |tr|
    ensures tr[i].frees <= 1
    ensures tr[i].h == HGone && tr[i].w.WOut? ==> tr[i].frees == 1
    ensures tr[i].w.WOut? && tr[i].w.ans.JoinResult? ==> tr[i].w.ans.rc == tr[i].result && tr[i].h == HGone
    ensures tr[i].w == WOut(JoinResult(0)) ==> tr[i].ended
  {
    RunInv(tr, i);
  }

  /** After the free there is no step of either side: nobody reads, locks or frees the box again. */
  lemma NoUseAfterFree(tr: seq<Box>, i: nat, s': Box)
    requires Run(tr) && i < |tr| && tr[i].frees > 0
    ensures !HelperStep(tr[i], s') && !WaiterStep(tr[i], s')
  {
    RunInv(tr, i);
  }

  /**
    The handoff never gets stuck on itself: helper or waiter can move unless both have ended, or the
    waiter has timed out and the helper's pthread_join waits for a thread that is still running.
   */
  lemma NeverStuck(tr: seq<Box>, i: nat)
    requires Run(tr) && i < |tr|
    ensures (exists s' :: HelperStep(tr[i], s') || WaiterStep(tr[i], s')) <==>
      !(tr[i].w.WOut? && (tr[i].h == HGone || (tr[i].h == HJoin && !tr[i].ended && tr[i].result == 0)))
  {
    RunInv(tr, i);
    var s := tr[i];
    hide Run;
    if s.mu != ByWaiter && s.h != HGone && (s.h == HJoin ==> s.ended || s.result != 0) {
      assert HelperStep(s, HelperMove(s));
    } else if !s.w.WOut? {
      assert WaiterStep(s, WaiterMove(s));
    }
  }
}
