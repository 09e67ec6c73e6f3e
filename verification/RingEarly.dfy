/**
  The early -1 does happen: a run of two consumers in which one of them is told that the closed
  ring is empty while a message is still in it.
 */
module RingEarly {
  import opened Options
  import opened Positions
  import opened Ring

  ghost predicate Reachable(s: Ring)
  {
    exists tr :: Run(tr) && tr[|tr| - 1] == s
  }

  lemma Go(s: Ring, t: Tid, s': Ring)
    requires Reachable(s) && Next(s, t, s')
    ensures Reachable(s')
  {
    hide Next, Init;
    var tr :| Run(tr) && tr[|tr| - 1] == s;
    var tr' := tr + [s'];
    forall i | 0 <= i < |tr|
      ensures StepAt(tr', i)
    {
      assert i < |tr| - 1 ==> StepAt(tr, i);
    }
    assert Run(tr') && tr'[|tr'| - 1] == s';
  }

  lemma Start(s: Ring)
    requires Init(s)
    ensures Reachable(s)
  {
    hide Init;
    assert Run([s]) && [s][|[s]| - 1] == s;
  }

  /** A whole push of v by thread t. */
  function PushedCore(c: Core, t: Tid, v: Msg): Core
  {
    PublishCore(WriteCore(ClaimCore(c, t, Blocking, v, c.enq), c.enq, Some(v)), c.enq)
  }

  lemma Pushes(s: Ring, t: Tid, v: Msg) returns (s': Ring)
    requires Reachable(s) && t < |s.threads| && s.threads[t].Idle? && t in s.core.producers && s.core.mode == MPMC
    requires !s.closed && s.waiters == 0 && CellOf(s.core, s.core.enq).seqno == s.core.enq
    ensures Reachable(s') && s' == s.(core := PushedCore(s.core, t, v), threads := s.threads[t := Idle(Pushed)])
  {
    hide Reachable, CellOf, At;
    var c, k, pos := s.core, Blocking, s.core.enq;
    s' := Admits(s, t, v);
    var c1 := ClaimCore(c, t, k, v, pos);
    var s5 := Do(s', t, c1, PushWrite(v, pos));
    Go(s', t, s5);
    var c2 := WriteCore(c1, pos, Some(v));
    var s6 := Do(s5, t, c2, PushPublish(v, pos));
    Go(s5, t, s6);
    var s7 := Do(s6, t, PublishCore(c2, pos), Waking(WTest, Pushed));
    Go(s6, t, s7);
    s' := Goto(s7, t, Idle(Pushed));
    Go(s7, t, s');
    assert s'.threads == s.threads[t := Idle(Pushed)];
  }

  lemma Admits(s: Ring, t: Tid, v: Msg) returns (s': Ring)
    requires Reachable(s) && t < |s.threads| && s.threads[t].Idle? && t in s.core.producers && s.core.mode == MPMC
    requires !s.closed && CellOf(s.core, s.core.enq).seqno == s.core.enq
    ensures Reachable(s') && s' == Goto(s, t, PushCas(Blocking, v, s.core.enq))
  {
    hide Reachable, CellOf;
    var s1 := Goto(s, t, PushClosed(Blocking, v));
    Go(s, t, s1);
    var s2 := Goto(s1, t, PushPos(Blocking, v));
    Go(s1, t, s2);
    var s3 := Goto(s2, t, PushSeq(Blocking, v, s.core.enq));
    Go(s2, t, s3);
    s' := Goto(s3, t, PushCas(Blocking, v, s.core.enq));
    Go(s3, t, s');
    assert s'.threads == s.threads[t := PushCas(Blocking, v, s.core.enq)];
  }

  /** A consumer finds the ring empty and is about to test the closed flag. */
  lemma Looks(s: Ring, t: Tid) returns (s': Ring)
    requires Reachable(s) && t < |s.threads| && s.threads[t].Idle? && t in s.core.consumers && s.quit == {}
    requires CellOf(s.core, s.core.deq).seqno < s.core.deq + 1
    ensures Reachable(s') && s' == Goto(s, t, PopClosed(s.core.deq))
  {
    hide Reachable, CellOf;
    var s1 := BeginPop(s, t);
    Go(s, t, s1);
    var s2 := Goto(s1, t, PopSeq(s.core.deq));
    Go(s1, t, s2);
    s' := Goto(s2, t, PopClosed(s.core.deq));
    Go(s2, t, s');
    assert s'.threads == s.threads[t := PopClosed(s.core.deq)];
  }

  /** Closing a ring with no push under way seals it. */
  lemma Closes(s: Ring, t: Tid) returns (s': Ring)
    requires Reachable(s) && t < |s.threads| && s.threads[t].Idle? && Quiet(s) && s.mu == None && s.quit == {}
    requires forall u :: 0 <= u < |s.threads| ==> !IsParked(s.threads[u])
    ensures Reachable(s') && s' == s.(closed := true, sealed := true, threads := s.threads[t := Idle(Done)])
  {
    hide Reachable;
    var s1 := Goto(s, t, SetClosed(true));
    Go(s, t, s1);
    assert Quiet(s1);
    var s2 := StoreClosed(s1, t, true);
    Go(s1, t, s2);
    hide Quiet;
    var s3 := LockMu(s2, t, Waking(WCast, Done));
    Go(s2, t, s3);
    var s4 := Broadcast(s3, t, Done);
    Go(s3, t, s4);
    s' := UnlockMu(s4, t, Idle(Done));
    Go(s4, t, s');
    assert s'.threads == s.threads[t := Idle(Done)];
  }

  /** A whole dequeue of the head by thread t, up to its release. */
  lemma Pops(s: Ring, t: Tid) returns (s': Ring)
    requires Reachable(s) && t < |s.threads| && s.threads[t].Idle? && t in s.core.consumers && s.core.mode == MPMC
    requires s.quit == {} && CellOf(s.core, s.core.deq).seqno == s.core.deq + 1
    ensures Reachable(s') && s'.core == PoppedCore(s.core, t) && s'.sealed == s.sealed && s'.closed == s.closed
    ensures |s'.threads| == |s.threads| && forall u :: 0 <= u < |s.threads| && u != t ==> s'.threads[u] == s.threads[u]
  {
    hide Reachable, CellOf;
    var pos := s.core.deq;
    var s1 := BeginPop(s, t);
    Go(s, t, s1);
    var s2 := Goto(s1, t, PopSeq(pos));
    Go(s1, t, s2);
    var s3 := Goto(s2, t, PopCas(pos));
    Go(s2, t, s3);
    var c1 := TakeCore(s.core, t, pos);
    var s4 := Do(s3.(taker := Some(t)), t, c1, PopRead(pos));
    Go(s3, t, s4);
    s' := Releases(s4, t, pos);
  }

  function PoppedCore(c: Core, t: Tid): Core
  {
    var c1 := TakeCore(c, t, c.deq);
    ReleaseCore(WriteCore(c1, c.deq, None), c.deq, CellOf(c1, c.deq).data)
  }

  lemma Releases(s: Ring, t: Tid, pos: nat) returns (s': Ring)
    requires Reachable(s) && t < |s.threads| && s.threads[t] == PopRead(pos)
    ensures var d := CellOf(s.core, pos).data;
      && Reachable(s')
      && s' == Do(s, t, ReleaseCore(WriteCore(s.core, pos, None), pos, d), Waking(WTest, Popped(pos, d)))
  {
    hide Reachable, CellOf;
    var d := CellOf(s.core, pos).data;
    var s1 := Goto(s, t, PopClear(pos, d));
    Go(s, t, s1);
    var s2 := Do(s1, t, WriteCore(s.core, pos, None), PopRelease(pos, d));
    Go(s1, t, s2);
    s' := Do(s2, t, ReleaseCore(s2.core, pos, d), Waking(WTest, Popped(pos, d)));
    Go(s2, t, s');
    assert s'.threads == s.threads[t := Waking(WTest, Popped(pos, d))];
  }

  // ---- the run ----------------------------------------------------------------

  /** Two cells, thread 0 produces and closes, threads 1 and 2 consume. */
  function Fresh(): Core
  {
    CoreState(MPMC, {0}, {1, 2}, 0, 0, [Cell(0, None, Free(0)), Cell(1, None, Free(1))], [], map[], {}, None)
  }

  /** Both messages are in; the cells show positions 0 and 1 published. */
  lemma TwoPushed(v0: Msg, v1: Msg)
    ensures var c := PushedCore(Fresh(), 0, v0);
      c.enq == 1 && c.deq == 0 && CellOf(c, 1).seqno == 1 && c.mode == MPMC && c.producers == {0} && c.consumers == {1, 2}
    ensures var c := PushedCore(PushedCore(Fresh(), 0, v0), 0, v1);
      && c.deq == 0 && |c.log| == 2 && |c.cells| == 2 && c.tickets == {} && CellOf(c, 0).seqno == 1
      && c.mode == MPMC && c.consumers == {1, 2}
  {
    assert Slot(0, 2) == 0 && Slot(1, 2) == 1;
  }

  lemma OnePopped(c: Core, t: Tid)
    requires |c.cells| == 2 && c.deq == 0
    ensures var c' := PoppedCore(c, t);
      c'.deq == 1 && |c'.log| == |c.log| && c'.consumers == c.consumers && CellOf(c', 0).seqno == 2
  {
    assert Slot(0, 2) == 0;
  }

  /** A consumer of a sealed ring returns -1 with a message left. */
  lemma EarlyMinusOneHappens() returns (s: Ring)
    ensures Reachable(s) && s.sealed && |s.threads| == 3 && 1 in s.core.consumers && s.threads[1] == Idle(Drained)
    ensures s.core.deq == 1 && |s.core.log| == 2
  {
    hide Reachable, CellOf, Fresh;
    var s1 := OneLooks();
    var s2 := TwoArrive(s1);
    var s3 := Closes(s2, 0);
    s := GivesUp(s3);
  }

  lemma OneLooks() returns (s: Ring)
    ensures Reachable(s)
    ensures s == Ring(Fresh(), [Idle(Nothing), PopClosed(0), Idle(Nothing)], false, 0, None, {}, None, false, {})
  {
    var s0 := Ring(Fresh(), [Idle(Nothing), Idle(Nothing), Idle(Nothing)], false, 0, None, {}, None, false, {});
    assert Init(s0);
    assert Slot(0, 2) == 0;
    hide Reachable, Init;
    Start(s0);
    s := Looks(s0, 1);
    assert s.threads == [Idle(Nothing), PopClosed(0), Idle(Nothing)];
  }

  lemma TwoArrive(s: Ring) returns (s': Ring)
    requires Reachable(s) && s.core == Fresh() && s.threads == [Idle(Nothing), PopClosed(0), Idle(Nothing)]
    requires !s.closed && s.waiters == 0
    ensures Reachable(s') && s' == s.(core := s'.core, threads := [Idle(Pushed), PopClosed(0), Idle(Nothing)])
    ensures var c := s'.core;
      && c.deq == 0 && |c.log| == 2 && |c.cells| == 2 && c.tickets == {} && CellOf(c, 0).seqno == 1
      && c.mode == MPMC && c.consumers == {1, 2}
  {
    TwoPushed(7, 8);
    assert CellOf(Fresh(), 0).seqno == 0 by { assert Slot(0, 2) == 0; }
    hide Reachable, PushedCore, CellOf;
    var s1 := Pushes(s, 0, 7);
    assert s1.threads == [Idle(Pushed), PopClosed(0), Idle(Nothing)];
    s' := Pushes(s1, 0, 8);
    assert s'.threads == s1.threads;
  }

  lemma GivesUp(s: Ring) returns (s': Ring)
    requires Reachable(s) && |s.threads| == 3 && s.threads[1] == PopClosed(0) && s.threads[2].Idle?
    requires s.closed && s.sealed && s.quit == {} && s.core.mode == MPMC && s.core.consumers == {1, 2}
    requires s.core.deq == 0 && |s.core.log| == 2 && |s.core.cells| == 2 && CellOf(s.core, 0).seqno == 1
    ensures Reachable(s') && s'.sealed && |s'.threads| == 3 && 1 in s'.core.consumers && s'.threads[1] == Idle(Drained)
    ensures s'.core.deq == 1 && |s'.core.log| == 2
  {
    hide Reachable, CellOf;
    var s1 := Goto(s, 1, PopRecheck(0));
    Go(s, 1, s1);
    s' := OvertakenGivesUp(s1);
  }

  /** Consumer 2 takes the head while consumer 1 is about to look again. */
  lemma OvertakenGivesUp(s: Ring) returns (s': Ring)
    requires Reachable(s) && |s.threads| == 3 && s.threads[1] == PopRecheck(0) && s.threads[2].Idle?
    requires s.sealed && s.quit == {} && s.core.mode == MPMC && s.core.consumers == {1, 2}
    requires s.core.deq == 0 && |s.core.log| == 2 && |s.core.cells| == 2 && CellOf(s.core, 0).seqno == 1
    ensures Reachable(s') && s'.sealed && |s'.threads| == 3 && 1 in s'.core.consumers && s'.threads[1] == Idle(Drained)
    ensures s'.core.deq == 1 && |s'.core.log| == 2
  {
    OnePopped(s.core, 2);
    hide Reachable, CellOf, PoppedCore;
    var s2 := Pops(s, 2);
    s' := ReturnDrained(s2, 1);
    Go(s2, 1, s');
  }
}
