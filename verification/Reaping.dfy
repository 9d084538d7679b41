/**
 What an answer of ReapOK is worth: the callbacks have all been invoked, and nothing about them
 changes any more.
 */
module Reaping {
  import opened Basics
  import opened CallbackTable
  import opened Completion
  import opened DownloadStatus

  /**
   When ReapOK says yes of a download that has run, each callback of the table has been invoked, by
   a thread that has only the mutex to give back; once Complete has returned, ReapOK says yes.
   */
  lemma ReapableMeansCalled(s: State, w: Tid)
    requires Reachable(s) && w in s.threads && s.threads[w].WaitRead? && !s.shared.unstartedCancel
    ensures Step(s, w).threads[w] == WaitLeave(true) ==>
              && s.shared.calls == Flatten(s.shared.callbacks)
              && exists u :: PcOf(s, u).HasMarked()
    ensures (exists u :: PcOf(s, u) == CmpReturned(true)) ==> Step(s, w).threads[w] == WaitLeave(true)
  {
    hide Entries, Reachable;
    ReachableInv(s);
    assert Step(s, w).threads[w] == WaitLeave(s.shared.reap == CallDone);
    if s.shared.winner.Some? {
      var u := s.shared.winner.value;
      assert ThreadOk(s.shared, u, PcOf(s, u));
    }
    if u :| PcOf(s, u) == CmpReturned(true) {
      assert ThreadOk(s.shared, u, PcOf(s, u));
    }
  }

  /** ReapOK says yes exactly when the final status is set, or when a download was cancelled that was never started. */
  lemma ReapableIff(s: State, w: Tid)
    requires Reachable(s) && w in s.threads && s.threads[w].WaitRead?
    ensures Step(s, w).threads[w].WaitLeave?
    ensures Step(s, w).threads[w].reapable <==> s.shared.unstartedCancel || exists u :: PcOf(s, u).HasMarked()
  {
    hide Entries, Reachable;
    ReachableInv(s);
    if s.shared.winner.Some? {
      var u := s.shared.winner.value;
      assert ThreadOk(s.shared, u, PcOf(s, u));
    }
    if u :| PcOf(s, u).HasMarked() { assert ThreadOk(s.shared, u, PcOf(s, u)); }
  }

  /** Nothing about the callbacks changes in one step. */
  ghost predicate SameCalls(s: Shared, n: Shared) {
    n.reap == s.reap && n.calls == s.calls && n.callbacks == s.callbacks
  }

  lemma DoneStep(s: Shared, t: Tid, pc: Pc)
    requires SharedOk(s) && ThreadOk(s, t, pc) && s.reap == CallDone && s.invoking
    requires pc.Winner() ==> pc.HasMarked()
    ensures SameCalls(s, LocalStep(s, t, pc).0)
  {
  }

  lemma DoneMove(s: State, t: Tid)
    requires Inv(s) && s.shared.reap == CallDone && t in s.threads
    ensures SameCalls(s.shared, Step(s, t).shared)
  {
    hide SameCalls, LocalStep, Entries;
    var u := s.shared.winner.value;
    assert ThreadOk(s.shared, u, PcOf(s, u));
    assert ThreadOk(s.shared, t, PcOf(s, t));
    DoneStep(s.shared, t, s.threads[t]);
  }

  /** When the reap status is CALLDONE, no later call registers a callback or invokes one. */
  lemma {:induction false} DoneStays(s: State, actions: seq<Action>)
    requires Inv(s) && s.shared.reap == CallDone
    ensures SameCalls(s.shared, Exec(s, actions).shared)
    decreases actions
  {
    hide Inv, Step;
    if actions != [] {
      var a := actions[0];
      ApplyInv(s, a);
      if a.Move? && a.t in s.threads { DoneMove(s, a.t); }
      assert SameCalls(s.shared, Apply(s, a).shared);
      DoneStays(Apply(s, a), actions[1..]);
    }
  }

  /** A download that ReapOK has found reapable after its run is left alone: whatever is called next, its callbacks stay as they are. */
  lemma ReapableIsFinal(s: State, w: Tid, actions: seq<Action>)
    requires Reachable(s) && w in s.threads && s.threads[w].WaitRead? && !s.shared.unstartedCancel
    requires Step(s, w).threads[w] == WaitLeave(true)
    ensures var n := Exec(Step(s, w), actions).shared;
            n.reap == CallDone && n.callbacks == s.shared.callbacks && n.calls == s.shared.calls == Flatten(s.shared.callbacks)
  {
    hide Inv, Exec, Reachable;
    ReapableMeansCalled(s, w);
    ReachableInv(s);
    ApplyInv(s, Move(w));
    DoneStays(Step(s, w), actions);
  }
}
