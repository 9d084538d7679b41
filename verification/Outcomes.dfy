/**
 How a download ends.  Its final status is decided by what its transfer answered and by the cancel
 flag at the moment the run settles, whatever other threads do to it in between.
 */
module Outcomes {
  import opened Basics
  import opened DownloadStatus
  import opened Transfers

  /** What the final status of a download says. */
  ghost predicate OutcomeOk(o: Download) {
    && o.settled.Some?
    && (o.status == Downloaded <==> !o.settled.value && o.answer == Some(Fine))
    && (o.status == CancelDone <==> o.settled.value || o.answer == Some(Obsolete))
    && (o.status == Status.Failed <==> !o.settled.value && o.answer == Some(Error))
    && (o.answer.None? ==> o.settled.value)
    && (o.settled.value ==> o.cancel)
  }

  ghost predicate FateOk(o: Download) {
    && (o.settled.Some? <==> Final(o.status))
    && (Final(o.status) ==> OutcomeOk(o))
    && (o.status == CancelInProgress ==> o.cancel)
    && (o.adder.Some? ==> o.status == NotStarted && o.answer.None?)
  }

  /** What the run thread knows before it settles. */
  ghost predicate RunFate(o: Download, pc: Pc) {
    if pc.RunCheck? then o.status == Queued && o.answer.None?
    else if pc.RunPerform? then o.status in {InProgress, CancelInProgress} && o.answer.None?
    else if pc.RunSettle? then
      !Final(o.status) && if o.answer.None? then pc.res == Obsolete && o.cancel else o.answer == Some(pc.res)
    else true
  }

  ghost predicate Fates(s: State) {
    forall d :: d in s.shared.heap ==> FateOk(s.shared.heap[d])
  }

  ghost predicate RunFates(s: State) {
    forall d, t :: d in s.shared.heap && PcOf(s, t).Runs(d) ==> RunFate(s.shared.heap[d], PcOf(s, t))
  }

  // ----- one step -----

  /** What every step but the run's own leaves alone; the cancel flag is never taken back. */
  ghost predicate SameFate(o: Download, o': Download) {
    && o'.status == o.status && o'.answer == o.answer && o'.settled == o.settled && o'.adder == o.adder
    && (o.cancel ==> o'.cancel)
  }

  lemma SameFateOk(o: Download, o': Download, pc: Pc)
    requires SameFate(o, o')
    ensures FateOk(o) ==> FateOk(o')
    ensures RunFate(o, pc) ==> RunFate(o', pc)
  {
  }

  lemma RunKeepsFate(o: Download, d: Id, pc: Pc, oracle: Oracle)
    requires FateOk(o) && pc.Transferring() && RunFate(o, pc) && o.adder.None?
    ensures var (o', pc') := RunStep(o, pc, oracle); FateOk(o') && RunFate(o', pc')
  {
  }

  lemma CompleteKeepsFate(o: Download, t: Tid, pc: Pc)
    requires pc.Completing() && !pc.CmpInvoke?
    ensures var (o', next) := CompleteStep(o, t, pc); SameFate(o, o') && !next.Transferring()
  {
  }

  lemma CancelKeepsFate(o: Download, t: Tid, pc: Pc)
    requires pc.CanRegister? || pc.CanPush? || pc.CanFlag? || pc.RemWait?
    ensures var (o', next) := CancelStep(o, t, pc); SameFate(o, o') && !next.Transferring()
  {
  }

  /** Every live download was there before, with the same fate. */
  ghost predicate HeapKept(h: map<Id, Download>, h': map<Id, Download>) {
    forall e :: e in h' ==> e in h && SameFate(h[e], h'[e])
  }

  lemma DownloadStepKeeps(s: Shared, t: Tid, pc: Pc, oracle: Oracle)
    requires pc.OnDownload() && !pc.Transferring()
    ensures var (n, next) := LocalStep(s, t, pc, oracle); !next.Transferring() && HeapKept(s.heap, n.heap)
  {
    hide SameFate, CompleteStep, CancelStep;
    forall e | e in s.heap
      ensures SameFate(s.heap[e], s.heap[e])
    {
      Unchanged(s.heap[e]);
    }
    if pc.d in s.heap {
      if pc.Completing() { CompleteKeepsFate(s.heap[pc.d], t, pc); } else { CancelKeepsFate(s.heap[pc.d], t, pc); }
    }
  }

  lemma Unchanged(o: Download)
    ensures SameFate(o, o)
  {
  }

  lemma RegistryStepKeeps(s: Shared, t: Tid, pc: Pc)
    requires !pc.Transferring()
    ensures var (n, next) := RegistryStep(s, t, pc); !next.Transferring() && HeapKept(s.heap, n.heap)
  {
    hide List, RemoveAt, Repeat;
  }

  lemma LockStepKeeps(s: Shared, t: Tid, pc: Pc)
    requires pc.OnLock() || pc.CanFind? || pc.RemFind?
    ensures !LockStep(pc).Transferring() && !FindStep(s, pc).Transferring()
  {
    hide Find, ByUrl, List;
  }

  lemma OtherStepsKeep(s: Shared, t: Tid, pc: Pc, oracle: Oracle)
    requires !pc.Transferring()
    ensures var (n, next) := LocalStep(s, t, pc, oracle); !next.Transferring() && HeapKept(s.heap, n.heap)
  {
    hide RegistryStep, LockStep, FindStep, DownloadStep, SameFate;
    if pc.OnDownload() {
      DownloadStepKeeps(s, t, pc, oracle);
    } else {
      forall e | e in s.heap
        ensures SameFate(s.heap[e], s.heap[e])
      {
        Unchanged(s.heap[e]);
      }
      if pc.OnLock() || pc.CanFind? || pc.RemFind? {
        LockStepKeeps(s, t, pc);
      } else {
        RegistryStepKeeps(s, t, pc);
      }
    }
  }

  // ----- one action -----

  lemma KeptFates(s: State, n: State)
    requires Fates(s) && RunFates(s) && HeapKept(s.shared.heap, n.shared.heap)
    requires forall u :: PcOf(n, u).Transferring() ==> PcOf(n, u) == PcOf(s, u)
    ensures Fates(n) && RunFates(n)
  {
    hide FateOk, SameFate;
    forall e | e in n.shared.heap
      ensures FateOk(n.shared.heap[e])
    {
      SameFateOk(s.shared.heap[e], n.shared.heap[e], Finished);
    }
    forall e, u | e in n.shared.heap && PcOf(n, u).Runs(e)
      ensures RunFate(n.shared.heap[e], PcOf(n, u))
    {
      if PcOf(n, u).Transferring() { SameFateOk(s.shared.heap[e], n.shared.heap[e], PcOf(n, u)); }
    }
  }

  lemma RunsAlone(s: State, d: Id, t: Tid, u: Tid)
    requires Pairs(s) && d in s.shared.heap && PcOf(s, t).Runs(d) && PcOf(s, u).Runs(d)
    ensures t == u && s.shared.heap[d].runner == Some(t)
  {
    assert PairOk(s.shared.heap[d], d, t, PcOf(s, t)) && PairOk(s.shared.heap[d], d, u, PcOf(s, u));
  }

  lemma TransferKeepsFates(s: State, t: Tid, oracle: Oracle)
    requires Inv(s) && Fates(s) && RunFates(s) && PcOf(s, t).Transferring()
    ensures var n := Apply(s, Move(t, oracle)); Fates(n) && RunFates(n)
  {
    hide FateOk, RunFate, PairOk, RunStep, Lists, Queue, Urls, Deleted, Locks, Downloads;
    var pc := PcOf(s, t);
    var d := pc.d;
    var n := Apply(s, Move(t, oracle));
    assert pc.Names(d) && pc.Runs(d);
    RunnerIsStarted(s, d, t);
    RunKeepsFate(s.shared.heap[d], d, pc, oracle);
    RunStaysAt(s.shared.heap[d], pc, oracle);
    var (o', next) := RunStep(s.shared.heap[d], pc, oracle);
    assert n.shared.heap == s.shared.heap[d := o'] && forall u :: PcOf(n, u) == if u == t then next else PcOf(s, u);
    forall e, u | e in n.shared.heap && PcOf(n, u).Runs(e)
      ensures RunFate(n.shared.heap[e], PcOf(n, u))
    {
      if e == d && u != t { RunsAlone(s, d, t, u); }
    }
  }

  lemma RunnerIsStarted(s: State, d: Id, t: Tid)
    requires Pairs(s) && Downloads(s) && d in s.shared.heap && PcOf(s, t).Runs(d)
    ensures s.shared.heap[d].adder.None?
  {
    assert PairOk(s.shared.heap[d], d, t, PcOf(s, t)) && DownloadOk(s.shared.heap[d]);
  }

  lemma RunStaysAt(o: Download, pc: Pc, oracle: Oracle)
    requires pc.Transferring()
    ensures forall e :: RunStep(o, pc, oracle).1.Runs(e) ==> e == pc.d
  {
  }

  lemma StartKeepsFates(s: State, t: Tid, r: Tid)
    requires Inv(s) && Fates(s) && RunFates(s)
    ensures Fates(StartStep(s, t, r)) && RunFates(StartStep(s, t, r))
  {
    hide PairOk, Lists, Queue, Urls, Deleted, Locks, Downloads;
    var n := StartStep(s, t, r);
    if n != s {
      var d := PcOf(s, t).d;
      assert PcOf(s, t).Names(d);
      NotYetRun(s, t, d);
      forall e, u | e in n.shared.heap && PcOf(n, u).Runs(e)
        ensures RunFate(n.shared.heap[e], PcOf(n, u))
      {
        if u == r { assert FateOk(s.shared.heap[d]); } else { assert PcOf(s, u).Runs(e); }
      }
    }
  }

  lemma NotYetRun(s: State, t: Tid, d: Id)
    requires Pairs(s) && Downloads(s) && d in s.shared.heap && PcOf(s, t).Adds(d)
    ensures s.shared.heap[d].adder.Some? && forall u :: !PcOf(s, u).Runs(d)
  {
    assert PairOk(s.shared.heap[d], d, t, PcOf(s, t)) && DownloadOk(s.shared.heap[d]);
    forall u
      ensures !PcOf(s, u).Runs(d)
    {
      assert PairOk(s.shared.heap[d], d, u, PcOf(s, u));
    }
  }

  lemma AddKeepsFates(s: State, t: Tid, d: Id, info: Info)
    requires Inv(s) && Fates(s) && RunFates(s)
    ensures var n := Apply(s, Add(t, d, info)); Fates(n) && RunFates(n)
  {
    hide Pairs, Lists, Queue, Urls, Deleted, Locks, Downloads;
    var n := Apply(s, Add(t, d, info));
    forall e, u | e in n.shared.heap && PcOf(n, u).Runs(e)
      ensures RunFate(n.shared.heap[e], PcOf(n, u))
    {
      assert PcOf(s, u).Names(e);
    }
  }

  lemma ApplyFates(s: State, a: Action)
    requires Inv(s) && Fates(s) && RunFates(s)
    ensures Fates(Apply(s, a)) && RunFates(Apply(s, a))
  {
    hide Inv, Fates, RunFates, LocalStep, StartStep, SameFate;
    if a.Add? {
      AddKeepsFates(s, a.t, a.d, a.info);
    } else if a.Start? {
      StartKeepsFates(s, a.t, a.r);
    } else if a.Move? && PcOf(s, a.t).Transferring() {
      TransferKeepsFates(s, a.t, a.oracle);
    } else {
      OthersKeepFates(s, a);
    }
  }

  lemma OthersKeepFates(s: State, a: Action)
    requires Fates(s) && RunFates(s) && !a.Add? && !a.Start? && (a.Move? ==> !PcOf(s, a.t).Transferring())
    ensures Fates(Apply(s, a)) && RunFates(Apply(s, a))
  {
    hide Fates, RunFates, LocalStep, SameFate;
    forall e | e in s.shared.heap
      ensures SameFate(s.shared.heap[e], s.shared.heap[e])
    {
      Unchanged(s.shared.heap[e]);
    }
    if a.Move? && a.t in s.threads { OtherStepsKeep(s.shared, a.t, s.threads[a.t], a.oracle); }
    KeptFates(s, Apply(s, a));
  }

  // ----- every run -----

  lemma {:induction false} ExecFates(s: State, actions: seq<Action>)
    requires Inv(s) && AllAllowed(s, actions) && Fates(s) && RunFates(s)
    ensures Fates(Exec(s, actions)) && RunFates(Exec(s, actions))
    decreases actions
  {
    hide Inv, Apply, Allowed, Fates, RunFates;
    if actions != [] {
      ApplyInv(s, actions[0]);
      ApplyFates(s, actions[0]);
      ExecFates(Apply(s, actions[0]), actions[1..]);
    }
  }

  lemma ReachableFates(s: State)
    requires Reachable(s)
    ensures Fates(s) && RunFates(s)
  {
    var actions :| AllAllowed(INIT, actions) && s == Exec(INIT, actions);
    InitInv();
    ExecFates(INIT, actions);
  }

  /**
   In every reachable state a download that has ended is DOWNLOADED, CANCELDONE or FAILED by what its
   transfer answered and whether it had been cancelled when the run settled.
   */
  lemma OutcomeIs(s: State, d: Id)
    requires Reachable(s) && d in s.shared.heap
    ensures Final(s.shared.heap[d].status) ==> OutcomeOk(s.shared.heap[d])
    ensures s.shared.heap[d].settled.Some? ==> Final(s.shared.heap[d].status)
  {
    hide OutcomeOk, Reachable;
    ReachableFates(s);
    assert FateOk(s.shared.heap[d]);
  }

  /** A download that nobody has cancelled ended as its transfer went. */
  lemma UndisturbedOutcome(s: State, d: Id)
    requires Reachable(s) && d in s.shared.heap && Final(s.shared.heap[d].status) && !s.shared.heap[d].cancel
    ensures var o := s.shared.heap[d];
            && o.answer.Some?
            && o.status == match o.answer.value { case Fine => Downloaded case Obsolete => CancelDone case Error => Status.Failed }
  {
    hide Reachable;
    OutcomeIs(s, d);
  }
}
