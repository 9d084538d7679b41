/**
 What a cancellation comes to: the download it finds is flagged and, in the end, deleted; a flagged
 download ends as cancelled; and a policy that asks for removal is one more cancellation.
 */
module Cancelling {
  import opened Basics
  import opened DownloadStatus
  import opened Outcomes
  import opened Transfers
  import Rules

  // ----- what every step keeps of a download -----

  /** A right of removal is not given back, the flag is not taken back, and completion is not undone. */
  ghost predicate Onward(o: Download, o': Download) {
    && (o.ticket != NoTicket ==> o'.ticket != NoTicket)
    && (o.cancel ==> o'.cancel) && (o.reap != OK ==> o'.reap != OK)
  }

  ghost predicate Goes(s: Shared, n: Shared) {
    && (forall e :: e in s.deleted ==> e in n.deleted)
    && (forall e :: e in s.heap ==> if e in n.heap then Onward(s.heap[e], n.heap[e]) else e in n.deleted)
  }

  lemma Stays(o: Download)
    ensures Onward(o, o)
  {
  }

  lemma GoesStill(s: Shared, n: Shared)
    requires n.heap == s.heap && n.deleted == s.deleted
    ensures Goes(s, n)
  {
  }

  lemma DownloadGoes(o: Download, t: Tid, pc: Pc, oracle: Oracle)
    requires pc.OnDownload()
    ensures Onward(o, DownloadStep(o, t, pc, oracle).0)
  {
  }

  lemma RegistryGoes(s: Shared, t: Tid, pc: Pc)
    ensures Goes(s, RegistryStep(s, t, pc).0)
  {
    hide List, RemoveAt, Repeat;
  }

  lemma LocalGoes(s: Shared, t: Tid, pc: Pc, oracle: Oracle)
    ensures Goes(s, LocalStep(s, t, pc, oracle).0)
  {
    hide DownloadStep, RegistryStep, LockStep, FindStep, Goes, Onward;
    var n := LocalStep(s, t, pc, oracle).0;
    if pc.OnDownload() {
      if pc.d in s.heap { OneGoes(s, t, pc, oracle); } else { GoesStill(s, n); }
    } else if pc.OnLock() || pc.CanFind? || pc.RemFind? {
      GoesStill(s, n);
    } else {
      RegistryGoes(s, t, pc);
    }
  }

  lemma OneGoes(s: Shared, t: Tid, pc: Pc, oracle: Oracle)
    requires pc.OnDownload() && pc.d in s.heap
    ensures Goes(s, s.(heap := s.heap[pc.d := DownloadStep(s.heap[pc.d], t, pc, oracle).0]))
  {
    hide DownloadStep, Onward;
    DownloadGoes(s.heap[pc.d], t, pc, oracle);
    forall e | e in s.heap
      ensures Onward(s.heap[e], s.heap[e])
    {
      Stays(s.heap[e]);
    }
  }

  lemma ApplyGoes(s: State, a: Action)
    ensures Goes(s.shared, Apply(s, a).shared)
  {
    hide LocalStep, Goes, Onward;
    match a {
      case Move(t, oracle) => if t in s.threads { LocalGoes(s.shared, t, s.threads[t], oracle); } else { GoesStill(s.shared, s.shared); }
      case Add(t, d, info) => AddGoes(s, t, d, info);
      case Start(t, r) => StartGoes(s, t, r);
      case _ => GoesStill(s.shared, Apply(s, a).shared);
    }
  }

  lemma AddGoes(s: State, t: Tid, d: Id, info: Info)
    ensures Goes(s.shared, Apply(s, Add(t, d, info)).shared)
  {
  }

  lemma StartGoes(s: State, t: Tid, r: Tid)
    ensures Goes(s.shared, StartStep(s, t, r).shared)
  {
  }

  // ----- a removal that waits -----

  /** A removal goes on when the download has completed, or was cancelled before it was started, and waits until then. */
  lemma WaitsUntilReapable(s: State, t: Tid, oracle: Oracle)
    requires t in s.threads && s.threads[t].RemWait? && s.threads[t].d in s.shared.heap
    ensures var pc, o := s.threads[t], s.shared.heap[s.threads[t].d];
            PcOf(Apply(s, Move(t, oracle)), t) ==
            if o.reapHolder.None? && (o.reap == CallDone || (o.status == NotStarted && o.cancel)) then RemErase(pc.d, pc.i, pc.back)
            else pc
  {
    hide RegistryStep, LockStep, FindStep, RunStep, CompleteStep;
  }

  // ----- a cancellation that has found its download -----

  /**
   Thread `t` is about to register the removal of `d`, or it has got the right to remove it; it is about
   to raise the flag, or the flag is up, unless the download had completed.
   */
  ghost predicate Served(s: State, t: Tid, d: Id) {
    || (PcOf(s, t).CanRegister? && PcOf(s, t).d == d)
    || d in s.shared.deleted
    || (d in s.shared.heap && Served1(s.shared.heap[d], PcOf(s, t), d))
  }

  ghost predicate Served1(o: Download, pc: Pc, d: Id) {
    && o.ticket != NoTicket
    && (((pc.CanPush? || pc.CanFlag?) && pc.d == d) || o.cancel || o.reap != OK)
  }

  lemma OwnServed(o: Download, t: Tid, pc: Pc, d: Id, oracle: Oracle)
    requires pc.OnDownload() && pc.d == d && (pc.CanRegister? || Served1(o, pc, d))
    ensures var (o', next) := DownloadStep(o, t, pc, oracle); (next == pc && pc.CanRegister?) || Served1(o', next, d)
  {
  }

  lemma OnwardServed(o: Download, o': Download, pc: Pc, next: Pc, d: Id)
    requires Served1(o, pc, d) && Onward(o, o') && (next == pc || !((pc.CanPush? || pc.CanFlag?) && pc.d == d))
    ensures Served1(o', next, d)
  {
  }

  lemma OwnMove(s: State, t: Tid, d: Id, oracle: Oracle)
    requires Served(s, t, d) && t in s.threads && (PcOf(s, t).CanRegister? && PcOf(s, t).d == d ==> d in s.shared.heap)
    ensures Served(Apply(s, Move(t, oracle)), t, d)
  {
    hide DownloadStep, RegistryStep, LockStep, FindStep, Served1, Onward;
    var pc := s.threads[t];
    ApplyGoes(s, Move(t, oracle));
    if d !in s.shared.deleted && d in s.shared.heap {
      if pc.OnDownload() && pc.d == d {
        OwnServed(s.shared.heap[d], t, pc, d, oracle);
      } else if d in Apply(s, Move(t, oracle)).shared.heap && !(pc.CanRegister? && pc.d == d) {
        OnwardServed(s.shared.heap[d], Apply(s, Move(t, oracle)).shared.heap[d], pc, PcOf(Apply(s, Move(t, oracle)), t), d);
      }
    }
  }

  lemma OtherAction(s: State, a: Action, t: Tid, d: Id)
    requires Served(s, t, d) && (PcOf(Apply(s, a), t) == PcOf(s, t) || !PcOf(s, t).OnDownload())
    ensures Served(Apply(s, a), t, d)
  {
    hide Apply, Served1, Onward;
    ApplyGoes(s, a);
    var n := Apply(s, a);
    if d !in s.shared.deleted && d in s.shared.heap && d in n.shared.heap && !(PcOf(s, t).CanRegister? && PcOf(s, t).d == d) {
      OnwardServed(s.shared.heap[d], n.shared.heap[d], PcOf(s, t), PcOf(n, t), d);
    }
  }

  lemma OtherPc(s: State, a: Action, t: Tid)
    requires !(a.Move? && a.t == t)
    ensures PcOf(Apply(s, a), t) == PcOf(s, t) || !PcOf(s, t).OnDownload()
  {
    hide LocalStep;
  }

  lemma ServedNext(s: State, a: Action, t: Tid, d: Id)
    requires Reachable(s) && Served(s, t, d)
    ensures Served(Apply(s, a), t, d)
  {
    hide Reachable, Served, Apply;
    if a.Move? && a.t == t && t in s.threads {
      AimsAtLive(s, t, d);
      OwnMove(s, t, d, a.oracle);
    } else {
      if a.Move? && a.t == t { Absent(s, a); } else { OtherPc(s, a, t); }
      OtherAction(s, a, t, d);
    }
  }

  lemma Absent(s: State, a: Action)
    requires a.Move? && a.t !in s.threads
    ensures Apply(s, a) == s
  {
  }

  lemma AimsAtLive(s: State, t: Tid, d: Id)
    requires Reachable(s)
    ensures PcOf(s, t).CanRegister? && PcOf(s, t).d == d ==> d in s.shared.heap
  {
    hide Reachable;
    OnlyStoresCrash(s, t);
    assert PcOf(s, t).CanRegister? && PcOf(s, t).d == d ==> PcOf(s, t).Names(d);
  }

  lemma {:induction false} ServedOn(s: State, actions: seq<Action>, t: Tid, d: Id)
    requires Reachable(s) && Served(s, t, d) && AllAllowed(s, actions)
    ensures Served(Exec(s, actions), t, d) && Reachable(Exec(s, actions))
    decreases actions
  {
    hide Reachable, Served, Apply;
    if actions != [] {
      ServedNext(s, actions[0], t, d);
      Rules.ReachableNext(s, actions[0]);
      ServedOn(Apply(s, actions[0]), actions[1..], t, d);
    }
  }

  // ----- main results about cancellations -----

  /** CancelDownload goes on with the first entry that has the UUID, or else the URL, or with none. */
  lemma CancelFinds(s: State, t: Tid, req: Request, back: Back, oracle: Oracle)
    requires Reachable(s) && PcOf(s, t) == CanFind(req, back)
    ensures exists r ::
              Answers(s.shared.heap, List(s.shared, req.user), req, r) &&
              PcOf(Apply(s, Move(t, oracle)), t) ==
                if r.Hit? then CanRegister(List(s.shared, req.user)[r.i], back) else CanUnlock(back)
  {
    hide Reachable, Pairs, Downloads, Pointers, Locks, Queue, Urls, Deleted, Answers, Find;
    ReachableInv(s);
    assert ListOk(s.shared, req.user);
    FindInList(s.shared, req);
    ListsLead(s.shared, req.user);
    FindAnswers(s.shared.heap, List(s.shared, req.user), req);
    var r := Find(s.shared.heap, List(s.shared, req.user), req);
    assert PcOf(Apply(s, Move(t, oracle)), t) == if r.Hit? then CanRegister(List(s.shared, req.user)[r.i], back) else CanUnlock(back);
  }

  /**
   Once CancelDownload is done with the download it has found, somebody has the right to remove that, and
   its cancel flag is up unless it had completed; or it is deleted already.
   */
  lemma CancelMarks(s: State, t: Tid, d: Id, back: Back, actions: seq<Action>)
    requires Reachable(s) && PcOf(s, t) == CanRegister(d, back) && AllAllowed(s, actions)
    ensures var n := Exec(s, actions); var pc := PcOf(n, t);
            (pc.CanRegister? || pc.CanPush? || pc.CanFlag?) || d in n.shared.deleted ||
            (d in n.shared.heap && var o := n.shared.heap[d]; o.ticket != NoTicket && (o.cancel || o.reap != OK))
  {
    hide Reachable, AllAllowed, Exec;
    ServedOn(s, actions, t, d);
  }

  /** The download that a cancellation has found is deleted when all is quiet. */
  lemma CancelDeletes(s: State, t: Tid, d: Id, back: Back, actions: seq<Action>)
    requires Reachable(s) && PcOf(s, t) == CanRegister(d, back) && AllAllowed(s, actions)
    requires var n := Exec(s, actions); n.shared.queue == [] && forall u :: PcOf(n, u).Finished? || PcOf(n, u).WorkerIdle?
    ensures d in Exec(s, actions).shared.deleted && d !in Exec(s, actions).shared.heap
  {
    hide Reachable, AllAllowed, Exec;
    ServedOn(s, actions, t, d);
    var n := Exec(s, actions);
    if d in n.shared.heap { QuietMeansDeleted(n, d); }
    if d in n.shared.deleted { DeletedOnce(n, d); }
  }

  // ----- what the flag does -----

  /** The flag is up before the run settles. */
  ghost predicate Flagged(o: Download) {
    if o.settled.None? then o.cancel else o.settled.value
  }

  ghost predicate FlagStands(s: State, d: Id) {
    d in s.shared.deleted || (d in s.shared.heap && Flagged(s.shared.heap[d]))
  }

  lemma FlagStep(o: Download, t: Tid, pc: Pc, oracle: Oracle)
    requires pc.OnDownload() && Flagged(o) && (pc.RunSettle? ==> o.settled.None?)
    ensures Flagged(DownloadStep(o, t, pc, oracle).0)
  {
  }

  lemma FlagRegistry(s: Shared, t: Tid, pc: Pc, d: Id)
    requires d in s.heap && Flagged(s.heap[d])
    ensures var n := RegistryStep(s, t, pc).0; d in n.deleted || (d in n.heap && Flagged(n.heap[d]))
  {
    hide List, RemoveAt, Repeat;
  }

  lemma FlagMove(s: Shared, t: Tid, pc: Pc, oracle: Oracle, d: Id)
    requires d in s.heap && Flagged(s.heap[d]) && (pc.RunSettle? && pc.d == d ==> s.heap[d].settled.None?)
    ensures var n := LocalStep(s, t, pc, oracle).0; d in n.deleted || (d in n.heap && Flagged(n.heap[d]))
  {
    hide DownloadStep, RegistryStep, LockStep, FindStep, Flagged;
    if pc.OnDownload() {
      if pc.d == d { FlagStep(s.heap[d], t, pc, oracle); }
    } else if !pc.OnLock() && !pc.CanFind? && !pc.RemFind? {
      FlagRegistry(s, t, pc, d);
    }
  }

  lemma FlagNext(s: State, a: Action, d: Id)
    requires Reachable(s) && FlagStands(s, d)
    ensures FlagStands(Apply(s, a), d)
  {
    hide Reachable, LocalStep, Goes;
    ApplyGoes(s, a);
    if d in s.shared.deleted {
      StillDeleted(s.shared, Apply(s, a).shared, d);
    } else if a.Move? && a.t in s.threads {
      Unsettled(s, a.t, d);
      FlagMove(s.shared, a.t, s.threads[a.t], a.oracle, d);
    }
  }

  lemma StillDeleted(s: Shared, n: Shared, d: Id)
    requires Goes(s, n) && d in s.deleted
    ensures d in n.deleted
  {
  }

  lemma Unsettled(s: State, t: Tid, d: Id)
    requires Reachable(s) && d in s.shared.heap
    ensures PcOf(s, t).RunSettle? && PcOf(s, t).d == d ==> s.shared.heap[d].settled.None?
  {
    hide Reachable;
    ReachableFates(s);
    assert FateOk(s.shared.heap[d]);
    if PcOf(s, t).RunSettle? && PcOf(s, t).d == d {
      assert PcOf(s, t).Runs(d);
      assert RunFate(s.shared.heap[d], PcOf(s, t));
    }
  }

  lemma {:induction false} FlagOn(s: State, actions: seq<Action>, d: Id)
    requires Reachable(s) && FlagStands(s, d) && AllAllowed(s, actions)
    ensures FlagStands(Exec(s, actions), d) && Reachable(Exec(s, actions))
    decreases actions
  {
    hide Reachable, FlagStands, Apply;
    if actions != [] {
      FlagNext(s, actions[0], d);
      Rules.ReachableNext(s, actions[0]);
      FlagOn(Apply(s, actions[0]), actions[1..], d);
    }
  }

  /** A download whose flag is up before its run has settled ends as cancelled. */
  lemma FlaggedEndsCancelled(s: State, d: Id, actions: seq<Action>)
    requires Reachable(s) && d in s.shared.heap && s.shared.heap[d].cancel && s.shared.heap[d].settled.None? && AllAllowed(s, actions)
    ensures var n := Exec(s, actions);
            d in n.shared.deleted || (d in n.shared.heap && (Final(n.shared.heap[d].status) ==> n.shared.heap[d].status == CancelDone))
  {
    hide Reachable, Exec, AllAllowed;
    FlagOn(s, actions, d);
    var n := Exec(s, actions);
    if d in n.shared.heap {
      ReachableFates(n);
      assert FateOk(n.shared.heap[d]);
    }
  }

  // ----- a flag that comes before the run -----

  /** The flag is up, and nothing has been or is being transferred. */
  ghost predicate Untouched(s: State, d: Id) {
    d in s.shared.deleted ||
    (d in s.shared.heap && s.shared.heap[d].cancel && s.shared.heap[d].answer.None? && forall t :: PcOf(s, t) != RunPerform(d))
  }

  lemma UntouchedStep(s: Shared, t: Tid, pc: Pc, oracle: Oracle, d: Id)
    requires d in s.heap && s.heap[d].cancel && s.heap[d].answer.None? && pc != RunPerform(d)
    ensures var (n, next) := LocalStep(s, t, pc, oracle);
            next != RunPerform(d) && (d in n.heap ==> n.heap[d].answer.None? && n.heap[d].cancel)
  {
    hide DownloadStep, RegistryStep, LockStep, FindStep;
    if pc.OnDownload() {
      if pc.d in s.heap { UntouchedOwn(s.heap[pc.d], t, pc, oracle, d); }
    } else {
      UntouchedRegistry(s, t, pc, d);
      UntouchedLock(s, pc, d);
    }
  }

  lemma UntouchedOwn(o: Download, t: Tid, pc: Pc, oracle: Oracle, d: Id)
    requires pc.OnDownload() && pc != RunPerform(d) && (pc.d == d ==> o.cancel && o.answer.None?)
    ensures var (o', next) := DownloadStep(o, t, pc, oracle);
            next != RunPerform(d) && (pc.d == d ==> o'.cancel && o'.answer.None?)
  {
  }

  lemma UntouchedRegistry(s: Shared, t: Tid, pc: Pc, d: Id)
    requires d in s.heap && s.heap[d].cancel && s.heap[d].answer.None? && pc != RunPerform(d)
    ensures var (n, next) := RegistryStep(s, t, pc);
            next != RunPerform(d) && (d in n.heap ==> n.heap[d].answer.None? && n.heap[d].cancel)
  {
    hide List, RemoveAt, Repeat;
  }

  lemma UntouchedLock(s: Shared, pc: Pc, d: Id)
    requires pc != RunPerform(d)
    ensures LockStep(pc) != RunPerform(d) && FindStep(s, pc) != RunPerform(d)
  {
    hide Find, ByUrl, List;
  }

  lemma UntouchedNext(s: State, a: Action, d: Id)
    requires Untouched(s, d)
    ensures Untouched(Apply(s, a), d)
  {
    hide LocalStep;
    ApplyGoes(s, a);
    if d !in s.shared.deleted {
      var n := Apply(s, a);
      assert a.Move? ==> PcOf(s, a.t) != RunPerform(d);
      if a.Move? && a.t in s.threads { UntouchedStep(s.shared, a.t, s.threads[a.t], a.oracle, d); }
      forall t
        ensures PcOf(n, t) != RunPerform(d)
      {
        assert PcOf(s, t) != RunPerform(d);
      }
    }
  }

  lemma {:induction false} UntouchedOn(s: State, actions: seq<Action>, d: Id)
    requires Untouched(s, d)
    ensures Untouched(Exec(s, actions), d)
    decreases actions
  {
    hide Untouched, Apply;
    if actions != [] {
      UntouchedNext(s, actions[0], d);
      UntouchedOn(Apply(s, actions[0]), actions[1..], d);
    }
  }

  /** A download that is cancelled before its transfer begins is never transferred. */
  lemma CancelledBeforeRun(s: State, d: Id, actions: seq<Action>)
    requires d in s.shared.heap && s.shared.heap[d].cancel && s.shared.heap[d].answer.None?
    requires forall t :: PcOf(s, t) != RunPerform(d)
    ensures var n := Exec(s, actions);
            d in n.shared.deleted || (d in n.shared.heap && n.shared.heap[d].answer.None?)
  {
    hide Exec;
    UntouchedOn(s, actions, d);
  }
}
