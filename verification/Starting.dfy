/**
 The store of the run thread.  StartDownload creates the run thread and only then stores it in the
 download, so that the download must outlive the store.  It does when no removal is registered for a
 download whose StartDownload has not returned.
 */
module Starting {
  import opened Basics
  import opened DownloadStatus
  import opened Transfers

  /** The third rule: nobody cancels a download before its StartDownload has returned. */
  ghost predicate Returned(s: State, a: Action) {
    a.Move? && PcOf(s, a.t).CanRegister? && PcOf(s, a.t).d in s.shared.heap ==>
      var o := s.shared.heap[PcOf(s, a.t).d]; o.adder.None? && o.starter.None?
  }

  ghost predicate AllReturned(s: State, actions: seq<Action>)
    decreases actions
  {
    actions == [] || (Returned(s, actions[0]) && AllReturned(Apply(s, actions[0]), actions[1..]))
  }

  /** The states reached by actions that keep all three rules. */
  ghost predicate ByRules(s: State) {
    exists actions :: AllAllowed(INIT, actions) && AllReturned(INIT, actions) && s == Exec(INIT, actions)
  }

  // ----- the invariant -----

  /** Nobody has a right to remove a download that is being started. */
  ghost predicate StartOk(o: Download) {
    && (o.adder.Some? ==> o.starter.None?)
    && (o.adder.Some? || o.starter.Some? ==> o.ticket == NoTicket)
  }

  ghost predicate StartsOk(s: State) {
    forall d :: d in s.shared.heap ==> StartOk(s.shared.heap[d])
  }

  ghost predicate StoreOk(s: Shared, t: Tid, pc: Pc) {
    && !pc.CrashedInStore?
    && (forall d :: pc.Stores(d) ==> d in s.heap)
    && (forall d :: d in s.heap ==> (pc.Stores(d) <==> s.heap[d].starter == Some(t)))
  }

  ghost predicate Stores(s: State) {
    forall t :: StoreOk(s.shared, t, PcOf(s, t))
  }

  // ----- one step -----

  /** A download as before, as far as its start goes. */
  ghost predicate Kept(o: Download, o': Download) {
    o'.starter == o.starter && o'.adder == o.adder && (StartOk(o) ==> StartOk(o'))
  }

  ghost predicate HeapKept(h: map<Id, Download>, h': map<Id, Download>) {
    forall e :: (e in h' <==> e in h) && (e in h ==> Kept(h[e], h'[e]))
  }

  /** A thread that neither stores nor has crashed in a store. */
  predicate Plain(pc: Pc) { !pc.AddStore? && !pc.CrashedInStore? }

  lemma RunKeeps(o: Download, t: Tid, pc: Pc, oracle: Oracle)
    requires pc.Transferring()
    ensures var (o', next) := RunStep(o, pc, oracle); Kept(o, o') && Plain(next)
  {
  }

  lemma CompleteKeeps(o: Download, t: Tid, pc: Pc)
    requires pc.Completing() && !pc.CmpInvoke?
    ensures var (o', next) := CompleteStep(o, t, pc); Kept(o, o') && Plain(next)
  {
  }

  lemma CancelKeeps(o: Download, t: Tid, pc: Pc)
    requires pc.CanPush? || pc.CanFlag? || pc.RemWait? || pc.CanRegister?
    requires pc.CanRegister? ==> o.adder.None? && o.starter.None?
    requires pc.CanPush? ==> o.ticket != NoTicket
    ensures var (o', next) := CancelStep(o, t, pc); Kept(o, o') && Plain(next)
  {
  }

  lemma OnDownloadKeeps(s: State, t: Tid, pc: Pc, oracle: Oracle)
    requires Inv(s) && PcOf(s, t) == pc && pc.OnDownload() && Returned(s, Move(t, oracle))
    ensures var (n, next) := LocalStep(s.shared, t, pc, oracle); Plain(next) && HeapKept(s.shared.heap, n.heap)
  {
    hide RunStep, CompleteStep, CancelStep, StartOk, Pairs, Downloads, Locks, Lists, Queue, Urls, Deleted;
    OnDownloadPoints(s, t, pc);
    var o := s.shared.heap[pc.d];
    if pc.Transferring() {
      RunKeeps(o, t, pc, oracle);
    } else if pc.Completing() {
      CompleteKeeps(o, t, pc);
    } else {
      if pc.CanPush? { PusherOwns(s, t, pc.d); }
      CancelKeeps(o, t, pc);
    }
  }

  lemma PusherOwns(s: State, t: Tid, d: Id)
    requires Pairs(s) && d in s.shared.heap && PcOf(s, t).Owns(d)
    ensures s.shared.heap[d].ticket == Held(t)
  {
    assert PairOk(s.shared.heap[d], d, t, PcOf(s, t));
  }

  lemma LockKeeps(s: Shared, t: Tid, pc: Pc, oracle: Oracle)
    requires pc.OnLock() || pc.CanFind? || pc.RemFind?
    ensures var (n, next) := LocalStep(s, t, pc, oracle); Plain(next) && n.heap == s.heap
  {
    hide Find, ByUrl, List;
  }

  lemma RegistryKeeps(s: Shared, t: Tid, pc: Pc)
    requires Plain(pc) && !pc.RemDelete?
    requires pc.WorkerIdle? && s.queue != [] ==> s.queue[0] in s.heap && s.heap[s.queue[0]].ticket == InQueue
    ensures var (n, next) := RegistryStep(s, t, pc); Plain(next) && HeapKept(s.heap, n.heap)
  {
    hide List, RemoveAt, Repeat;
  }

  /** The steps at none of the places that matter. */
  lemma OtherStepsKeep(s: State, t: Tid, pc: Pc, oracle: Oracle)
    requires Inv(s) && PcOf(s, t) == pc && Plain(pc) && !pc.RemDelete? && Returned(s, Move(t, oracle))
    ensures var (n, next) := LocalStep(s.shared, t, pc, oracle); Plain(next) && HeapKept(s.shared.heap, n.heap)
  {
    hide Inv, RegistryStep, Returned, Plain, Kept, FindStep, LockStep;
    if pc.OnDownload() {
      OnDownloadKeeps(s, t, pc, oracle);
    } else if pc.OnLock() || pc.CanFind? || pc.RemFind? {
      LockKeeps(s.shared, t, pc, oracle);
      Unchanged(s.shared.heap);
    } else {
      if s.shared.queue != [] { HeadIsQueued(s); }
      RegistryKeeps(s.shared, t, pc);
    }
  }

  lemma HeadIsQueued(s: State)
    requires Inv(s) && s.shared.queue != []
    ensures s.shared.queue[0] in s.shared.heap && s.shared.heap[s.shared.queue[0]].ticket == InQueue
  {
    hide Pairs, Downloads, Pointers, Locks, Lists, Urls, Deleted, Queue;
    QueuedIsLive(s.shared);
  }

  lemma Unchanged(h: map<Id, Download>)
    ensures HeapKept(h, h)
  {
  }

  // ----- one action -----

  lemma KeptStores(s: State, n: State)
    requires StartsOk(s) && Stores(s) && HeapKept(s.shared.heap, n.shared.heap)
    requires forall u :: PcOf(n, u) == PcOf(s, u) || (Plain(PcOf(n, u)) && Plain(PcOf(s, u)))
    ensures StartsOk(n) && Stores(n)
  {
    hide StartOk;
    forall u: Tid
      ensures StoreOk(n.shared, u, PcOf(n, u))
    {
      assert StoreOk(s.shared, u, PcOf(s, u));
      forall d | d in n.shared.heap
        ensures PcOf(n, u).Stores(d) <==> n.shared.heap[d].starter == Some(u)
      {
        assert Kept(s.shared.heap[d], n.shared.heap[d]);
      }
    }
    forall d | d in n.shared.heap
      ensures StartOk(n.shared.heap[d])
    {
      assert Kept(s.shared.heap[d], n.shared.heap[d]);
    }
  }

  lemma DeletedHeap(s: State, t: Tid, oracle: Oracle)
    requires t in s.threads && s.threads[t].RemDelete? && s.threads[t].d in s.shared.heap
    ensures var n := Apply(s, Move(t, oracle));
            n.shared.heap == s.shared.heap - {s.threads[t].d} && n.threads == s.threads[t := RemUnlock(s.threads[t].back)]
  {
  }

  lemma DeleteKeepsStores(s: State, t: Tid, oracle: Oracle)
    requires Inv(s) && StartsOk(s) && Stores(s) && t in s.threads && s.threads[t].RemDelete?
    ensures var n := Apply(s, Move(t, oracle)); StartsOk(n) && Stores(n)
  {
    hide Pairs, Downloads, Pointers, Locks, Lists, Queue, Urls, Deleted, Apply;
    var d := s.threads[t].d;
    var n := Apply(s, Move(t, oracle));
    NamesLive(s, t, d);
    DeletedHeap(s, t, oracle);
    PusherOwns(s, t, d);
    assert StartOk(s.shared.heap[d]);
    forall u: Tid
      ensures StoreOk(n.shared, u, PcOf(n, u))
    {
      assert StoreOk(s.shared, u, PcOf(s, u));
    }
  }

  lemma StoreKeepsStores(s: State, t: Tid, oracle: Oracle)
    requires StartsOk(s) && Stores(s) && t in s.threads && s.threads[t].AddStore?
    ensures var n := Apply(s, Move(t, oracle)); StartsOk(n) && Stores(n)
  {
    hide Apply;
    var d := s.threads[t].d;
    var n := Apply(s, Move(t, oracle));
    assert StoreOk(s.shared, t, PcOf(s, t)) && StartOk(s.shared.heap[d]);
    StoredHeap(s, t, oracle);
    forall u: Tid
      ensures StoreOk(n.shared, u, PcOf(n, u))
    {
      assert StoreOk(s.shared, u, PcOf(s, u));
    }
  }

  lemma StartKeepsStores(s: State, t: Tid, r: Tid)
    requires Inv(s) && StartsOk(s) && Stores(s)
    ensures StartsOk(StartStep(s, t, r)) && Stores(StartStep(s, t, r))
  {
    hide Downloads, Locks, Lists, Queue, Urls, Deleted, PairOk;
    var n := StartStep(s, t, r);
    if PcOf(s, t).AddStart? && r !in s.threads {
      var d := PcOf(s, t).d;
      assert PcOf(s, t).Names(d);
      AdderIs(s, t, d);
      assert StartOk(s.shared.heap[d]);
      forall u: Tid
        ensures StoreOk(n.shared, u, PcOf(n, u))
      {
        assert StoreOk(s.shared, u, PcOf(s, u));
      }
    }
  }

  lemma AdderIs(s: State, t: Tid, d: Id)
    requires Pairs(s) && d in s.shared.heap && PcOf(s, t).Adds(d)
    ensures s.shared.heap[d].adder == Some(t)
  {
    assert PairOk(s.shared.heap[d], d, t, PcOf(s, t));
  }

  lemma AddKeepsStores(s: State, t: Tid, d: Id, info: Info)
    requires StartsOk(s) && Stores(s)
    ensures var n := Apply(s, Add(t, d, info)); StartsOk(n) && Stores(n)
  {
    var n := Apply(s, Add(t, d, info));
    forall u: Tid
      ensures StoreOk(n.shared, u, PcOf(n, u))
    {
      assert StoreOk(s.shared, u, PcOf(s, u));
    }
  }

  lemma ApplyStores(s: State, a: Action)
    requires Inv(s) && StartsOk(s) && Stores(s) && Returned(s, a)
    ensures StartsOk(Apply(s, a)) && Stores(Apply(s, a))
  {
    hide Inv, StartsOk, Stores, StartStep, LocalStep, Returned, Kept;
    if a.Add? {
      AddKeepsStores(s, a.t, a.d, a.info);
    } else if a.Start? {
      StartKeepsStores(s, a.t, a.r);
    } else if a.Move? && a.t in s.threads {
      var pc := s.threads[a.t];
      if pc.RemDelete? {
        DeleteKeepsStores(s, a.t, a.oracle);
      } else if pc.AddStore? {
        StoreKeepsStores(s, a.t, a.oracle);
      } else {
        NotCrashed(s, a.t);
        OtherStepsKeep(s, a.t, pc, a.oracle);
        KeptStores(s, Apply(s, a));
      }
    } else {
      Unchanged(s.shared.heap);
      KeptStores(s, Apply(s, a));
    }
  }

  lemma NotCrashed(s: State, t: Tid)
    requires Stores(s)
    ensures !PcOf(s, t).CrashedInStore?
  {
    assert StoreOk(s.shared, t, PcOf(s, t));
  }

  // ----- every run -----

  lemma {:induction false} ExecStores(s: State, actions: seq<Action>)
    requires Inv(s) && AllAllowed(s, actions) && AllReturned(s, actions) && StartsOk(s) && Stores(s)
    ensures StartsOk(Exec(s, actions)) && Stores(Exec(s, actions))
    decreases actions
  {
    hide Inv, Apply, Allowed, StartsOk, Stores, Returned;
    if actions != [] {
      ApplyInv(s, actions[0]);
      ApplyStores(s, actions[0]);
      ExecStores(Apply(s, actions[0]), actions[1..]);
    }
  }

  lemma RulesInv(s: State)
    requires ByRules(s)
    ensures Reachable(s) && StartsOk(s) && Stores(s)
  {
    var actions :| AllAllowed(INIT, actions) && AllReturned(INIT, actions) && s == Exec(INIT, actions);
    InitInv();
    ExecStores(INIT, actions);
  }

  // ----- main results -----

  /** No thread ever follows a pointer to a deleted download. */
  lemma NeverCrashes(s: State, t: Tid)
    requires ByRules(s)
    ensures !PcOf(s, t).Crashed? && !PcOf(s, t).CrashedInStore?
    ensures forall d :: PcOf(s, t).Names(d) || PcOf(s, t).Stores(d) ==> d in s.shared.heap
  {
    hide ByRules, Reachable, StartsOk;
    RulesInv(s);
    OnlyStoresCrash(s, t);
    assert StoreOk(s.shared, t, PcOf(s, t));
  }

  /**
   When a download is about to be deleted, its run thread has released the reap mutex for the last
   time and is gone, its StartDownload has returned, and nothing else leads to the download.
   */
  lemma DeletedLast(s: State, t: Tid, d: Id, back: Back)
    requires ByRules(s) && PcOf(s, t) == RemDelete(d, back)
    ensures d in s.shared.heap && Exited(s.shared.heap[d])
    ensures forall u :: u != t ==> !PcOf(s, u).Names(d) && !PcOf(s, u).Stores(d)
    ensures d !in s.shared.queue && forall user :: d !in List(s.shared, user)
  {
    hide ByRules, Reachable, Inv;
    RulesInv(s);
    DeletedAfterRun(s, t, d, back);
    OwnerIs(s, t, d);
    assert StartOk(s.shared.heap[d]);
    forall u: Tid | u != t
      ensures !PcOf(s, u).Stores(d)
    {
      assert StoreOk(s.shared, u, PcOf(s, u));
    }
  }

  lemma OwnerIs(s: State, t: Tid, d: Id)
    requires Reachable(s) && d in s.shared.heap && PcOf(s, t).Owns(d)
    ensures s.shared.heap[d].ticket == Held(t)
  {
    hide Reachable, PairOk, Downloads, Pointers, Locks, Lists, Queue, Urls, Deleted;
    ReachableInv(s);
    PusherOwns(s, t, d);
  }
}
