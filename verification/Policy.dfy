/**
 The policy that asks for removal: when the run of such a download has ended, the download itself is
 cancelled by its own run thread, and in the end it is deleted, provided that no other download of the
 user has its UUID.
 */
module Policy {
  import opened Basics
  import opened DownloadStatus
  import opened Transfers
  import Rules

  // ----- distinct UUIDs -----

  /** No two downloads of a user have one UUID, unless it is empty. */
  ghost predicate Uuids(s: Shared) {
    forall d, e :: d in s.heap && e in s.heap && SameUuid(s.heap[d].info, s.heap[e].info) ==> d == e
  }

  predicate SameUuid(a: Info, b: Info) { a.user == b.user && a.uuid == b.uuid != "" }

  /** The rule for those who add downloads. */
  ghost predicate NewUuid(s: State, a: Action) {
    a.Add? ==> forall e :: e in s.shared.heap ==> !SameUuid(s.shared.heap[e].info, a.info)
  }

  ghost predicate AllNew(s: State, actions: seq<Action>)
    decreases actions
  {
    actions == [] || (NewUuid(s, actions[0]) && AllNew(Apply(s, actions[0]), actions[1..]))
  }

  /** No step changes what a download was added with. */
  ghost predicate SameInfos(h: map<Id, Download>, h': map<Id, Download>) {
    forall e :: e in h' ==> e in h && h'[e].info == h[e].info
  }

  lemma RegistryInfos(s: Shared, t: Tid, pc: Pc)
    ensures SameInfos(s.heap, RegistryStep(s, t, pc).0.heap)
  {
    hide List, RemoveAt, Repeat;
  }

  lemma DownloadInfo(o: Download, t: Tid, pc: Pc, oracle: Oracle)
    requires pc.OnDownload()
    ensures DownloadStep(o, t, pc, oracle).0.info == o.info
  {
  }

  lemma LocalInfos(s: Shared, t: Tid, pc: Pc, oracle: Oracle)
    ensures SameInfos(s.heap, LocalStep(s, t, pc, oracle).0.heap)
  {
    hide DownloadStep, RegistryStep, LockStep, FindStep, SameInfos;
    assert SameInfos(s.heap, s.heap) by { SameHeap(s.heap); }
    if pc.OnDownload() && pc.d in s.heap {
      var o := DownloadStep(s.heap[pc.d], t, pc, oracle).0;
      DownloadInfo(s.heap[pc.d], t, pc, oracle);
      OneInfo(s.heap, pc.d, o);
    }
    RegistryInfos(s, t, pc);
  }

  lemma SameHeap(h: map<Id, Download>)
    ensures SameInfos(h, h)
  {
  }

  lemma OneInfo(h: map<Id, Download>, d: Id, o: Download)
    requires d in h && o.info == h[d].info
    ensures SameInfos(h, h[d := o])
  {
  }

  lemma InfosStay(s: State, a: Action)
    requires !a.Add?
    ensures SameInfos(s.shared.heap, Apply(s, a).shared.heap)
  {
    hide LocalStep;
    if a.Move? && a.t in s.threads { LocalInfos(s.shared, a.t, s.threads[a.t], a.oracle); }
  }

  lemma UuidsStay(s: State, a: Action)
    requires Uuids(s.shared) && NewUuid(s, a)
    ensures Uuids(Apply(s, a).shared)
  {
    hide LocalStep, StartStep;
    if !a.Add? {
      InfosStay(s, a);
    } else {
      var n := Apply(s, a);
      assert forall e :: e in n.shared.heap ==> e in s.shared.heap || n.shared.heap[e].info == a.info;
    }
  }

  // ----- one download -----

  /** The run thread is on its way to cancel its own download. */
  predicate Asking(pc: Pc, info: Info, d: Id) {
    pc == CanLock(RequestFor(info), ToRun(d)) || pc == CanFind(RequestFor(info), ToRun(d)) || pc == CanRegister(d, ToRun(d))
  }

  /**
   A download that was registered is in its list until somebody has the right to remove it; one whose
   policy asks for removal, and which has signalled, is being removed or about to be.
   */
  ghost predicate PolicyOk(o: Download, rpc: Pc, d: Id) {
    && (o.adder.None? && o.ticket == NoTicket ==> o.listed)
    && (o.info.autoremove && o.signals != [] && o.ticket == NoTicket ==> o.runner.Some? && Asking(rpc, o.info, d))
  }

  lemma RunPolicy(o: Download, t: Tid, pc: Pc, oracle: Oracle, d: Id)
    requires pc.Transferring() && pc.d == d && PairOk(o, d, t, pc) && PolicyOk(o, pc, d)
    ensures var (o', next) := RunStep(o, pc, oracle); PolicyOk(o', next, d) && o'.runner == o.runner
  {
  }

  lemma EndPolicy(o: Download, t: Tid, pc: Pc, d: Id)
    requires pc.Completing() && !pc.CmpInvoke? && pc.d == d && PairOk(o, d, t, pc) && PolicyOk(o, pc, d)
    ensures var (o', next) := CompleteStep(o, t, pc); PolicyOk(o', next, d) && (o'.runner == o.runner || o'.runner.None?)
  {
  }

  lemma CancelPolicy(o: Download, t: Tid, pc: Pc, d: Id, rpc: Pc)
    requires (pc.CanRegister? || pc.CanPush? || pc.CanFlag? || pc.RemWait?) && pc.d == d && PairOk(o, d, t, pc)
    requires PolicyOk(o, rpc, d) && (o.runner == Some(t) ==> rpc == pc)
    ensures var (o', next) := CancelStep(o, t, pc);
            PolicyOk(o', if o.runner == Some(t) then next else rpc, d) && o'.runner == o.runner
  {
  }

  lemma DownloadPolicy(o: Download, t: Tid, pc: Pc, oracle: Oracle, d: Id, rpc: Pc)
    requires pc.OnDownload() && pc.d == d && PairOk(o, d, t, pc) && PolicyOk(o, rpc, d)
    requires o.runner == Some(t) ==> rpc == pc
    ensures var (o', next) := DownloadStep(o, t, pc, oracle);
            PolicyOk(o', if o.runner == Some(t) then next else rpc, d) && (o'.runner == o.runner || o'.runner.None?)
  {
    hide PolicyOk, RunStep, CompleteStep, CancelStep;
    if pc.Transferring() {
      assert o.runner == Some(t);
      RunPolicy(o, t, pc, oracle, d);
    } else if pc.Completing() {
      assert o.runner == Some(t);
      EndPolicy(o, t, pc, d);
    } else {
      CancelPolicy(o, t, pc, d, rpc);
    }
  }

  /** What the other steps do to a download. */
  ghost predicate Passed(o: Download, o': Download) {
    && o'.info == o.info && o'.signals == o.signals && o'.runner == o.runner && o'.adder == o.adder
    && (o.ticket != NoTicket ==> o'.ticket != NoTicket) && (o'.ticket == NoTicket && o.listed ==> o'.listed)
  }

  lemma PassedPolicy(o: Download, o': Download, rpc: Pc, rpc': Pc, d: Id)
    requires PolicyOk(o, rpc, d) && Passed(o, o')
    requires Asking(rpc, o.info, d) && o.runner.Some? && o.ticket == NoTicket ==> Asking(rpc', o.info, d)
    ensures PolicyOk(o', rpc', d)
  {
  }

  lemma Same(o: Download)
    ensures Passed(o, o)
  {
  }

  lemma RegistryPasses(s: Shared, t: Tid, pc: Pc, e: Id)
    requires e in s.heap && PairOk(s.heap[e], e, t, pc)
    ensures var n := RegistryStep(s, t, pc).0; e in n.heap ==> Passed(s.heap[e], n.heap[e])
  {
    hide List, RemoveAt, Repeat, RunOk, HoldOk;
  }

  // ----- the run thread asks -----

  /** The search for its own request ends at the download itself. */
  lemma FindsOwn(s: State, r: Tid, d: Id)
    requires Inv(s) && Uuids(s.shared) && d in s.shared.heap && s.shared.heap[d].listed
    requires PcOf(s, r) == CanFind(RequestFor(s.shared.heap[d].info), ToRun(d))
    ensures FindStep(s.shared, PcOf(s, r)) == CanRegister(d, ToRun(d))
  {
    hide Pairs, Downloads, Pointers, Locks, Queue, Deleted, Find;
    var info := s.shared.heap[d].info;
    var req, list := RequestFor(info), List(s.shared, info.user);
    assert ListOk(s.shared, info.user);
    FindInList(s.shared, req);
    ListsLead(s.shared, info.user);
    FindAnswers(s.shared.heap, list, req);
    assert Entry(s.shared, info.user, d);
    var k :| 0 <= k < |list| && list[k] == d;
    OwnAnswer(s.shared, list, d, k, Find(s.shared.heap, list, req));
  }

  lemma OwnAnswer(s: Shared, list: seq<Id>, d: Id, k: nat, r: Search)
    requires Uuids(s) && Urls(s) && d in s.heap && k < |list| && list[k] == d
    requires forall i :: 0 <= i < |list| ==> list[i] in s.heap && s.heap[list[i]].info.user == s.heap[d].info.user
    requires Answers(s.heap, list, RequestFor(s.heap[d].info), r)
    ensures r.Hit? && r.i < |list| && list[r.i] == d
  {
    var req := RequestFor(s.heap[d].info);
    assert UrlMatches(s.heap, list, req, k);
    if req.uuid != "" { assert UuidMatches(s.heap, list, req, k); }
  }

  lemma AskingGoesOn(s: State, r: Tid, d: Id, oracle: Oracle)
    requires Inv(s) && Uuids(s.shared) && r in s.threads && d in s.shared.heap && s.shared.heap[d].listed
    requires Asking(PcOf(s, r), s.shared.heap[d].info, d) && !PcOf(s, r).CanRegister?
    ensures Asking(PcOf(Apply(s, Move(r, oracle)), r), s.shared.heap[d].info, d)
  {
    hide Inv, FindStep;
    if PcOf(s, r).CanFind? { FindsOwn(s, r, d); }
  }

  // ----- one step of the machine -----

  ghost predicate Policies(s: State) {
    forall d :: d in s.shared.heap ==> PolicyOk(s.shared.heap[d], Rules.RunnerPc(s, d), d)
  }

  lemma MoveSameDownload(s: State, t: Tid, oracle: Oracle, d: Id)
    requires Inv(s) && t in s.threads && d in s.shared.heap && PolicyOk(s.shared.heap[d], Rules.RunnerPc(s, d), d)
    requires PcOf(s, t).OnDownload() && PcOf(s, t).d == d
    ensures var n := Apply(s, Move(t, oracle)); d in n.shared.heap && PolicyOk(n.shared.heap[d], Rules.RunnerPc(n, d), d)
  {
    hide PolicyOk, DownloadStep, Downloads, Pointers, Locks, Lists, Queue, Urls, Deleted, PairOk;
    var o := s.shared.heap[d];
    assert PairOk(o, d, t, PcOf(s, t));
    DownloadPolicy(o, t, PcOf(s, t), oracle, d, Rules.RunnerPc(s, d));
    NoRunner(Apply(s, Move(t, oracle)).shared.heap[d], Rules.RunnerPc(s, d), d);
    NoRunner(Apply(s, Move(t, oracle)).shared.heap[d], PcOf(Apply(s, Move(t, oracle)), t), d);
  }

  lemma NoRunner(o: Download, rpc: Pc, d: Id)
    ensures o.runner.None? && PolicyOk(o, rpc, d) ==> PolicyOk(o, Finished, d)
  {
  }

  lemma OtherHeap(s: State, t: Tid, oracle: Oracle, d: Id)
    requires Inv(s) && t in s.threads && d in s.shared.heap && !(PcOf(s, t).OnDownload() && PcOf(s, t).d == d)
    ensures var n := Apply(s, Move(t, oracle)); d in n.shared.heap ==> Passed(s.shared.heap[d], n.shared.heap[d])
  {
    hide DownloadStep, RegistryStep, LockStep, FindStep, Downloads, Pointers, Locks, Lists, Queue, Urls, Deleted, PairOk, Passed;
    assert PairOk(s.shared.heap[d], d, t, PcOf(s, t));
    RegistryPasses(s.shared, t, PcOf(s, t), d);
    Same(s.shared.heap[d]);
  }

  lemma MoveOtherDownload(s: State, t: Tid, oracle: Oracle, d: Id)
    requires Inv(s) && Uuids(s.shared) && t in s.threads && d in s.shared.heap && PolicyOk(s.shared.heap[d], Rules.RunnerPc(s, d), d)
    requires !(PcOf(s, t).OnDownload() && PcOf(s, t).d == d)
    ensures var n := Apply(s, Move(t, oracle));
            d in n.shared.heap ==> PolicyOk(n.shared.heap[d], Rules.RunnerPc(n, d), d)
  {
    hide LocalStep, Inv, PolicyOk, Passed, Uuids;
    var o, n := s.shared.heap[d], Apply(s, Move(t, oracle));
    OtherHeap(s, t, oracle, d);
    if d in n.shared.heap {
      SameRunner(o, n.shared.heap[d]);
      if o.runner == Some(t) && o.ticket == NoTicket && Asking(PcOf(s, t), o.info, d) {
        RunnerIsListed(s, d);
        AskingGoesOn(s, t, d, oracle);
      }
      PassedPolicy(o, n.shared.heap[d], Rules.RunnerPc(s, d), Rules.RunnerPc(n, d), d);
    }
  }

  lemma RunnerIsListed(s: State, d: Id)
    requires Inv(s) && d in s.shared.heap && PolicyOk(s.shared.heap[d], Rules.RunnerPc(s, d), d)
    requires s.shared.heap[d].runner.Some? && s.shared.heap[d].ticket == NoTicket
    ensures s.shared.heap[d].listed
  {
    hide Pairs, Pointers, Locks, Lists, Queue, Urls, Deleted;
    assert DownloadOk(s.shared.heap[d]);
  }

  lemma SameRunner(o: Download, o': Download)
    requires Passed(o, o')
    ensures o'.runner == o.runner
  {
  }

  lemma StartPolicy(s: State, t: Tid, r: Tid, d: Id)
    requires Inv(s) && d in s.shared.heap && PolicyOk(s.shared.heap[d], Rules.RunnerPc(s, d), d)
    ensures var n := StartStep(s, t, r); d in n.shared.heap && PolicyOk(n.shared.heap[d], Rules.RunnerPc(n, d), d)
  {
    hide Pointers, Locks, Lists, Queue, Urls, Deleted, RunOk, HoldOk;
    var o := s.shared.heap[d];
    assert DownloadOk(o) && PairOk(o, d, t, PcOf(s, t));
    if o.runner.Some? { assert PairOk(o, d, o.runner.value, PcOf(s, o.runner.value)); }
  }

  lemma CallPolicy(s: State, a: Action, d: Id)
    requires Inv(s) && d in s.shared.heap && PolicyOk(s.shared.heap[d], Rules.RunnerPc(s, d), d)
    requires a.Add? || a.Cancel? || a.Work?
    ensures var n := Apply(s, a); d in n.shared.heap && PolicyOk(n.shared.heap[d], Rules.RunnerPc(n, d), d)
  {
    hide Pointers, Locks, Lists, Queue, Urls, Deleted, RunOk, HoldOk;
    var o := s.shared.heap[d];
    if o.runner.Some? { assert PairOk(o, d, o.runner.value, PcOf(s, o.runner.value)); }
  }

  lemma NewPolicy(s: State, a: Action, d: Id)
    requires d !in s.shared.heap && d in Apply(s, a).shared.heap
    ensures PolicyOk(Apply(s, a).shared.heap[d], Rules.RunnerPc(Apply(s, a), d), d)
  {
    hide DownloadStep, LockStep, FindStep, List, RemoveAt, Repeat;
  }

  lemma PolicyNext(s: State, a: Action)
    requires Inv(s) && Uuids(s.shared) && Policies(s)
    ensures Policies(Apply(s, a))
  {
    hide Inv, Apply, Uuids, PolicyOk;
    var n := Apply(s, a);
    forall d | d in n.shared.heap
      ensures PolicyOk(n.shared.heap[d], Rules.RunnerPc(n, d), d)
    {
      if d !in s.shared.heap {
        NewPolicy(s, a, d);
      } else if a.Move? {
        MovePolicy(s, a.t, a.oracle, d);
      } else if a.Start? {
        StartIs(s, a.t, a.r);
        StartPolicy(s, a.t, a.r, d);
      } else {
        CallPolicy(s, a, d);
      }
    }
  }

  lemma StartIs(s: State, t: Tid, r: Tid)
    ensures Apply(s, Start(t, r)) == StartStep(s, t, r)
  {
    hide StartStep;
  }

  lemma MovePolicy(s: State, t: Tid, oracle: Oracle, d: Id)
    requires Inv(s) && Uuids(s.shared) && d in s.shared.heap && PolicyOk(s.shared.heap[d], Rules.RunnerPc(s, d), d)
    ensures var n := Apply(s, Move(t, oracle)); d in n.shared.heap ==> PolicyOk(n.shared.heap[d], Rules.RunnerPc(n, d), d)
  {
    hide LocalStep, Inv, Uuids, PolicyOk;
    if t in s.threads {
      if PcOf(s, t).OnDownload() && PcOf(s, t).d == d {
        MoveSameDownload(s, t, oracle, d);
      } else {
        MoveOtherDownload(s, t, oracle, d);
      }
    }
  }

  lemma {:induction false} PolicyOn(s: State, actions: seq<Action>)
    requires Inv(s) && Uuids(s.shared) && Policies(s) && AllAllowed(s, actions) && AllNew(s, actions)
    ensures Policies(Exec(s, actions))
    decreases actions
  {
    hide Inv, Apply, Uuids, Policies, Allowed, NewUuid;
    if actions != [] {
      PolicyNext(s, actions[0]);
      UuidsStay(s, actions[0]);
      ApplyInv(s, actions[0]);
      PolicyOn(Apply(s, actions[0]), actions[1..]);
    }
  }

  // ----- main result -----

  /** A download whose policy asks for removal is not left when its run is over and all is quiet. */
  lemma PolicyDeletes(actions: seq<Action>, d: Id)
    requires AllAllowed(INIT, actions) && AllNew(INIT, actions)
    requires var s := Exec(INIT, actions);
             d in s.shared.heap && s.shared.queue == [] && forall t :: PcOf(s, t).Finished? || PcOf(s, t).WorkerIdle?
    ensures !Exec(INIT, actions).shared.heap[d].info.autoremove
  {
    hide Inv, Exec, AllAllowed, AllNew;
    InitInv();
    PolicyOn(INIT, actions);
    var s := Exec(INIT, actions);
    assert Reachable(s);
    QuietMeansDeleted(s, d);
    OneSignal(s, d);
    assert PolicyOk(s.shared.heap[d], Rules.RunnerPc(s, d), d);
  }

  /** The rule on UUIDs is needed: of two entries with one UUID the first is found, whoever asks. */
  lemma FirstOfTwo(s: State, r: Tid, d: Id, e: Id, oracle: Oracle)
    requires Reachable(s) && d in s.shared.heap && e in s.shared.heap && SameUuid(s.shared.heap[d].info, s.shared.heap[e].info)
    requires PcOf(s, r) == CanFind(RequestFor(s.shared.heap[d].info), ToRun(d))
    requires var list := List(s.shared, s.shared.heap[d].info.user); list != [] && list[0] == e
    ensures PcOf(Apply(s, Move(r, oracle)), r) == CanRegister(e, ToRun(d))
  {
    hide Reachable, Pairs, Downloads, Pointers, Locks, Queue, Urls, Deleted, Find;
    ReachableInv(s);
    var info := s.shared.heap[d].info;
    var req, list := RequestFor(info), List(s.shared, info.user);
    assert ListOk(s.shared, info.user);
    ListsLead(s.shared, info.user);
    FindAnswers(s.shared.heap, list, req);
    assert UuidMatches(s.shared.heap, list, req, 0);
  }
}
