/**
 Why the callers of the registry must keep their rules: after every step that breaks the second or third for
 the first time, some continuation without any further call follows a pointer to a deleted download.
 */
module Rules {
  import opened Basics
  import opened DownloadStatus
  import opened Starting
  import opened Transfers

  // ----- one thread that runs on its own -----

  /** The answer of the surroundings: a transfer ends at once. */
  const GO := Finish(Fine)

  function Alone(s: Shared, t: Tid, pc: Pc, n: nat): (Shared, Pc)
    decreases n
  {
    if n == 0 then (s, pc) else var (next, pc') := LocalStep(s, t, pc, GO); Alone(next, t, pc', n - 1)
  }

  function Turns(t: Tid, n: nat): seq<Action> {
    seq(n, _ => Move(t, GO))
  }

  lemma {:induction false} AloneIsExec(s: State, t: Tid, n: nat)
    requires t in s.threads
    ensures var (shared, pc) := Alone(s.shared, t, s.threads[t], n);
            Exec(s, Turns(t, n)) == State(shared, s.threads[t := pc])
    decreases n
  {
    hide LocalStep;
    if n == 0 {
      assert s.threads[t := s.threads[t]] == s.threads;
    } else {
      var (shared, pc) := LocalStep(s.shared, t, s.threads[t], GO);
      assert Turns(t, n)[1..] == Turns(t, n - 1);
      AloneIsExec(State(shared, s.threads[t := pc]), t, n - 1);
    }
  }

  lemma {:induction false} ExecConcat(s: State, a: seq<Action>, b: seq<Action>)
    ensures Exec(s, a + b) == Exec(Exec(s, a), b)
    decreases a
  {
    hide Apply;
    if a == [] {
      assert a + b == b;
    } else {
      assert (a + b)[1..] == a[1..] + b;
      ExecConcat(Apply(s, a[0]), a[1..], b);
    }
  }

  lemma {:induction false} AloneOn(s: Shared, t: Tid, pc: Pc, m: nat, n: nat)
    ensures var (next, pc') := Alone(s, t, pc, m); Alone(s, t, pc, m + n) == Alone(next, t, pc', n)
    decreases m
  {
    hide LocalStep;
    if m > 0 {
      var (next, pc') := LocalStep(s, t, pc, GO);
      AloneOn(next, t, pc', m - 1, n);
    }
  }

  lemma One(s: Shared, t: Tid, pc: Pc)
    ensures Alone(s, t, pc, 1) == LocalStep(s, t, pc, GO)
  {
    hide LocalStep;
    var (next, pc') := LocalStep(s, t, pc, GO);
    assert Alone(next, t, pc', 0) == (next, pc');
  }

  // ----- crashes to come -----

  predicate Dead(pc: Pc) { pc.Crashed? || pc.CrashedInStore? }

  /** Nobody adds or cancels a download. */
  predicate NoCalls(actions: seq<Action>) {
    forall i :: 0 <= i < |actions| ==> !actions[i].Add? && !actions[i].Cancel?
  }

  /** What has been called already can crash a thread: some continuation without another call does. */
  ghost predicate Doomed(s: State) {
    exists actions: seq<Action>, u: Tid :: NoCalls(actions) && Dead(PcOf(Exec(s, actions), u))
  }

  /** Nothing has been called, and only workers wait. */
  ghost predicate Idle(s: State) {
    s.shared == INIT.shared && forall t :: t in s.threads ==> s.threads[t] == WorkerIdle
  }

  lemma {:induction false} IdleStays(s: State, actions: seq<Action>)
    requires Idle(s) && NoCalls(actions)
    ensures Idle(Exec(s, actions))
    decreases actions
  {
    if actions != [] {
      IdleStep(s, actions[0]);
      IdleStays(Apply(s, actions[0]), actions[1..]);
    }
  }

  lemma IdleStep(s: State, a: Action)
    requires Idle(s) && !a.Add? && !a.Cancel?
    ensures Idle(Apply(s, a))
  {
  }

  /** It takes calls to doom a state. */
  lemma StartIsSafe()
    ensures !Doomed(INIT)
  {
    hide Exec, Idle;
    assert Idle(INIT) by { InitIdle(); }
    forall actions: seq<Action>, u: Tid | NoCalls(actions)
      ensures !Dead(PcOf(Exec(INIT, actions), u))
    {
      IdleStays(INIT, actions);
      IdleLives(Exec(INIT, actions), u);
    }
  }

  lemma InitIdle()
    ensures Idle(INIT)
  {
  }

  lemma IdleLives(s: State, u: Tid)
    requires Idle(s)
    ensures !Dead(PcOf(s, u))
  {
  }

  lemma DoomedBefore(s: State, actions: seq<Action>)
    requires Doomed(Exec(s, actions)) && NoCalls(actions)
    ensures Doomed(s)
  {
    hide Exec, Dead;
    var more: seq<Action>, u: Tid :| NoCalls(more) && Dead(PcOf(Exec(Exec(s, actions), more), u));
    ExecConcat(s, actions, more);
    assert NoCalls(actions + more) && Dead(PcOf(Exec(s, actions + more), u));
  }

  lemma DoomedNow(s: State, u: Tid)
    requires Dead(PcOf(s, u))
    ensures Doomed(s)
  {
    assert Exec(s, []) == s;
    assert NoCalls([]) && Dead(PcOf(Exec(s, []), u));
  }

  lemma DoomedNext(s: State, a: Action)
    requires Doomed(Apply(s, a)) && !a.Add? && !a.Cancel?
    ensures Doomed(s)
  {
    hide Apply;
    assert [a][1..] == [];
    assert Exec(s, [a]) == Exec(Apply(s, a), []) == Apply(s, a);
    DoomedBefore(s, [a]);
  }

  /** A store of the run thread in a download that is gone. */
  lemma StoreCrashes(s: State, u: Tid, d: Id)
    requires PcOf(s, u) == AddStore(d) && d !in s.shared.heap
    ensures Doomed(s)
  {
    hide Apply;
    StoredHeap(s, u, GO);
    DoomedNow(Apply(s, Move(u, GO)), u);
    DoomedNext(s, Move(u, GO));
  }

  /** A removal of a download that is gone. */
  lemma RemovalCrashes(s: State, u: Tid, d: Id, back: Back)
    requires PcOf(s, u) == RemLock(d, back) && d !in s.shared.heap
    ensures Doomed(s)
  {
    DoomedNow(Apply(s, Move(u, GO)), u);
    DoomedNext(s, Move(u, GO));
  }

  /** A fresh worker takes the head of the queue. */
  lemma Popped(s: State, w: Tid)
    requires w !in s.threads && s.shared.queue != [] && s.shared.queue[0] in s.shared.heap
    ensures var d := s.shared.queue[0];
            Exec(s, [Work(w), Move(w, GO)]) ==
            State(s.shared.(queue := s.shared.queue[1..], heap := s.shared.heap[d := s.shared.heap[d].(ticket := Held(w))]),
                  s.threads[w := RemLock(d, ToWorker)])
  {
    var m := Apply(s, Work(w));
    assert [Work(w), Move(w, GO)][1..] == [Move(w, GO)] && [Move(w, GO)][1..] == [];
    assert Exec(s, [Work(w), Move(w, GO)]) == Exec(m, [Move(w, GO)]) == Exec(Apply(m, Move(w, GO)), []);
    assert s.threads[w := WorkerIdle][w := RemLock(s.shared.queue[0], ToWorker)] == s.threads[w := RemLock(s.shared.queue[0], ToWorker)];
  }

  lemma PopCrashes(s: State, w: Tid)
    requires w !in s.threads && s.shared.queue != [] && s.shared.queue[0] !in s.shared.heap
    ensures Doomed(s)
  {
    var m := Apply(s, Work(w));
    DoomedNow(Apply(m, Move(w, GO)), w);
    DoomedNext(m, Move(w, GO));
    DoomedNext(s, Work(w));
  }

  /** A queued removal of a download that is gone. */
  lemma {:induction false} QueueCrashes(s: State, d: Id)
    requires d in s.shared.queue && d !in s.shared.heap
    ensures Doomed(s)
    decreases |s.shared.queue|
  {
    hide Doomed, Exec;
    var w := FreshTid(s.threads.Keys);
    if s.shared.queue[0] !in s.shared.heap {
      PopCrashes(s, w);
    } else {
      Popped(s, w);
      QueueCrashes(Exec(s, [Work(w), Move(w, GO)]), d);
      DoomedBefore(s, [Work(w), Move(w, GO)]);
    }
  }

  // ----- where a thread gets to -----

  /** The turns do not begin a registration. */
  predicate Clean(s: Shared, t: Tid, pc: Pc, n: nat)
    decreases n
  {
    n == 0 || (!pc.CanRegister? && var (next, pc') := LocalStep(s, t, pc, GO); Clean(next, t, pc', n - 1))
  }

  lemma {:induction false} CleanOn(s: Shared, t: Tid, pc: Pc, m: nat, n: nat)
    requires Clean(s, t, pc, m) && Clean(Alone(s, t, pc, m).0, t, Alone(s, t, pc, m).1, n)
    ensures Clean(s, t, pc, m + n)
    decreases m
  {
    hide LocalStep;
    if m > 0 {
      var (next, pc') := LocalStep(s, t, pc, GO);
      CleanOn(next, t, pc', m - 1, n);
    }
  }

  /** The actions keep all three rules. */
  ghost predicate Obeyed(s: State, actions: seq<Action>) {
    AllAllowed(s, actions) && AllReturned(s, actions)
  }

  lemma {:induction false} CleanIsObeyed(s: State, t: Tid, n: nat)
    requires t in s.threads && Clean(s.shared, t, s.threads[t], n)
    ensures Obeyed(s, Turns(t, n))
    decreases n
  {
    hide LocalStep;
    if n > 0 {
      var (shared, pc) := LocalStep(s.shared, t, s.threads[t], GO);
      assert Turns(t, n)[1..] == Turns(t, n - 1);
      CleanIsObeyed(State(shared, s.threads[t := pc]), t, n - 1);
    }
  }

  /** On its own, and without registering anything, thread `t` gets from one place to the other. */
  ghost predicate Leads(s: Shared, t: Tid, pc: Pc, s': Shared, pc': Pc) {
    exists n: nat :: Alone(s, t, pc, n) == (s', pc') && Clean(s, t, pc, n)
  }

  lemma LeadsOn(s: Shared, t: Tid, pc: Pc, s1: Shared, pc1: Pc, s2: Shared, pc2: Pc)
    requires Leads(s, t, pc, s1, pc1) && Leads(s1, t, pc1, s2, pc2)
    ensures Leads(s, t, pc, s2, pc2)
  {
    hide Alone, Clean;
    var m: nat :| Alone(s, t, pc, m) == (s1, pc1) && Clean(s, t, pc, m);
    var n: nat :| Alone(s1, t, pc1, n) == (s2, pc2) && Clean(s1, t, pc1, n);
    AloneOn(s, t, pc, m, n);
    CleanOn(s, t, pc, m, n);
    assert Alone(s, t, pc, m + n) == (s2, pc2);
  }

  lemma LeadsOnce(s: Shared, t: Tid, pc: Pc)
    requires !pc.CanRegister?
    ensures Leads(s, t, pc, LocalStep(s, t, pc, GO).0, LocalStep(s, t, pc, GO).1)
  {
    hide LocalStep;
    One(s, t, pc);
    var (next, pc') := LocalStep(s, t, pc, GO);
    assert Clean(next, t, pc', 0) && Clean(s, t, pc, 1);
    assert Alone(s, t, pc, 1) == (next, pc');
  }

  lemma LeadsExec(s: State, t: Tid, s': Shared, pc': Pc) returns (actions: seq<Action>)
    requires t in s.threads && Leads(s.shared, t, s.threads[t], s', pc')
    ensures Exec(s, actions) == State(s', s.threads[t := pc']) && Obeyed(s, actions) && NoCalls(actions)
  {
    hide Alone, Clean, Exec, Obeyed;
    var n: nat :| Alone(s.shared, t, s.threads[t], n) == (s', pc') && Clean(s.shared, t, s.threads[t], n);
    AloneIsExec(s, t, n);
    CleanIsObeyed(s, t, n);
    actions := Turns(t, n);
  }

  lemma {:induction false} AllowedConcat(s: State, a: seq<Action>, b: seq<Action>)
    requires AllAllowed(s, a) && AllAllowed(Exec(s, a), b)
    ensures AllAllowed(s, a + b)
    decreases a
  {
    hide Apply, Allowed;
    if a == [] {
      assert a + b == b;
    } else {
      assert (a + b)[1..] == a[1..] + b;
      AllowedConcat(Apply(s, a[0]), a[1..], b);
    }
  }

  lemma {:induction false} ReturnedConcat(s: State, a: seq<Action>, b: seq<Action>)
    requires AllReturned(s, a) && AllReturned(Exec(s, a), b)
    ensures AllReturned(s, a + b)
    decreases a
  {
    hide Apply, Returned;
    if a == [] {
      assert a + b == b;
    } else {
      assert (a + b)[1..] == a[1..] + b;
      ReturnedConcat(Apply(s, a[0]), a[1..], b);
    }
  }

  function With(s: Shared, d: Id, o: Download): Shared { s.(heap := s.heap[d := o]) }

  lemma WithTwice(s: Shared, d: Id, a: Download, b: Download)
    ensures With(With(s, d, a), d, b) == With(s, d, b) && With(s, d, a).heap[d] == a
  {
    assert s.heap[d := a][d := b] == s.heap[d := b];
  }

  lemma DownloadTurn(s: Shared, t: Tid, pc: Pc, o': Download, pc': Pc)
    requires pc.OnDownload() && !pc.CanRegister? && pc.d in s.heap && DownloadStep(s.heap[pc.d], t, pc, GO) == (o', pc')
    ensures Leads(s, t, pc, With(s, pc.d, o'), pc')
  {
    hide DownloadStep, Leads;
    LeadsOnce(s, t, pc);
  }

  lemma LockTurn(s: Shared, t: Tid, pc: Pc)
    requires pc.OnLock() && (pc.RemLock? ==> pc.d in s.heap) && (pc.HoldsLock() || s.lock.None?)
    ensures Leads(s, t, pc, s.(lock := if pc.HoldsLock() then None else Some(t)), LockStep(pc))
  {
    hide LockStep, Leads;
    LeadsOnce(s, t, pc);
  }

  // ----- a cancellation -----

  function Again(o: Download): Download {
    o.(callbacks := o.callbacks + 1, ticket := Registered, cancel := true)
  }

  lemma RegisterStep(s: Shared, t: Tid, d: Id, back: Back)
    requires d in s.heap && s.heap[d].cbHolder.None?
    ensures LocalStep(s, t, CanRegister(d, back), GO) ==
            if s.heap[d].reap == OK then (With(s, d, s.heap[d].(cbHolder := Some(t), ticket := Held(t))), CanPush(d, back))
            else (With(s, d, s.heap[d].(ticket := Held(t))), CanDrop(d, back))
  {
  }

  lemma PushStep(s: Shared, t: Tid, d: Id, back: Back, o: Download)
    requires d in s.heap && s.heap[d] == o.(cbHolder := Some(t), ticket := Held(t)) && o.cbHolder.None?
    ensures Leads(s, t, CanPush(d, back), With(s, d, o.(callbacks := o.callbacks + 1, ticket := Registered)), CanFlag(d, back))
  {
    hide Leads;
    DownloadTurn(s, t, CanPush(d, back), o.(callbacks := o.callbacks + 1, ticket := Registered), CanFlag(d, back));
  }

  lemma FlagStep(s: Shared, t: Tid, d: Id, back: Back)
    requires d in s.heap
    ensures Leads(s, t, CanFlag(d, back), With(s, d, s.heap[d].(cancel := true)), CanUnlock(back))
  {
    hide Leads;
    DownloadTurn(s, t, CanFlag(d, back), s.heap[d].(cancel := true), CanUnlock(back));
  }

  lemma Pushes(s: Shared, t: Tid, d: Id, back: Back, o: Download)
    requires d in s.heap && s.heap[d] == o.(cbHolder := Some(t), ticket := Held(t)) && o.cbHolder.None?
    ensures Leads(s, t, CanPush(d, back), With(s, d, Again(o)).(lock := None), Return(back))
  {
    hide Leads;
    var o2 := o.(callbacks := o.callbacks + 1, ticket := Registered);
    PushStep(s, t, d, back, o);
    var s2 := With(s, d, o2);
    FlagStep(s2, t, d, back);
    WithTwice(s, d, o2, Again(o));
    var s3 := With(s, d, Again(o));
    LockTurn(s3, t, CanUnlock(back));
    var s4 := s3.(lock := None);
    LeadsOn(s2, t, CanFlag(d, back), s3, CanUnlock(back), s4, Return(back));
    LeadsOn(s, t, CanPush(d, back), s2, CanFlag(d, back), s4, Return(back));
  }

  function Dropped(o: Download, t: Tid): Download { o.(ticket := Held(t)) }

  /** A registration: the removal is registered, or with a download that has completed, to be done at once. */
  lemma Registers(s: State, t: Tid, d: Id, back: Back) returns (actions: seq<Action>)
    requires PcOf(s, t) == CanRegister(d, back) && d in s.shared.heap && s.shared.heap[d].cbHolder.None?
    ensures var o := s.shared.heap[d];
            Exec(s, actions) ==
            if o.reap == OK then State(With(s.shared, d, Again(o)).(lock := None), s.threads[t := Return(back)])
            else State(With(s.shared, d, Dropped(o, t)).(lock := None), s.threads[t := RemLock(d, back)])
    ensures s.shared.heap[d].ticket == NoTicket ==> AllAllowed(s, actions)
    ensures s.shared.heap[d].adder.None? && s.shared.heap[d].starter.None? ==> AllReturned(s, actions)
    ensures |actions| > 0 && actions[0] == Move(t, GO) && NoCalls(actions)
  {
    hide Leads, LocalStep, AllAllowed, AllReturned, Exec;
    var o := s.shared.heap[d];
    RegisterStep(s.shared, t, d, back);
    var m := Apply(s, Move(t, GO));
    var more;
    if o.reap == OK {
      var o1 := o.(cbHolder := Some(t), ticket := Held(t));
      Pushes(m.shared, t, d, back, o);
      WithTwice(s.shared, d, o1, Again(o));
      more := LeadsExec(m, t, With(s.shared, d, Again(o)).(lock := None), Return(back));
    } else {
      LockTurn(m.shared, t, CanDrop(d, back));
      more := LeadsExec(m, t, m.shared.(lock := None), RemLock(d, back));
    }
    FirstMove(s, Move(t, GO), more);
    actions := [Move(t, GO)] + more;
  }

  lemma FirstMove(s: State, a: Action, more: seq<Action>)
    ensures Exec(s, [a] + more) == Exec(Apply(s, a), more)
    ensures Allowed(s, a) && AllAllowed(Apply(s, a), more) ==> AllAllowed(s, [a] + more)
    ensures Returned(s, a) && AllReturned(Apply(s, a), more) ==> AllReturned(s, [a] + more)
  {
    hide Apply, Allowed, Returned;
    assert ([a] + more)[1..] == more;
  }

  // ----- a removal -----

  lemma FindTurn(s: Shared, t: Tid, pc: Pc)
    requires pc.CanFind? || pc.RemFind?
    ensures Leads(s, t, pc, s, FindStep(s, pc))
  {
    hide FindStep, Leads;
    LeadsOnce(s, t, pc);
  }

  lemma RegistryTurn(s: Shared, t: Tid, pc: Pc)
    requires pc.RemErase? || pc.RemDelete? || pc.CmpInvoke? || pc.AddPush? || pc.AddStore?
    ensures Leads(s, t, pc, RegistryStep(s, t, pc).0, RegistryStep(s, t, pc).1)
  {
    hide RegistryStep, Leads;
    LeadsOnce(s, t, pc);
  }

  /** From the lock to the wait: the search ends at the download's own entry. */
  lemma Searches(s: Shared, t: Tid, d: Id, back: Back) returns (i: nat)
    requires d in s.heap && s.heap[d].listed && ListOk(s, s.heap[d].info.user) && Urls(s) && s.lock.None?
    ensures At(List(s, s.heap[d].info.user), i, d)
    ensures Leads(s, t, RemLock(d, back), s.(lock := Some(t)), RemWait(d, i, back))
  {
    hide Leads, ListOk;
    var l := s.(lock := Some(t));
    SameList(s, l, s.heap[d].info.user);
    FindsItself(l, d);
    i := ByUrl(l.heap, List(l, l.heap[d].info.user), l.heap[d].info.url).i;
    LockTurn(s, t, RemLock(d, back));
    FindTurn(l, t, RemFind(d, back));
    LeadsOn(s, t, RemLock(d, back), l, RemFind(d, back), l, RemWait(d, i, back));
  }

  /** The registry without the download. */
  function Without(s: Shared, d: Id, i: nat): Shared
    requires d in s.heap
  {
    var user := s.heap[d].info.user;
    s.(transfers := s.transfers[user := RemoveAt(List(s, user), i)], heap := s.heap - {d}, deleted := s.deleted + [d])
  }

  lemma EraseTurn(s: Shared, t: Tid, d: Id, i: nat, back: Back)
    requires d in s.heap
    ensures var user := s.heap[d].info.user;
            Leads(s, t, RemErase(d, i, back),
                  With(s, d, s.heap[d].(listed := false)).(transfers := s.transfers[user := RemoveAt(List(s, user), i)]), RemDelete(d, back))
  {
    hide Leads;
    RegistryTurn(s, t, RemErase(d, i, back));
  }

  lemma DeleteTurn(s: Shared, t: Tid, d: Id, back: Back)
    requires d in s.heap
    ensures Leads(s, t, RemDelete(d, back), s.(heap := s.heap - {d}, deleted := s.deleted + [d]), RemUnlock(back))
  {
    hide Leads;
    RegistryTurn(s, t, RemDelete(d, back));
  }

  /** From the end of the wait to the deletion. */
  lemma Deletes(s: Shared, t: Tid, d: Id, i: nat, back: Back)
    requires d in s.heap && s.heap[d].reapHolder.None? && s.heap[d].reap == CallDone
    ensures Leads(s, t, RemWait(d, i, back), Without(s, d, i), RemUnlock(back))
  {
    hide Leads;
    var o, user := s.heap[d], s.heap[d].info.user;
    DownloadTurn(s, t, RemWait(d, i, back), o, RemErase(d, i, back));
    assert s.heap[d := o] == s.heap;
    EraseTurn(s, t, d, i, back);
    var s1 := With(s, d, o.(listed := false)).(transfers := s.transfers[user := RemoveAt(List(s, user), i)]);
    DeleteTurn(s1, t, d, back);
    assert s1.heap - {d} == s.heap - {d};
    LeadsOn(s, t, RemErase(d, i, back), s1, RemDelete(d, back), Without(s, d, i), RemUnlock(back));
    LeadsOn(s, t, RemWait(d, i, back), s, RemErase(d, i, back), Without(s, d, i), RemUnlock(back));
  }

  // ----- the end of a run -----

  /** What Complete leaves of the download. */
  function Over(o: Download): Download {
    Invoked(o).(reap := CallDone, reapHolder := None, runner := None)
  }

  function Queued(s: Shared, d: Id): Shared
    requires d in s.heap
  {
    With(s, d, Over(s.heap[d])).(queue := s.queue + Repeat(d, s.heap[d].callbacks))
  }

  lemma Marks(s: Shared, u: Tid, d: Id)
    requires d in s.heap && s.heap[d].reapHolder.None?
    ensures Leads(s, u, CmpLock(d), With(s, d, s.heap[d].(reap := CallDone, runner := None)), Finished)
  {
    hide Leads;
    var o := s.heap[d];
    var o1, o2, o3 := o.(reapHolder := Some(u)), o.(reapHolder := Some(u), reap := CallDone), o.(reap := CallDone, runner := None);
    DownloadTurn(s, u, CmpLock(d), o1, CmpMark(d));
    DownloadTurn(With(s, d, o1), u, CmpMark(d), o2, CmpUnlock(d));
    DownloadTurn(With(s, d, o2), u, CmpUnlock(d), o3, Finished);
    WithTwice(s, d, o1, o2);
    WithTwice(s, d, o2, o3);
    LeadsOn(With(s, d, o1), u, CmpMark(d), With(s, d, o2), CmpUnlock(d), With(s, d, o3), Finished);
    LeadsOn(s, u, CmpLock(d), With(s, d, o1), CmpMark(d), With(s, d, o3), Finished);
  }

  /** What the steps from `pc` on leave. */
  function Ended(s: Shared, d: Id, pc: Pc): Shared
    requires d in s.heap
  {
    if pc.CmpNotify? || pc.CmpInvoke? then Queued(s, d)
    else With(s, d, s.heap[d].(reap := CallDone, reapHolder := None, runner := None))
  }

  lemma InvokeTurn(s: Shared, u: Tid, d: Id)
    requires d in s.heap && s.heap[d].cbHolder.None?
    ensures Leads(s, u, CmpInvoke(d), With(s, d, Invoked(s.heap[d])).(queue := s.queue + Repeat(d, s.heap[d].callbacks)), CmpLock(d))
  {
    hide Leads, Repeat;
    RegistryTurn(s, u, CmpInvoke(d));
  }

  lemma Invokes(s: Shared, u: Tid, d: Id)
    requires d in s.heap && s.heap[d].cbHolder.None? && s.heap[d].reapHolder.None?
    ensures Leads(s, u, CmpInvoke(d), Queued(s, d), Finished)
  {
    hide Leads, Repeat;
    var s1 := With(s, d, Invoked(s.heap[d])).(queue := s.queue + Repeat(d, s.heap[d].callbacks));
    InvokeTurn(s, u, d);
    Marks(s1, u, d);
    WithTwice(s, d, Invoked(s.heap[d]), Over(s.heap[d]));
    LeadsOn(s, u, CmpInvoke(d), s1, CmpLock(d), Queued(s, d), Finished);
  }

  lemma NotifyTurn(s: Shared, u: Tid, d: Id)
    requires d in s.heap
    ensures Leads(s, u, CmpNotify(d), s, CmpInvoke(d))
  {
    hide Leads;
    DownloadTurn(s, u, CmpNotify(d), s.heap[d], CmpInvoke(d));
    assert s.heap[d := s.heap[d]] == s.heap;
  }

  lemma MarkTurn(s: Shared, u: Tid, d: Id)
    requires d in s.heap
    ensures Leads(s, u, CmpUnlock(d), With(s, d, s.heap[d].(reapHolder := None, runner := None)), Finished)
    ensures Leads(s, u, CmpMark(d), With(s, d, s.heap[d].(reap := CallDone)), CmpUnlock(d))
  {
    hide Leads;
    DownloadTurn(s, u, CmpUnlock(d), s.heap[d].(reapHolder := None, runner := None), Finished);
    DownloadTurn(s, u, CmpMark(d), s.heap[d].(reap := CallDone), CmpUnlock(d));
  }

  /** A run that is past its signals ends. */
  lemma Leaves(s: Shared, u: Tid, d: Id, pc: Pc)
    requires Leaving(pc, d) && d in s.heap && s.heap[d].cbHolder.None?
    requires pc.CmpMark? || pc.CmpUnlock? || s.heap[d].reapHolder.None?
    requires pc.CmpUnlock? ==> s.heap[d].reap == CallDone
    ensures Leads(s, u, pc, Ended(s, d, pc), Finished)
  {
    hide Leads, Queued;
    if pc.CmpNotify? {
      NotifyTurn(s, u, d);
      Invokes(s, u, d);
      LeadsOn(s, u, pc, s, CmpInvoke(d), Queued(s, d), Finished);
    } else if pc.CmpInvoke? {
      Invokes(s, u, d);
    } else if pc.CmpLock? {
      Marks(s, u, d);
    } else if pc.CmpMark? {
      var o1 := s.heap[d].(reap := CallDone);
      MarkTurn(s, u, d);
      MarkTurn(With(s, d, o1), u, d);
      WithTwice(s, d, o1, o1.(reapHolder := None, runner := None));
      LeadsOn(s, u, pc, With(s, d, o1), CmpUnlock(d), Ended(s, d, pc), Finished);
    } else {
      MarkTurn(s, u, d);
    }
  }

  // ----- a run -----

  /** A run changes its outcome and nothing else. */
  predicate Ran(o: Download, o': Download) {
    o' == o.(status := o'.status, answer := o'.answer, settled := o'.settled, signals := o'.signals)
  }

  function AfterRun(o: Download, d: Id): Pc {
    if o.info.autoremove then CanLock(RequestFor(o.info), ToRun(d)) else CmpClose(d)
  }

  lemma RunTurn(s: Shared, t: Tid, pc: Pc) returns (o': Download, pc': Pc)
    requires pc.Transferring() && pc.d in s.heap
    ensures Ran(s.heap[pc.d], o') && Leads(s, t, pc, With(s, pc.d, o'), pc')
    ensures if pc.RunSignal? then pc' == AfterRun(s.heap[pc.d], pc.d)
            else pc'.Transferring() && pc'.d == pc.d && RunLeft(pc') < RunLeft(pc)
  {
    hide Leads;
    var step := RunStep(s.heap[pc.d], pc, GO);
    o', pc' := step.0, step.1;
    DownloadTurn(s, t, pc, o', pc');
  }

  function RunLeft(pc: Pc): nat {
    if pc.RunCheck? then 3 else if pc.RunPerform? then 2 else if pc.RunSettle? then 1 else 0
  }

  lemma {:induction false} RunEnds(s: Shared, t: Tid, pc: Pc) returns (o': Download)
    requires pc.Transferring() && pc.d in s.heap
    ensures Ran(s.heap[pc.d], o') && Leads(s, t, pc, With(s, pc.d, o'), AfterRun(s.heap[pc.d], pc.d))
    decreases RunLeft(pc)
  {
    hide Leads;
    var pc';
    o', pc' := RunTurn(s, t, pc);
    if !pc.RunSignal? {
      var s1 := With(s, pc.d, o');
      var o2 := RunEnds(s1, t, pc');
      WithTwice(s, pc.d, o', o2);
      LeadsOn(s, t, pc, s1, pc', With(s, pc.d, o2), AfterRun(o', pc.d));
      o' := o2;
    }
  }

  // ----- the registry while its mutex is free -----

  /** The thread of a run that is past its signals. */
  predicate LeaverOk(o: Download, d: Id, pc: Pc) {
    && Leaving(pc, d)
    && (o.reapHolder.Some? ==> pc.CmpMark? || pc.CmpUnlock?)
    && (pc.CmpUnlock? ==> o.reap == CallDone)
  }

  predicate RestOk(o: Download, d: Id, pc: Pc) {
    && o.cbHolder.None?
    && (if o.reap == OK then o.reapHolder.None?
        else if o.runner.None? then o.reap == CallDone && o.reapHolder.None?
        else LeaverOk(o, d, pc))
  }

  function RunnerPc(s: State, d: Id): Pc
    requires d in s.shared.heap
  {
    if s.shared.heap[d].runner.Some? then PcOf(s, s.shared.heap[d].runner.value) else Finished
  }

  /** Nobody is registering, and each run that has completed, or is completing, can end. */
  ghost predicate Still(s: State) {
    && Lists(s.shared) && Urls(s.shared)
    && forall d :: d in s.shared.heap ==> RestOk(s.shared.heap[d], d, RunnerPc(s, d))
  }

  ghost predicate Quiet(s: State) { Still(s) && s.shared.lock.None? }

  lemma RestHolds(s: State, d: Id)
    requires Pairs(s) && Downloads(s) && d in s.shared.heap && s.shared.heap[d].cbHolder.None?
    ensures RestOk(s.shared.heap[d], d, RunnerPc(s, d))
  {
    var o := s.shared.heap[d];
    assert DownloadOk(o);
    if o.runner.Some? { assert PairOk(o, d, o.runner.value, PcOf(s, o.runner.value)); }
  }

  /** While the holder of the mutex is not registering. */
  lemma HeldIsStill(s: State, t: Tid)
    requires Inv(s) && PcOf(s, t).HoldsLock() && !PcOf(s, t).CanPush?
    ensures Still(s)
  {
    hide RestOk, Queue, Deleted, Lists, Urls;
    forall d | d in s.shared.heap
      ensures RestOk(s.shared.heap[d], d, RunnerPc(s, d))
    {
      NoneRegisters(s, t, d);
      RestHolds(s, d);
    }
  }

  lemma FreeIsQuiet(s: State)
    requires Inv(s) && s.shared.lock.None?
    ensures Quiet(s)
  {
    hide RestOk, Queue, Deleted, Lists, Urls;
    forall d | d in s.shared.heap
      ensures RestOk(s.shared.heap[d], d, RunnerPc(s, d))
    {
      Owners(s, d);
      if s.shared.heap[d].cbHolder.Some? { assert LockOk(s.shared, s.shared.heap[d].cbHolder.value, PcOf(s, s.shared.heap[d].cbHolder.value)); }
      RestHolds(s, d);
    }
  }

  /** What keeps a download at rest. */
  predicate AtRest(o: Download, o': Download) {
    && o'.info == o.info && o'.listed == o.listed && o'.reap == o.reap && o'.runner == o.runner
    && o'.reapHolder == o.reapHolder && o'.cbHolder == o.cbHolder
  }

  /** Thread `t` is not about to end a run. */
  predicate NoLeaver(pc: Pc) {
    !pc.CmpNotify? && !pc.CmpInvoke? && !pc.CmpLock? && !pc.CmpMark? && !pc.CmpUnlock?
  }

  lemma StillMoves(s: State, n: State, t: Tid)
    requires Still(s) && NoLeaver(PcOf(s, t)) && forall u: Tid :: u != t ==> PcOf(n, u) == PcOf(s, u)
    requires Lists(n.shared) && Urls(n.shared)
    requires forall d :: d in n.shared.heap ==> d in s.shared.heap && AtRest(s.shared.heap[d], n.shared.heap[d])
    ensures Still(n)
  {
    hide Lists, Urls;
    forall d | d in n.shared.heap
      ensures RestOk(n.shared.heap[d], d, RunnerPc(n, d))
    {
      assert RestOk(s.shared.heap[d], d, RunnerPc(s, d));
    }
  }

  // ----- whole states -----

  predicate DoneWith(o: Download) {
    o.reap == CallDone && o.reapHolder.None? && o.runner.None? && o.cbHolder.None?
  }

  /** Download `d` and thread `u` have changed. */
  ghost predicate Touched(s: State, n: State, u: Tid, d: Id) {
    && d in s.shared.heap && d in n.shared.heap && n.shared.heap == s.shared.heap[d := n.shared.heap[d]]
    && n.shared.heap[d].info == s.shared.heap[d].info && n.shared.heap[d].listed == s.shared.heap[d].listed
    && n.shared.transfers == s.shared.transfers
    && forall x: Tid :: x != u ==> PcOf(n, x) == PcOf(s, x)
  }

  lemma TouchedStill(s: State, n: State, u: Tid, d: Id)
    requires Still(s) && NoLeaver(PcOf(s, u)) && Touched(s, n, u, d) && AtRest(s.shared.heap[d], n.shared.heap[d])
    ensures Still(n)
  {
    hide Lists, Urls, RestOk;
    SameLists(s.shared, n.shared, d);
    SameUrls(s.shared, n.shared, d);
    StillMoves(s, n, u);
  }

  lemma StillEnds(s: State, n: State, u: Tid, d: Id)
    requires Still(s) && Touched(s, n, u, d) && (NoLeaver(PcOf(s, u)) || Leaving(PcOf(s, u), d)) && DoneWith(n.shared.heap[d])
    ensures Still(n)
  {
    hide Lists, Urls;
    SameLists(s.shared, n.shared, d);
    SameUrls(s.shared, n.shared, d);
    forall e | e in n.shared.heap
      ensures RestOk(n.shared.heap[e], e, RunnerPc(n, e))
    {
      if e != d { assert RestOk(s.shared.heap[e], e, RunnerPc(s, e)); }
    }
  }

  lemma EndedIs(s: Shared, d: Id, pc: Pc)
    requires d in s.heap && Leaving(pc, d) && s.heap[d].cbHolder.None?
    ensures var n := Ended(s, d, pc);
            && n.heap == s.heap[d := n.heap[d]] && d in n.heap && DoneWith(n.heap[d]) && n.heap[d].info == s.heap[d].info
            && n.heap[d].listed == s.heap[d].listed && n.transfers == s.transfers && n.lock == s.lock && s.queue <= n.queue
            && ((pc.CmpNotify? || pc.CmpInvoke?) ==> n.queue == s.queue + Repeat(d, s.heap[d].callbacks))
  {
  }

  lemma InRepeat(q: seq<Id>, d: Id, n: nat)
    ensures n > 0 ==> d in q + Repeat(d, n)
    ensures multiset(q + Repeat(d, n))[d] >= n
    decreases n
  {
    if n > 0 {
      InRepeat(q, d, n - 1);
      assert q + Repeat(d, n) == (q + Repeat(d, n - 1)) + [d];
    }
  }

  /** The download has, or its run will queue, another removal. */
  ghost predicate Coming(s: State, d: Id)
    requires d in s.shared.heap
  {
    d in s.shared.queue ||
    (s.shared.heap[d].callbacks > 0 && s.shared.heap[d].runner.Some? && (RunnerPc(s, d).CmpNotify? || RunnerPc(s, d).CmpInvoke?))
  }

  /** A run that is past its signals ends, whoever holds the registry mutex. */
  lemma LeaverRuns(s: State, d: Id) returns (actions: seq<Action>)
    requires Still(s) && d in s.shared.heap && s.shared.heap[d].reap != OK
    ensures NoCalls(actions)
    ensures var n := Exec(s, actions);
            && Still(n) && n.shared.lock == s.shared.lock && d in n.shared.heap && DoneWith(n.shared.heap[d])
            && n.shared.heap[d].info == s.shared.heap[d].info && n.shared.heap[d].listed == s.shared.heap[d].listed
            && n.shared.heap == s.shared.heap[d := n.shared.heap[d]] && n.shared.transfers == s.shared.transfers
            && (Coming(s, d) ==> d in n.shared.queue)
            && forall x: Tid :: PcOf(n, x) == PcOf(s, x) || Leaving(PcOf(s, x), d)
  {
    hide Leads, Ended, Still;
    LeaverStands(s, d);
    if s.shared.heap[d].runner.None? {
      actions := [];
      assert Exec(s, actions) == s;
    } else {
      var u := s.shared.heap[d].runner.value;
      var pc := PcOf(s, u);
      Leaves(s.shared, u, d, pc);
      EndedIs(s.shared, d, pc);
      actions := LeadsExec(s, u, Ended(s.shared, d, pc), Finished);
      StillEnds(s, Exec(s, actions), u, d);
      InRepeat(s.shared.queue, d, s.shared.heap[d].callbacks);
    }
  }

  lemma LeaverStands(s: State, d: Id)
    requires Still(s) && d in s.shared.heap && s.shared.heap[d].reap != OK
    ensures RestOk(s.shared.heap[d], d, RunnerPc(s, d))
  {
    hide RestOk;
  }

  lemma WithoutList(s: Shared, n: Shared, d: Id, i: nat, user: nat)
    requires ListOk(s, user) && d in s.heap && At(List(s, s.heap[d].info.user), i, d)
    requires n.heap == s.heap - {d}
    requires n.transfers == s.transfers[s.heap[d].info.user := RemoveAt(List(s, s.heap[d].info.user), i)]
    ensures ListOk(n, user)
  {
    var m := n.(heap := s.heap[d := s.heap[d].(listed := false)]);
    EraseList(s, m, d, i, user);
    assert forall e :: Entry(n, user, e) <==> Entry(m, user, e);
  }

  lemma WithoutStill(s: State, n: State, w: Tid, d: Id, i: nat)
    requires Still(s) && NoLeaver(PcOf(s, w)) && d in s.shared.heap && At(List(s.shared, s.shared.heap[d].info.user), i, d)
    requires n.shared.heap == s.shared.heap - {d} && forall x: Tid :: x != w ==> PcOf(n, x) == PcOf(s, x)
    requires n.shared.transfers ==
             s.shared.transfers[s.shared.heap[d].info.user := RemoveAt(List(s.shared, s.shared.heap[d].info.user), i)]
    ensures Still(n)
  {
    hide ListOk, RestOk;
    forall user
      ensures ListOk(n.shared, user)
    {
      WithoutList(s.shared, n.shared, d, i, user);
    }
    StillMoves(s, n, w);
  }

  /** A removal of a download whose run is over, while the registry mutex is free. */
  lemma RemovalRuns(s: State, w: Tid, d: Id, back: Back) returns (actions: seq<Action>)
    requires Quiet(s) && PcOf(s, w) == RemLock(d, back)
    requires d in s.shared.heap && s.shared.heap[d].listed && DoneWith(s.shared.heap[d])
    ensures var n := Exec(s, actions);
            && Still(n) && n.shared.lock == Some(w) && PcOf(n, w) == RemUnlock(back)
            && n.shared.heap == s.shared.heap - {d} && n.shared.queue == s.shared.queue
            && forall x: Tid :: x != w ==> PcOf(n, x) == PcOf(s, x)
    ensures Obeyed(s, actions) && NoCalls(actions)
  {
    hide Leads, RestOk, ListOk, Urls, Obeyed, Exec;
    var l := s.shared.(lock := Some(w));
    assert ListOk(s.shared, s.shared.heap[d].info.user);
    var i := Searches(s.shared, w, d, back);
    Deletes(l, w, d, i, back);
    LeadsOn(s.shared, w, RemLock(d, back), l, RemWait(d, i, back), Without(l, d, i), RemUnlock(back));
    actions := LeadsExec(s, w, Without(l, d, i), RemUnlock(back));
    WithoutStill(s, Exec(s, actions), w, d, i);
  }

  /** Another thread has yet to follow its pointer to the download. */
  ghost predicate Harm(s: State, w: Tid, d: Id) {
    exists u: Tid :: u != w && (PcOf(s, u) == AddStore(d) || (PcOf(s, u).RemLock? && PcOf(s, u).d == d))
  }

  lemma GoneDooms(s: State, w: Tid, d: Id)
    requires d !in s.shared.heap && (d in s.shared.queue || Harm(s, w, d))
    ensures Doomed(s)
  {
    hide Doomed;
    if d in s.shared.queue {
      QueueCrashes(s, d);
    } else {
      var u: Tid :| u != w && (PcOf(s, u) == AddStore(d) || (PcOf(s, u).RemLock? && PcOf(s, u).d == d));
      if PcOf(s, u) == AddStore(d) { StoreCrashes(s, u, d); } else { RemovalCrashes(s, u, d, PcOf(s, u).back); }
    }
  }

  /** A removal that can go on, when something else leads to the download. */
  lemma RemovalDooms(s: State, w: Tid, d: Id, back: Back)
    requires Quiet(s) && PcOf(s, w) == RemLock(d, back)
    requires d in s.shared.heap ==>
               s.shared.heap[d].listed && s.shared.heap[d].reap != OK && (Coming(s, d) || Harm(s, w, d))
    ensures Doomed(s)
  {
    hide Doomed, Still, Coming, Exec;
    if d !in s.shared.heap {
      RemovalCrashes(s, w, d, back);
    } else {
      var first := LeaverRuns(s, d);
      var m := Exec(s, first);
      assert Harm(s, w, d) ==> Harm(m, w, d);
      var second := RemovalRuns(m, w, d, back);
      var n := Exec(m, second);
      assert Harm(m, w, d) ==> Harm(n, w, d);
      GoneDooms(n, w, d);
      DoomedBefore(m, second);
      DoomedBefore(s, first);
    }
  }

  /** A queued removal that can go on, when something else leads to the download or it is queued twice. */
  lemma {:induction false} QueueDooms(s: State, d: Id)
    requires Quiet(s) && d in s.shared.queue
    requires d in s.shared.heap ==> s.shared.heap[d].listed && s.shared.heap[d].reap != OK
    requires multiset(s.shared.queue)[d] >= 2 || exists u: Tid :: PcOf(s, u) == AddStore(d)
    ensures Doomed(s)
    decreases |s.shared.queue|
  {
    hide Doomed, Still, Exec;
    var q := s.shared.queue;
    var w := FreshTid(s.threads.Keys);
    if q[0] !in s.shared.heap {
      PopCrashes(s, w);
    } else {
      Popped(s, w);
      var n := Exec(s, [Work(w), Move(w, GO)]);
      TouchedStill(s, n, w, q[0]);
      assert q == [q[0]] + q[1..];
      assert forall u: Tid :: PcOf(s, u) == AddStore(d) ==> PcOf(n, u) == AddStore(d);
      if q[0] == d {
        RemovalDooms(n, w, d, ToWorker);
      } else {
        QueueDooms(n, d);
      }
      DoomedBefore(s, [Work(w), Move(w, GO)]);
    }
  }

  // ----- the run of a download whose removal is registered -----

  /** A removal of the download is registered, and a second one, or a store of its run thread is to come. */
  ghost predicate Pending(s: State, d: Id) {
    && d in s.shared.heap && s.shared.heap[d].listed && s.shared.heap[d].reap == OK && s.shared.heap[d].callbacks >= 1
    && (s.shared.heap[d].callbacks >= 2 || exists u: Tid :: PcOf(s, u) == AddStore(d))
  }

  /** The run thread of the download. */
  ghost predicate RunBy(s: State, r: Tid, d: Id) {
    Quiet(s) && Pending(s, d) && s.shared.heap[d].runner == Some(r)
  }

  /** Thread `r` has moved, and only the download `e` has changed, in ways that do not matter here. */
  lemma RunByStays(s: State, n: State, r: Tid, d: Id, e: Id)
    requires RunBy(s, r, d) && NoLeaver(PcOf(s, r)) && !PcOf(s, r).AddStore?
    requires Touched(s, n, r, e) && n.shared.lock.None?
    requires AtRest(s.shared.heap[e], n.shared.heap[e]) && n.shared.heap[e].callbacks >= s.shared.heap[e].callbacks
    ensures RunBy(n, r, d)
  {
    hide Still, AtRest;
    TouchedStill(s, n, r, e);
    assert forall u: Tid :: PcOf(s, u) == AddStore(d) ==> PcOf(n, u) == AddStore(d);
    RestKeeps(s.shared.heap[e], n.shared.heap[e]);
  }

  lemma RestKeeps(o: Download, o': Download)
    requires AtRest(o, o')
    ensures o'.listed == o.listed && o'.reap == o.reap && o'.runner == o.runner
  {
  }

  /** Complete, on its own. */
  lemma CloseRuns(s: State, r: Tid, d: Id) returns (actions: seq<Action>)
    requires PcOf(s, r) == CmpClose(d) && d in s.shared.heap && s.shared.heap[d].reap == OK
    requires s.shared.heap[d].cbHolder.None? && s.shared.heap[d].reapHolder.None?
    ensures var o := Over(s.shared.heap[d]);
            Exec(s, actions) == State(With(s.shared, d, o).(queue := s.shared.queue + Repeat(d, o.callbacks)), s.threads[r := Finished])
    ensures Obeyed(s, actions) && NoCalls(actions)
  {
    hide Leads, Repeat, Obeyed, Exec;
    var o := s.shared.heap[d];
    var o1 := o.(reap := CallInProgress);
    var s1 := With(s.shared, d, o1);
    DownloadTurn(s.shared, r, CmpClose(d), o1, CmpNotify(d));
    NotifyTurn(s1, r, d);
    Invokes(s1, r, d);
    WithTwice(s.shared, d, o1, Over(o));
    LeadsOn(s1, r, CmpNotify(d), s1, CmpInvoke(d), Queued(s1, d), Finished);
    LeadsOn(s.shared, r, CmpClose(d), s1, CmpNotify(d), Queued(s1, d), Finished);
    actions := LeadsExec(s, r, Queued(s1, d), Finished);
  }

  lemma OverIs(o: Download)
    requires o.cbHolder.None?
    ensures var o' := Over(o); DoneWith(o') && o'.info == o.info && o'.listed == o.listed && o'.callbacks == o.callbacks
  {
  }

  lemma CloseDooms(s: State, r: Tid, d: Id)
    requires RunBy(s, r, d) && PcOf(s, r) == CmpClose(d)
    ensures Doomed(s)
  {
    hide Doomed, Still, Over, Repeat, Exec;
    var o := s.shared.heap[d];
    RestIs(s, d);
    var actions := CloseRuns(s, r, d);
    var n := Exec(s, actions);
    OverIs(o);
    StillEnds(s, n, r, d);
    InRepeat(s.shared.queue, d, o.callbacks);
    assert forall u: Tid :: PcOf(s, u) == AddStore(d) ==> PcOf(n, u) == AddStore(d);
    QueueDooms(n, d);
    DoomedBefore(s, actions);
  }

  lemma RestIs(s: State, d: Id)
    requires Still(s) && d in s.shared.heap
    ensures s.shared.heap[d].cbHolder.None? && (s.shared.heap[d].reap == OK ==> s.shared.heap[d].reapHolder.None?)
  {
    assert RestOk(s.shared.heap[d], d, RunnerPc(s, d));
  }

  lemma RelockDooms(s: State, r: Tid, d: Id)
    requires RunBy(s, r, d) && PcOf(s, r) == CanRelock(ToRun(d))
    ensures Doomed(s)
  {
    hide Doomed, Leads, Still;
    var l := s.shared.(lock := Some(r));
    LockTurn(s.shared, r, CanRelock(ToRun(d)));
    LockTurn(l, r, CanUnlock(ToRun(d)));
    LeadsOn(s.shared, r, CanRelock(ToRun(d)), l, CanUnlock(ToRun(d)), s.shared, CmpClose(d));
    var actions := LeadsExec(s, r, s.shared, CmpClose(d));
    var n := Exec(s, actions);
    assert s.shared.heap == s.shared.heap[d := s.shared.heap[d]];
    RunByStays(s, n, r, d, d);
    CloseDooms(n, r, d);
    DoomedBefore(s, actions);
  }

  /** The removal of another download, and how it comes back. */
  lemma UnlockDooms(s: State, r: Tid, d: Id)
    requires Still(s) && s.shared.lock == Some(r) && Pending(s, d) && s.shared.heap[d].runner == Some(r)
    requires PcOf(s, r) == RemUnlock(ToRun(d))
    ensures Doomed(s)
  {
    hide Doomed, Leads, Still;
    LockTurn(s.shared, r, RemUnlock(ToRun(d)));
    var actions := LeadsExec(s, r, s.shared.(lock := None), CanRelock(ToRun(d)));
    var n := Exec(s, actions);
    assert s.shared.heap == s.shared.heap[d := s.shared.heap[d]];
    TouchedStill(s, n, r, d);
    assert forall u: Tid :: PcOf(s, u) == AddStore(d) ==> PcOf(n, u) == AddStore(d);
    RelockDooms(n, r, d);
    DoomedBefore(s, actions);
  }

  /** The other download's run is over. */
  lemma GoneOtherDooms(s: State, r: Tid, d: Id, e: Id)
    requires RunBy(s, r, d) && PcOf(s, r) == RemLock(e, ToRun(d)) && e != d
    requires e in s.shared.heap && s.shared.heap[e].listed && DoneWith(s.shared.heap[e])
    ensures Doomed(s)
  {
    hide Doomed, Still, Exec;
    var actions := RemovalRuns(s, r, e, ToRun(d));
    var n := Exec(s, actions);
    assert forall u: Tid :: PcOf(s, u) == AddStore(d) ==> PcOf(n, u) == AddStore(d);
    UnlockDooms(n, r, d);
    DoomedBefore(s, actions);
  }

  lemma OtherDooms(s: State, r: Tid, d: Id, e: Id)
    requires RunBy(s, r, d) && PcOf(s, r) == RemLock(e, ToRun(d))
    requires e in s.shared.heap ==> s.shared.heap[e].listed && s.shared.heap[e].reap != OK
    ensures Doomed(s)
  {
    hide Doomed, Still, Exec, Coming;
    if e !in s.shared.heap {
      RemovalCrashes(s, r, e, ToRun(d));
    } else {
      var first := LeaverRuns(s, e);
      var m := Exec(s, first);
      assert forall u: Tid :: PcOf(s, u) == AddStore(d) ==> PcOf(m, u) == AddStore(d);
      assert m.shared.heap[d] == s.shared.heap[d];
      GoneOtherDooms(m, r, d, e);
      DoomedBefore(s, first);
    }
  }

  /** dlDone: what it finds is registered for removal, or removed, or nothing is found. */
  lemma FoundDooms(s: State, r: Tid, d: Id, e: Id)
    requires Still(s) && s.shared.lock == Some(r) && Pending(s, d) && s.shared.heap[d].runner == Some(r)
    requires PcOf(s, r) == CanRegister(e, ToRun(d)) && e in s.shared.heap && s.shared.heap[e].listed
    ensures Doomed(s)
  {
    hide Doomed, Leads, Still, Exec, AllAllowed, AllReturned;
    RestIs(s, e);
    var o := s.shared.heap[e];
    var actions := Registers(s, r, e, ToRun(d));
    var n := Exec(s, actions);
    TouchedStill(s, n, r, e);
    assert forall u: Tid :: PcOf(s, u) == AddStore(d) ==> PcOf(n, u) == AddStore(d);
    if o.reap == OK { CloseDooms(n, r, d); } else { OtherDooms(n, r, d, e); }
    DoomedBefore(s, actions);
  }

  lemma LockDooms(s: State, r: Tid, d: Id, req: Request)
    requires RunBy(s, r, d) && PcOf(s, r) == CanLock(req, ToRun(d))
    ensures Doomed(s)
  {
    hide Doomed, Leads, RestOk, Urls, ListOk, Find;
    var l := s.shared.(lock := Some(r));
    LockTurn(s.shared, r, CanLock(req, ToRun(d)));
    FindTurn(l, r, CanFind(req, ToRun(d)));
    assert ListOk(s.shared, req.user);
    FindInList(s.shared, req);
    var pc' := FindStep(l, CanFind(req, ToRun(d)));
    LeadsOn(s.shared, r, CanLock(req, ToRun(d)), l, CanFind(req, ToRun(d)), l, pc');
    var actions := LeadsExec(s, r, l, pc');
    FoundOrNot(s, Exec(s, actions), r, d);
    DoomedBefore(s, actions);
  }

  lemma FoundOrNot(s: State, n: State, r: Tid, d: Id)
    requires RunBy(s, r, d) && PcOf(s, r).CanLock? && n.shared == s.shared.(lock := Some(r))
    requires forall u: Tid :: u != r ==> PcOf(n, u) == PcOf(s, u)
    requires PcOf(n, r) == CanUnlock(ToRun(d)) ||
             (PcOf(n, r).CanRegister? && PcOf(n, r).back == ToRun(d) && PcOf(n, r).d in n.shared.heap && n.shared.heap[PcOf(n, r).d].listed)
    ensures Doomed(n)
  {
    hide Doomed, Leads, Still;
    assert s.shared.heap == s.shared.heap[d := s.shared.heap[d]];
    TouchedStill(s, n, r, d);
    assert forall u: Tid :: PcOf(s, u) == AddStore(d) ==> PcOf(n, u) == AddStore(d);
    if PcOf(n, r).CanUnlock? {
      LockTurn(n.shared, r, CanUnlock(ToRun(d)));
      var actions := LeadsExec(n, r, s.shared, CmpClose(d));
      var m := Exec(n, actions);
      RunByStays(s, m, r, d, d);
      CloseDooms(m, r, d);
      DoomedBefore(n, actions);
    } else {
      FoundDooms(n, r, d, PcOf(n, r).d);
    }
  }

  lemma TransferDooms(s: State, r: Tid, d: Id)
    requires RunBy(s, r, d) && PcOf(s, r).Transferring() && PcOf(s, r).d == d
    ensures Doomed(s)
  {
    hide Doomed, Leads, Still;
    var o' := RunEnds(s.shared, r, PcOf(s, r));
    var actions := LeadsExec(s, r, With(s.shared, d, o'), AfterRun(s.shared.heap[d], d));
    var n := Exec(s, actions);
    RunByStays(s, n, r, d, d);
    if s.shared.heap[d].info.autoremove { LockDooms(n, r, d, RequestFor(s.shared.heap[d].info)); } else { CloseDooms(n, r, d); }
    DoomedBefore(s, actions);
  }

  /** Where the run thread of a download can be that has not completed, while the registry mutex is free. */
  ghost predicate RunPc(s: State, pc: Pc, d: Id) {
    || (pc.Transferring() && pc.d == d)
    || pc == CmpClose(d) || (pc.CanLock? && pc.back == ToRun(d)) || pc == CanRelock(ToRun(d))
    || (pc.RemLock? && pc.back == ToRun(d) && (pc.d in s.shared.heap ==> s.shared.heap[pc.d].listed && s.shared.heap[pc.d].reap != OK))
  }

  lemma RunDooms(s: State, r: Tid, d: Id)
    requires RunBy(s, r, d) && RunPc(s, PcOf(s, r), d)
    ensures Doomed(s)
  {
    hide Doomed, RunBy;
    var pc := PcOf(s, r);
    if pc.Transferring() {
      TransferDooms(s, r, d);
    } else if pc.CmpClose? {
      CloseDooms(s, r, d);
    } else if pc.CanLock? {
      LockDooms(s, r, d, pc.req);
    } else if pc.CanRelock? {
      RelockDooms(s, r, d);
    } else {
      OtherDooms(s, r, d, pc.d);
    }
  }

  // ----- a cancellation that breaks a rule -----

  lemma StartedStill(s: State, n: State, a: Tid, r: Tid, d: Id)
    requires Quiet(s) && d in s.shared.heap && s.shared.heap[d].reap == OK && r !in s.threads && PcOf(s, a) == AddStart(d)
    requires n == StartStep(s, a, r)
    ensures Quiet(n)
  {
    hide Lists, Urls;
    SameLists(s.shared, n.shared, d);
    SameUrls(s.shared, n.shared, d);
    forall e | e in n.shared.heap
      ensures RestOk(n.shared.heap[e], e, RunnerPc(n, e))
    {
      assert RestOk(s.shared.heap[e], e, RunnerPc(s, e));
    }
  }

  /** A download that has not been started yet is started. */
  lemma StartDooms(s: State, a: Tid, d: Id)
    requires Quiet(s) && PcOf(s, a) == AddStart(d)
    requires d in s.shared.heap && s.shared.heap[d].listed && s.shared.heap[d].reap == OK && s.shared.heap[d].callbacks >= 1
    ensures Doomed(s)
  {
    hide Doomed, Still;
    var r := FreshTid(s.threads.Keys);
    var n := StartStep(s, a, r);
    StartedStill(s, n, a, r, d);
    assert PcOf(n, a) == AddStore(d) && PcOf(n, r) == RunCheck(d);
    TransferDooms(n, r, d);
    assert n == Apply(s, Start(a, r));
    DoomedNext(s, Start(a, r));
  }

  /** What the invariant says of a download whose removal is registered and that has not completed. */
  lemma RunnerStands(s: State, t: Tid, d: Id)
    requires Pairs(s) && Pointers(s) && Downloads(s) && d in s.shared.heap && s.shared.heap[d].reap == OK
    requires forall u: Tid :: u != t ==> !PcOf(s, u).HoldsLock()
    ensures var o := s.shared.heap[d];
            && (o.listed && o.adder.Some? && !PcOf(s, o.adder.value).HoldsLock() ==> PcOf(s, o.adder.value) == AddStart(d))
            && (o.adder.None? ==> o.runner.Some?)
            && (o.runner.Some? && !PcOf(s, o.runner.value).HoldsLock() ==> RunPc(s, PcOf(s, o.runner.value), d))
  {
    var o := s.shared.heap[d];
    assert DownloadOk(o);
    if o.adder.Some? { assert PairOk(o, d, o.adder.value, PcOf(s, o.adder.value)); }
    if o.runner.Some? {
      var r := o.runner.value;
      var pc := PcOf(s, r);
      assert PairOk(o, d, r, pc);
      if pc.RemLock? && pc.d in s.shared.heap { assert PairOk(s.shared.heap[pc.d], pc.d, r, pc); }
    }
  }

  /** What the invariant says of a download that is being cancelled once more. */
  lemma RightStands(s: State, t: Tid, d: Id)
    requires Inv(s) && PcOf(s, t).HoldsLock() && !PcOf(s, t).Owns(d) && d in s.shared.heap && s.shared.heap[d].ticket != NoTicket
    ensures var o := s.shared.heap[d];
            if o.reap == OK then o.callbacks == 1 else Coming(s, d) || Harm(s, t, d)
  {
    hide Lists, Urls, Deleted;
    var o := s.shared.heap[d];
    assert DownloadOk(o);
    InQueueIff(s.shared, d);
    if o.ticket.Held? {
      var u := o.ticket.holder;
      assert PairOk(o, d, u, PcOf(s, u));
      assert u != t by { assert PairOk(o, d, t, PcOf(s, t)); }
      OneHolder(s, t, u);
    }
    if o.runner.Some? { assert PairOk(o, d, o.runner.value, PcOf(s, o.runner.value)); }
  }

  lemma AimIs(s: State, t: Tid, d: Id)
    requires Pairs(s) && Pointers(s) && Locks(s) && PcOf(s, t).CanRegister? && PcOf(s, t).d == d
    ensures d in s.shared.heap && s.shared.heap[d].listed && PcOf(s, t).HoldsLock() && s.shared.lock == Some(t)
    ensures s.shared.heap[d].runner == Some(t) ==> PcOf(s, t).back == ToRun(d)
    ensures s.shared.heap[d].adder != Some(t)
  {
    assert PcOf(s, t).Names(d);
    assert PairOk(s.shared.heap[d], d, t, PcOf(s, t)) && LockOk(s.shared, t, PcOf(s, t));
  }

  lemma DropDooms(s: State, t: Tid, d: Id, back: Back)
    requires Still(s) && PcOf(s, t) == CanRegister(d, back) && d in s.shared.heap && s.shared.heap[d].listed
    requires s.shared.heap[d].reap != OK && (Coming(s, d) || Harm(s, t, d))
    ensures Doomed(Apply(s, Move(t, GO)))
  {
    hide Doomed, Leads, Still;
    RestIs(s, d);
    var actions := Registers(s, t, d, back);
    var n := Exec(s, actions);
    TouchedStill(s, n, t, d);
    assert Harm(s, t, d) ==> Harm(n, t, d);
    assert Coming(s, d) ==> Coming(n, d);
    RemovalDooms(n, t, d, back);
    DoomedAfterFirst(s, actions);
  }

  lemma DoomedAfterFirst(s: State, actions: seq<Action>)
    requires Doomed(Exec(s, actions)) && NoCalls(actions) && actions != []
    ensures Doomed(Apply(s, actions[0]))
  {
    hide Apply, Doomed;
    DoomedBefore(Apply(s, actions[0]), actions[1..]);
  }

  lemma AgainDooms(s: State, t: Tid, d: Id, back: Back)
    requires Inv(s) && PcOf(s, t) == CanRegister(d, back) && d in s.shared.heap && s.shared.heap[d].reap == OK
    requires s.shared.heap[d].callbacks >= 1 || s.shared.heap[d].adder.Some? || exists u: Tid :: PcOf(s, u) == AddStore(d)
    ensures Doomed(Apply(s, Move(t, GO)))
  {
    hide Doomed, Leads, Still, Pairs, Downloads, Pointers, Locks, Lists, Queue, Urls, Deleted, Exec, AllAllowed, AllReturned;
    AimIs(s, t, d);
    HeldIsStill(s, t);
    RestIs(s, d);
    NoOther(s, t);
    RunnerStands(s, t, d);
    var actions := Registers(s, t, d, back);
    RegisteredDooms(s, Exec(s, actions), t, d, back);
    DoomedAfterFirst(s, actions);
  }

  /** The removal is registered, and whoever is to start or to run the download goes on. */
  lemma RegisteredDooms(s: State, n: State, t: Tid, d: Id, back: Back)
    requires Still(s) && PcOf(s, t) == CanRegister(d, back) && d in s.shared.heap && s.shared.heap[d].listed
    requires s.shared.heap[d].reap == OK
    requires n == State(With(s.shared, d, Again(s.shared.heap[d])).(lock := None), s.threads[t := Return(back)])
    requires s.shared.heap[d].callbacks >= 1 || s.shared.heap[d].adder.Some? || exists u: Tid :: PcOf(s, u) == AddStore(d)
    requires forall u: Tid :: u != t ==> !PcOf(s, u).HoldsLock()
    requires var o := s.shared.heap[d];
             && o.adder != Some(t) && (o.adder.Some? && !PcOf(s, o.adder.value).HoldsLock() ==> PcOf(s, o.adder.value) == AddStart(d))
             && (o.adder.None? ==> o.runner.Some?) && (o.runner == Some(t) ==> back == ToRun(d))
             && (o.runner.Some? && !PcOf(s, o.runner.value).HoldsLock() ==> RunPc(s, PcOf(s, o.runner.value), d))
    ensures Doomed(n)
  {
    hide Doomed, Still, AtRest;
    var o := s.shared.heap[d];
    AgainRests(o);
    TouchedStill(s, n, t, d);
    assert forall u: Tid :: PcOf(s, u) == AddStore(d) ==> PcOf(n, u) == AddStore(d);
    if o.adder.Some? {
      StartDooms(n, o.adder.value, d);
    } else {
      RunDooms(n, o.runner.value, d);
    }
  }

  lemma AgainRests(o: Download)
    ensures AtRest(o, Again(o))
  {
  }

  lemma NoOther(s: State, t: Tid)
    requires Locks(s) && PcOf(s, t).HoldsLock()
    ensures forall u: Tid :: u != t ==> !PcOf(s, u).HoldsLock()
  {
    forall u: Tid | u != t
      ensures !PcOf(s, u).HoldsLock()
    {
      OneHolder(s, t, u);
    }
  }

  /** A cancellation of a download that has been cancelled, or whose StartDownload has not returned. */
  lemma CancelDooms(s: State, t: Tid, d: Id)
    requires Inv(s) && PcOf(s, t).CanRegister? && PcOf(s, t).d == d
    requires d in s.shared.heap ==>
               s.shared.heap[d].ticket != NoTicket || s.shared.heap[d].adder.Some? || exists u: Tid :: PcOf(s, u) == AddStore(d)
    ensures Doomed(Apply(s, Move(t, GO)))
  {
    hide Doomed, Still, Pairs, Downloads, Pointers, Locks, Lists, Queue, Urls, Deleted;
    AimIs(s, t, d);
    var o := s.shared.heap[d];
    if o.ticket != NoTicket { RightStands(s, t, d); }
    if o.reap == OK {
      AgainDooms(s, t, d, PcOf(s, t).back);
    } else {
      HeldIsStill(s, t);
      AdderIsEarly(s, d);
      assert (exists u: Tid :: PcOf(s, u) == AddStore(d)) ==> Harm(s, t, d);
      DropDooms(s, t, d, PcOf(s, t).back);
    }
  }

  lemma AdderIsEarly(s: State, d: Id)
    requires Downloads(s) && d in s.shared.heap
    ensures s.shared.heap[d].adder.Some? ==> s.shared.heap[d].reap == OK
  {
    assert DownloadOk(s.shared.heap[d]);
  }

  // ----- a store that is to come -----

  predicate TicketKept(h: map<Id, Download>, h': map<Id, Download>, d: Id) {
    d in h' ==> d in h && (h[d].ticket != NoTicket ==> h'[d].ticket != NoTicket)
  }

  lemma StepKeepsTicket(o: Download, t: Tid, pc: Pc)
    requires pc.OnDownload()
    ensures o.ticket != NoTicket ==> DownloadStep(o, t, pc, GO).0.ticket != NoTicket
  {
  }

  lemma MoveKeepsTicket(s: Shared, t: Tid, pc: Pc, d: Id)
    ensures TicketKept(s.heap, LocalStep(s, t, pc, GO).0.heap, d)
  {
    hide DownloadStep, LockStep, FindStep, List, RemoveAt, Repeat;
    if pc.OnDownload() && pc.d in s.heap { StepKeepsTicket(s.heap[pc.d], t, pc); }
  }

  function HolderLeft(pc: Pc): nat {
    if pc.CanFind? || pc.RemFind? then 6 else if pc.CanRegister? || pc.RemWait? then 5
    else if pc.CanPush? || pc.RemErase? then 4 else if pc.CanFlag? || pc.RemDelete? then 3
    else if pc.AddPush? then 2 else 1
  }

  /** The steps left to the holder of the registry mutex, and to the run it waits for. */
  function LockLeft(s: State): nat {
    if s.shared.lock.Some? then HolderLeft(PcOf(s, s.shared.lock.value)) else 0
  }

  function WaitLeft(s: State): nat {
    if s.shared.lock.None? then 0
    else
      var pc := PcOf(s, s.shared.lock.value);
      if pc.RemWait? && pc.d in s.shared.heap && s.shared.heap[pc.d].runner.Some?
      then StepsLeft(PcOf(s, s.shared.heap[pc.d].runner.value)) else 0
  }

  lemma ReachableNext(s: State, a: Action)
    requires Reachable(s) && Allowed(s, a)
    ensures Reachable(Apply(s, a))
  {
    hide Apply, Allowed;
    var actions :| AllAllowed(INIT, actions) && s == Exec(INIT, actions);
    assert [a][1..] == [] && Exec(s, [a]) == Exec(Apply(s, a), []) && AllAllowed(Apply(s, a), []);
    AllowedConcat(INIT, actions, [a]);
    ExecConcat(INIT, actions, [a]);
  }

  lemma FreeTurns(s: Shared, h: Tid, pc: Pc)
    requires pc.HoldsLock() && !pc.CanRegister? && !pc.RemWait? && s.lock == Some(h)
    requires !LocalStep(s, h, pc, GO).1.Crashed?
    ensures var (n, next) := LocalStep(s, h, pc, GO);
            n.lock.None? || (n.lock == s.lock && HolderLeft(next) < HolderLeft(pc))
  {
    hide Find, ByUrl, List, RemoveAt;
  }

  /** The holder of the registry mutex comes nearer to giving it back. */
  lemma HolderTurns(s: State, h: Tid)
    requires Reachable(s) && s.shared.lock == Some(h) && Allowed(s, Move(h, GO))
    requires PcOf(s, h).RemWait? ==> PcOf(s, h).d in s.shared.heap && s.shared.heap[PcOf(s, h).d].runner.None?
    ensures var n := Apply(s, Move(h, GO)); Reachable(n) && LockLeft(n) < LockLeft(s)
  {
    hide Reachable, Inv, LocalStep, Allowed;
    ReachableNext(s, Move(h, GO));
    HolderHolds(s, h);
    OnlyStoresCrash(Apply(s, Move(h, GO)), h);
    var pc := PcOf(s, h);
    if pc.RemWait? {
      WaitsForLeaver(s, h, pc.d, pc.i, pc.back, GO);
      WaiterKeepsLock(s.shared, h, pc);
    } else if pc.CanRegister? {
      RegisterTurns(s, h);
    } else {
      FreeTurns(s.shared, h, pc);
    }
  }

  lemma HolderHolds(s: State, h: Tid)
    requires Reachable(s) && s.shared.lock == Some(h)
    ensures PcOf(s, h).HoldsLock() && h in s.threads
  {
    hide Reachable, Pairs, Downloads, Pointers, Lists, Queue, Urls, Deleted;
    ReachableInv(s);
    assert LockOk(s.shared, h, PcOf(s, h));
  }

  lemma WaiterKeepsLock(s: Shared, h: Tid, pc: Pc)
    requires pc.RemWait?
    ensures LocalStep(s, h, pc, GO).0.lock == s.lock
  {
  }

  lemma RegisterTurns(s: State, h: Tid)
    requires Reachable(s) && PcOf(s, h).CanRegister?
    ensures var (n, next) := LocalStep(s.shared, h, PcOf(s, h), GO);
            n.lock == s.shared.lock && HolderLeft(next) < HolderLeft(PcOf(s, h))
  {
    hide Reachable, Downloads, Lists, Queue, Urls, Deleted, PairOk;
    ReachableInv(s);
    var d := PcOf(s, h).d;
    assert PcOf(s, h).Names(d);
    NoneRegisters(s, h, d);
  }

  /** The run that the holder of the registry mutex waits for comes nearer to its end. */
  lemma WaitTurns(s: State, h: Tid, u: Tid)
    requires Reachable(s) && s.shared.lock == Some(h) && PcOf(s, h).RemWait?
    requires PcOf(s, h).d in s.shared.heap && s.shared.heap[PcOf(s, h).d].runner == Some(u)
    ensures var n := Apply(s, Move(u, GO));
            Reachable(n) && u != h && Leaving(PcOf(s, u), PcOf(s, h).d) && LockLeft(n) == LockLeft(s) && WaitLeft(n) < WaitLeft(s)
  {
    hide Reachable;
    var pc := PcOf(s, h);
    WaitsForLeaver(s, h, pc.d, pc.i, pc.back, GO);
    ReachableNext(s, Move(u, GO));
    LeaverStep(s.shared, u, PcOf(s, u), pc.d);
  }

  lemma LeaverStep(s: Shared, u: Tid, pc: Pc, d: Id)
    requires Leaving(pc, d) && d in s.heap && s.heap[d].runner == Some(u)
    ensures var (n, next) := LocalStep(s, u, pc, GO);
            && n.lock == s.lock && d in n.heap && (n.heap[d].runner == Some(u) || n.heap[d].runner.None?)
  {
    hide Repeat;
  }

  /** While the registry mutex is free. */
  lemma FreeStoreDooms(s: State, a: Tid, d: Id)
    requires Inv(s) && s.shared.lock.None? && PcOf(s, a) == AddStore(d)
    requires d in s.shared.heap && s.shared.heap[d].ticket != NoTicket
    ensures Doomed(s)
  {
    hide Doomed, Still, Pairs, Downloads, Pointers, Locks, Lists, Queue, Urls, Deleted, Exec;
    FreeIsQuiet(s);
    TicketStands(s, d);
    NobodyHolds(s);
    var o := s.shared.heap[d];
    if o.reap == OK {
      RunnerStands(s, a, d);
      if o.adder.Some? { StartDooms(s, o.adder.value, d); } else { RunDooms(s, o.runner.value, d); }
    } else if o.ticket.Held? {
      assert Harm(s, o.ticket.holder, d);
      RemovalDooms(s, o.ticket.holder, d, PcOf(s, o.ticket.holder).back);
    } else {
      var actions := LeaverRuns(s, d);
      var n := Exec(s, actions);
      assert PcOf(n, a) == AddStore(d);
      QueueDooms(n, d);
      DoomedBefore(s, actions);
    }
  }

  lemma NobodyHolds(s: State)
    requires Locks(s) && s.shared.lock.None?
    ensures forall u: Tid :: !PcOf(s, u).HoldsLock()
  {
    forall u: Tid
      ensures !PcOf(s, u).HoldsLock()
    {
      assert LockOk(s.shared, u, PcOf(s, u));
    }
  }

  lemma TicketStands(s: State, d: Id)
    requires Inv(s) && s.shared.lock.None? && d in s.shared.heap && s.shared.heap[d].ticket != NoTicket
    ensures var o := s.shared.heap[d];
            && o.listed
            && (o.reap == OK ==> o.callbacks == 1)
            && (o.ticket.Held? ==> o.reap != OK && PcOf(s, o.ticket.holder).RemLock? && PcOf(s, o.ticket.holder).d == d)
            && (!o.ticket.Held? && o.reap != OK ==> Coming(s, d))
  {
    hide Lists, Urls, Deleted;
    var o := s.shared.heap[d];
    assert DownloadOk(o);
    InQueueIff(s.shared, d);
    NobodyHolds(s);
    if o.ticket.Held? { assert PairOk(o, d, o.ticket.holder, PcOf(s, o.ticket.holder)); }
    if o.runner.Some? { assert PairOk(o, d, o.runner.value, PcOf(s, o.runner.value)); }
  }

  /** A store of the run thread that is still to come, while a removal is registered, can crash. */
  lemma {:induction false} StoreDooms(s: State, a: Tid, d: Id)
    requires Reachable(s) && PcOf(s, a) == AddStore(d)
    requires d in s.shared.heap ==> s.shared.heap[d].ticket != NoTicket
    ensures Doomed(s)
    decreases LockLeft(s), WaitLeft(s)
  {
    hide Doomed, Reachable, Inv, LocalStep, LockLeft, WaitLeft;
    ReachableInv(s);
    if d !in s.shared.heap {
      StoreCrashes(s, a, d);
    } else if s.shared.lock.None? {
      FreeStoreDooms(s, a, d);
    } else {
      var h := s.shared.lock.value;
      HolderHolds(s, h);
      var pc := PcOf(s, h);
      if !Allowed(s, Move(h, GO)) {
        CancelDooms(s, h, pc.d);
        DoomedNext(s, Move(h, GO));
      } else if pc.RemWait? && pc.d in s.shared.heap && s.shared.heap[pc.d].runner.Some? {
        var u := s.shared.heap[pc.d].runner.value;
        WaitTurns(s, h, u);
        StoreStays(s, u, a, d);
        StoreDooms(Apply(s, Move(u, GO)), a, d);
        DoomedNext(s, Move(u, GO));
      } else {
        if pc.RemWait? { WaitsForLeaver(s, h, pc.d, pc.i, pc.back, GO); }
        HolderTurns(s, h);
        StoreStays(s, h, a, d);
        StoreDooms(Apply(s, Move(h, GO)), a, d);
        DoomedNext(s, Move(h, GO));
      }
    }
  }

  lemma StoreStays(s: State, x: Tid, a: Tid, d: Id)
    requires PcOf(s, a) == AddStore(d) && x != a && (d in s.shared.heap ==> s.shared.heap[d].ticket != NoTicket)
    ensures var n := Apply(s, Move(x, GO));
            PcOf(n, a) == AddStore(d) && (d in n.shared.heap ==> n.shared.heap[d].ticket != NoTicket)
  {
    hide LocalStep;
    if x in s.threads { MoveKeepsTicket(s.shared, x, s.threads[x], d); }
  }

  // ----- main results -----

  lemma RegistersAlike(s: State, t: Tid, oracle: Oracle)
    requires PcOf(s, t).CanRegister?
    ensures Apply(s, Move(t, oracle)) == Apply(s, Move(t, GO))
  {
  }

  /** The rule against a second cancellation is needed wherever it forbids a step. */
  lemma SecondCancelDooms(s: State, t: Tid, oracle: Oracle)
    requires Reachable(s) && !Allowed(s, Move(t, oracle))
    ensures Doomed(Apply(s, Move(t, oracle)))
  {
    hide Doomed, Reachable, Inv, Apply;
    ReachableInv(s);
    CancelDooms(s, t, PcOf(s, t).d);
    RegistersAlike(s, t, oracle);
  }

  /** So is the rule against cancelling a download whose StartDownload has not returned. */
  lemma EarlyCancelDooms(s: State, t: Tid, oracle: Oracle)
    requires ByRules(s) && !Returned(s, Move(t, oracle))
    ensures Doomed(Apply(s, Move(t, oracle)))
  {
    hide Doomed, Reachable, Inv, ByRules, StartsOk, Apply;
    RulesInv(s);
    ReachableInv(s);
    var d := PcOf(s, t).d;
    if s.shared.heap[d].starter.Some? {
      var u := s.shared.heap[d].starter.value;
      assert StoreOk(s.shared, u, PcOf(s, u));
      assert PcOf(s, u) == AddStore(d);
    }
    CancelDooms(s, t, d);
    RegistersAlike(s, t, oracle);
  }
}
