/** Runs that break one of the callers' rules, and keep the others. */
module RuleRuns {
  import opened Basics
  import opened DownloadStatus
  import opened Rules
  import opened Starting
  import opened Transfers

  // ----- adding a download -----

  function Pushed(s: Shared, d: Id): Shared
    requires d in s.heap
  {
    var o := s.heap[d];
    s.(transfers := s.transfers[o.info.user := List(s, o.info.user) + [d]], heap := s.heap[d := o.(listed := true)])
  }

  lemma PushTurn(s: Shared, t: Tid, d: Id)
    requires d in s.heap
    ensures Leads(s, t, AddPush(d), Pushed(s, d), AddUnlock(d))
  {
    hide Leads;
    RegistryTurn(s, t, AddPush(d));
  }

  lemma PushIgnoresLock(s: Shared, d: Id, t: Tid)
    requires d in s.heap && s.lock.None?
    ensures Pushed(s.(lock := Some(t)), d).(lock := None) == Pushed(s, d)
  {
  }

  lemma Adds(s: Shared, t: Tid, d: Id)
    requires d in s.heap && s.lock.None?
    ensures Leads(s, t, AddLock(d), Pushed(s, d), AddStart(d))
  {
    hide Leads, Pushed;
    var l := s.(lock := Some(t));
    LockTurn(s, t, AddLock(d));
    PushTurn(l, t, d);
    LockTurn(Pushed(l, d), t, AddUnlock(d));
    PushIgnoresLock(s, d, t);
    LeadsOn(l, t, AddPush(d), Pushed(l, d), AddUnlock(d), Pushed(s, d), AddStart(d));
    LeadsOn(s, t, AddLock(d), l, AddPush(d), Pushed(s, d), AddStart(d));
  }

  /** A new download is put into its user's list. */
  lemma AddRuns(s: State, t: Tid, d: Id, info: Info) returns (actions: seq<Action>)
    requires t !in s.threads && d !in s.shared.heap && d !in s.shared.deleted && s.shared.lock.None?
    ensures var h := s.shared.(heap := s.shared.heap[d := New(info, t)]);
            Exec(s, actions) == State(Pushed(h, d), s.threads[t := AddStart(d)])
    ensures Allowed(s, Add(t, d, info)) ==> Obeyed(s, actions)
    ensures |actions| > 0 && actions[0] == Add(t, d, info) && Obeyed(Apply(s, actions[0]), actions[1..])
  {
    hide Leads, Pushed, AllAllowed, AllReturned, Exec;
    var m := Apply(s, Add(t, d, info));
    Adds(m.shared, t, d);
    var more := LeadsExec(m, t, Pushed(m.shared, d), AddStart(d));
    FirstMove(s, Add(t, d, info), more);
    actions := [Add(t, d, info)] + more;
    assert actions[1..] == more;
    assert s.threads[t := AddLock(d)][t := AddStart(d)] == s.threads[t := AddStart(d)];
  }

  lemma OneAction(s: State, a: Action)
    ensures Exec(s, [a]) == Apply(s, a)
    ensures Allowed(s, a) && Returned(s, a) ==> Obeyed(s, [a])
    ensures Allowed(s, a) ==> AllAllowed(s, [a])
  {
    hide Apply, Allowed, Returned;
    assert [a][1..] == [] && Exec(Apply(s, a), []) == Apply(s, a) && Obeyed(Apply(s, a), []);
  }

  /** A run goes on. */
  lemma GoesOn(s: State, actions: seq<Action>, more: seq<Action>)
    ensures Exec(s, actions + more) == Exec(Exec(s, actions), more)
    ensures AllAllowed(s, actions) && AllAllowed(Exec(s, actions), more) ==> AllAllowed(s, actions + more)
    ensures AllReturned(s, actions) && AllReturned(Exec(s, actions), more) ==> AllReturned(s, actions + more)
  {
    hide AllAllowed, AllReturned, Exec;
    ExecConcat(s, actions, more);
    if AllAllowed(s, actions) && AllAllowed(Exec(s, actions), more) { AllowedConcat(s, actions, more); }
    if AllReturned(s, actions) && AllReturned(Exec(s, actions), more) { ReturnedConcat(s, actions, more); }
  }

  // ----- a cancellation before StartDownload has returned -----

  const PATIENT := Info(7, "u", "", true)
  const HASTY := Info(7, "u", "", false)

  function Alone0(o: Download, lock: Option<Tid>, queue: seq<Id>): Shared {
    Shared(map[0 := o], map[7 := [0]], lock, queue, [])
  }

  /** The download 0 is added by thread 1 and started with the run thread 4. */
  lemma StartedRun(info: Info) returns (actions: seq<Action>)
    requires info.user == 7
    ensures var o := Started(New(info, 1).(listed := true), 1, 4);
            Exec(INIT, actions) == State(Alone0(o, None, []), map[1 := AddStore(0), 4 := RunCheck(0)])
    ensures Obeyed(INIT, actions)
  {
    hide Exec, AllAllowed, AllReturned;
    var first := AddRuns(INIT, 1, 0, info);
    var o := New(info, 1).(listed := true);
    var s := Exec(INIT, first);
    FirstList(info);
    assert s == State(Alone0(o, None, []), map[1 := AddStart(0)]);
    OneAction(s, Start(1, 4));
    assert map[0 := o][0 := Started(o, 1, 4)] == map[0 := Started(o, 1, 4)];
    assert map[1 := AddStart(0)][1 := AddStore(0)][4 := RunCheck(0)] == map[1 := AddStore(0), 4 := RunCheck(0)];
    GoesOn(INIT, first, [Start(1, 4)]);
    actions := first + [Start(1, 4)];
  }

  lemma FirstList(info: Info)
    requires info.user == 7
    ensures Pushed(Shared(map[0 := New(info, 1)], map[], None, [], []), 0) == Alone0(New(info, 1).(listed := true), None, [])
  {
    assert List(Shared(map[0 := New(info, 1)], map[], None, [], []), 7) + [0] == [0];
    assert map[0 := New(info, 1)][0 := New(info, 1).(listed := true)] == map[0 := New(info, 1).(listed := true)];
  }

  /** A cancellation of the download 0 up to its registration. */
  lemma Finds0(o: Download, t: Tid, back: Back, queue: seq<Id>)
    requires o.info.url == "u"
    ensures Leads(Alone0(o, None, queue), t, CanLock(Request(7, "u", ""), back), Alone0(o, Some(t), queue), CanRegister(0, back))
  {
    hide Leads;
    var s, l := Alone0(o, None, queue), Alone0(o, Some(t), queue);
    var req := Request(7, "u", "");
    assert Find(l.heap, [0], req) == Hit(0);
    LockTurn(s, t, CanLock(req, back));
    FindTurn(l, t, CanFind(req, back));
    LeadsOn(s, t, CanLock(req, back), l, CanFind(req, back), l, CanRegister(0, back));
  }

  /** Nothing has been registered yet, and no mutex of the download is held. */
  predicate Fresh(o: Download) {
    o.listed && o.reap == OK && o.callbacks == 0 && o.ticket == NoTicket && o.cbHolder.None? && o.reapHolder.None?
  }

  /**
   The run ends, and the removal that the policy asks for meets the download while thread 1, which
   has created the run thread, has yet to store it.
   */
  lemma EarlyPrefix() returns (actions: seq<Action>, o: Download)
    ensures Exec(INIT, actions) == State(Alone0(o, Some(4), []), map[1 := AddStore(0), 4 := CanRegister(0, ToRun(0))])
    ensures AllAllowed(INIT, actions) && Fresh(o) && o.info == PATIENT
  {
    hide Leads, Exec, AllAllowed, AllReturned;
    var first := StartedRun(PATIENT);
    var s := Exec(INIT, first);
    var o1 := s.shared.heap[0];
    o := RunEnds(s.shared, 4, RunCheck(0));
    assert With(s.shared, 0, o) == Alone0(o, None, []) by { assert map[0 := o1][0 := o] == map[0 := o]; }
    Finds0(o, 4, ToRun(0), []);
    LeadsOn(s.shared, 4, RunCheck(0), Alone0(o, None, []), AfterRun(o1, 0), Alone0(o, Some(4), []), CanRegister(0, ToRun(0)));
    var more := LeadsExec(s, 4, Alone0(o, Some(4), []), CanRegister(0, ToRun(0)));
    assert map[1 := AddStore(0), 4 := RunCheck(0)][4 := CanRegister(0, ToRun(0))] == map[1 := AddStore(0), 4 := CanRegister(0, ToRun(0))];
    GoesOn(INIT, first, more);
    actions := first + more;
  }

  /** The removal is registered and the run completes. */
  lemma EarlyQueued() returns (actions: seq<Action>, o: Download)
    ensures Exec(INIT, actions) == State(Alone0(o, None, [0]), map[1 := AddStore(0), 4 := Finished])
    ensures AllAllowed(INIT, actions) && DoneWith(o) && o.listed
  {
    hide Exec, AllAllowed, AllReturned, Over;
    var first, o1 := EarlyPrefix();
    var s := Exec(INIT, first);
    var second := Registers(s, 4, 0, ToRun(0));
    var m := Exec(s, second);
    assert map[0 := o1][0 := Again(o1)] == map[0 := Again(o1)];
    assert map[1 := AddStore(0), 4 := CanRegister(0, ToRun(0))][4 := CmpClose(0)] == map[1 := AddStore(0), 4 := CmpClose(0)];
    assert m == State(Alone0(Again(o1), None, []), map[1 := AddStore(0), 4 := CmpClose(0)]);
    var third := CloseRuns(m, 4, 0);
    o := Over(Again(o1));
    OverIs(Again(o1));
    assert [] + Repeat(0, 1) == [0] && map[0 := Again(o1)][0 := o] == map[0 := o];
    assert map[1 := AddStore(0), 4 := CmpClose(0)][4 := Finished] == map[1 := AddStore(0), 4 := Finished];
    GoesOn(INIT, first, second);
    GoesOn(INIT, first + second, third);
    actions := first + second + third;
  }

  /** The worker deletes the download, and thread 1 stores into it: a run that keeps the other two rules. */
  lemma EarlyCancelRun() returns (actions: seq<Action>)
    ensures AllAllowed(INIT, actions) && PcOf(Exec(INIT, actions), 1).CrashedInStore?
  {
    hide Exec, AllAllowed, AllReturned, Quiet, Apply;
    var first, o := EarlyQueued();
    var s := Exec(INIT, first);
    var pop := [Work(5), Move(5, GO)];
    Popped(s, 5);
    PopAllowed(s);
    GoesOn(INIT, first, pop);
    var m := Exec(s, pop);
    QuietNow(first + pop);
    var second := RemovalRuns(m, 5, 0, ToWorker);
    GoesOn(INIT, first + pop, second);
    var n := Exec(m, second);
    assert PcOf(n, 1) == AddStore(0) && 0 !in n.shared.heap;
    OneAction(n, Move(1, GO));
    StoredHeap(n, 1, GO);
    GoesOn(INIT, first + pop + second, [Move(1, GO)]);
    actions := first + pop + second + [Move(1, GO)];
  }

  lemma PopAllowed(s: State)
    requires 5 !in s.threads
    ensures Obeyed(s, [Work(5), Move(5, GO)])
  {
    var a, b := Work(5), Move(5, GO);
    assert [a, b][1..] == [b];
    OneAction(Apply(s, a), b);
  }

  lemma QuietNow(actions: seq<Action>)
    requires AllAllowed(INIT, actions) && Exec(INIT, actions).shared.lock.None?
    ensures Quiet(Exec(INIT, actions))
  {
    hide Inv, Quiet, AllAllowed, Exec;
    assert Reachable(Exec(INIT, actions));
    ReachableInv(Exec(INIT, actions));
    FreeIsQuiet(Exec(INIT, actions));
  }

  // ----- a second cancellation -----

  const BY_URL := Request(7, "u", "")

  /** Download 0 is in the list, nobody is in the registry, and its StartDownload has returned. */
  ghost predicate Standing(s: State, o: Download) {
    s.shared == Alone0(o, None, []) && o.info == HASTY && o.adder.None? && o.starter.None? && o.cbHolder.None? && o.reap == OK
  }

  lemma HastyStands() returns (actions: seq<Action>, o: Download)
    ensures var s := Exec(INIT, actions); Standing(s, o) && s.threads == map[1 := Finished, 4 := RunCheck(0)]
    ensures Obeyed(INIT, actions) && o.ticket == NoTicket
  {
    hide Exec, AllAllowed, AllReturned;
    var first := StartedRun(HASTY);
    var s := Exec(INIT, first);
    var o1 := s.shared.heap[0];
    o := o1.(starter := None);
    OneAction(s, Move(1, GO));
    StoredHeap(s, 1, GO);
    assert map[0 := o1][0 := o] == map[0 := o];
    assert s.threads[1 := Finished] == map[1 := Finished, 4 := RunCheck(0)];
    GoesOn(INIT, first, [Move(1, GO)]);
    actions := first + [Move(1, GO)];
  }

  /** Thread `c` begins to cancel the download, up to the step that registers the removal. */
  lemma BeginsCancel(s: State, o: Download, c: Tid) returns (actions: seq<Action>)
    requires Standing(s, o) && c !in s.threads
    ensures Exec(s, actions) == State(Alone0(o, Some(c), []), s.threads[c := CanRegister(0, ToCaller)]) && Obeyed(s, actions)
  {
    hide Exec, AllAllowed, AllReturned, Leads;
    var call := [Cancel(c, BY_URL)];
    OneAction(s, call[0]);
    Finds0(o, c, ToCaller, []);
    var m := Exec(s, call);
    var more := LeadsExec(m, c, Alone0(o, Some(c), []), CanRegister(0, ToCaller));
    assert s.threads[c := CanLock(BY_URL, ToCaller)][c := CanRegister(0, ToCaller)] == s.threads[c := CanRegister(0, ToCaller)];
    GoesOn(s, call, more);
    actions := call + more;
  }

  /** One cancellation of the download. */
  lemma Cancels(s: State, o: Download, c: Tid) returns (actions: seq<Action>)
    requires Standing(s, o) && c !in s.threads && o.ticket == NoTicket
    ensures var n := Exec(s, actions); Standing(n, Again(o)) && n.threads.Keys == s.threads.Keys + {c}
    ensures Obeyed(s, actions)
  {
    hide Exec, AllAllowed, AllReturned;
    var first := BeginsCancel(s, o, c);
    var m := Exec(s, first);
    var second := Registers(m, c, 0, ToCaller);
    assert map[0 := o][0 := Again(o)] == map[0 := Again(o)];
    GoesOn(s, first, second);
    actions := first + second;
  }

  /** Two threads cancel one download: by the rules, until the second is about to register the removal. */
  lemma SecondCancelRun() returns (actions: seq<Action>)
    ensures Obeyed(INIT, actions) && !Allowed(Exec(INIT, actions), Move(3, GO)) && Doomed(Apply(Exec(INIT, actions), Move(3, GO)))
  {
    hide Exec, AllAllowed, AllReturned, Doomed, Standing;
    var first, o := HastyStands();
    var second := Cancels(Exec(INIT, first), o, 2);
    GoesOn(INIT, first, second);
    var third := BeginsCancel(Exec(INIT, first + second), Again(o), 3);
    GoesOn(INIT, first + second, third);
    actions := first + second + third;
    assert Reachable(Exec(INIT, actions));
    SecondCancelDooms(Exec(INIT, actions), 3, GO);
  }

  // ----- two downloads with one URL -----

  const FIRST := Info(7, "u", "a", false)
  const SECOND := Info(7, "u", "b", false)

  /** The downloads 0 and 1 of one user, with one URL. */
  function Both(o: Download, p: Download, lock: Option<Tid>, queue: seq<Id>): Shared {
    Shared(map[0 := o, 1 := p], map[7 := [0, 1]], lock, queue, [])
  }

  lemma BothWith(o: Download, p: Download, p': Download, lock: Option<Tid>, queue: seq<Id>)
    ensures With(Both(o, p, lock, queue), 1, p') == Both(o, p', lock, queue)
  {
    assert map[0 := o, 1 := p][1 := p'] == map[0 := o, 1 := p'];
  }

  lemma SecondList(o: Download, p: Download)
    requires p.info == SECOND
    ensures Pushed(Shared(map[0 := o, 1 := p], map[7 := [0]], None, [], []), 1) == Both(o, p.(listed := true), None, [])
  {
    assert List(Shared(map[0 := o, 1 := p], map[7 := [0]], None, [], []), 7) + [1] == [0, 1];
    assert map[7 := [0]][7 := [0, 1]] == map[7 := [0, 1]];
    assert map[0 := o, 1 := p][1 := p.(listed := true)] == map[0 := o, 1 := p.(listed := true)];
  }

  /** The first download is in the list. */
  lemma FirstAdded() returns (actions: seq<Action>)
    ensures Exec(INIT, actions) == State(Alone0(New(FIRST, 1).(listed := true), None, []), map[1 := AddStart(0)])
    ensures Obeyed(INIT, actions)
  {
    hide Exec, AllAllowed, AllReturned;
    actions := AddRuns(INIT, 1, 0, FIRST);
    FirstList(FIRST);
    assert map[][0 := New(FIRST, 1)] == map[0 := New(FIRST, 1)] && map[][1 := AddStart(0)] == map[1 := AddStart(0)];
  }

  /** The state after the action that breaks the rule. */
  function Twin(): State {
    State(Shared(map[0 := New(FIRST, 1).(listed := true), 1 := New(SECOND, 2)], map[7 := [0]], None, [], []),
          map[1 := AddStart(0), 2 := AddLock(1)])
  }

  /** The second download is in the list. */
  lemma TwinListed() returns (actions: seq<Action>, o: Download, p: Download)
    ensures Exec(Twin(), actions) == State(Both(o, p, None, []), map[1 := AddStart(0), 2 := AddStart(1)])
    ensures Obeyed(Twin(), actions) && o == New(FIRST, 1).(listed := true) && p == New(SECOND, 2).(listed := true)
  {
    hide Exec, AllAllowed, AllReturned, Leads;
    o, p := New(FIRST, 1).(listed := true), New(SECOND, 2).(listed := true);
    var s := Twin();
    Adds(s.shared, 2, 1);
    SecondList(o, New(SECOND, 2));
    actions := LeadsExec(s, 2, Both(o, p, None, []), AddStart(1));
    assert s.threads[2 := AddStart(1)] == map[1 := AddStart(0), 2 := AddStart(1)];
  }

  /** It is started, with run thread 4. */
  lemma TwinStarted() returns (actions: seq<Action>, o: Download, p: Download)
    ensures Exec(Twin(), actions) == State(Both(o, p, None, []), map[1 := AddStart(0), 2 := Finished, 4 := RunCheck(1)])
    ensures Obeyed(Twin(), actions) && Fresh(p) && p.adder.None? && p.starter.None? && p.info == SECOND && o.info == FIRST && o.listed
  {
    hide Exec, AllAllowed, AllReturned;
    var first, o1, q := TwinListed();
    o := o1;
    var s, m := Twin(), Exec(Twin(), first);
    OneAction(m, Start(2, 4));
    GoesOn(s, first, [Start(2, 4)]);
    var p1 := Started(q, 2, 4);
    BothWith(o, q, p1, None, []);
    var n := Exec(m, [Start(2, 4)]);
    assert n == State(Both(o, p1, None, []), map[1 := AddStart(0), 2 := AddStore(1), 4 := RunCheck(1)]);
    p := p1.(starter := None);
    StoreReturns(n, o, p1);
    GoesOn(s, first + [Start(2, 4)], [Move(2, GO)]);
    actions := first + [Start(2, 4)] + [Move(2, GO)];
  }

  lemma StoreReturns(n: State, o: Download, p: Download)
    requires n == State(Both(o, p, None, []), map[1 := AddStart(0), 2 := AddStore(1), 4 := RunCheck(1)])
    ensures Exec(n, [Move(2, GO)]) ==
            State(Both(o, p.(starter := None), None, []), map[1 := AddStart(0), 2 := Finished, 4 := RunCheck(1)])
    ensures Obeyed(n, [Move(2, GO)])
  {
    hide Exec, AllAllowed, AllReturned;
    OneAction(n, Move(2, GO));
    StoredHeap(n, 2, GO);
    BothWith(o, p, p.(starter := None), None, []);
    assert n.threads[2 := Finished] == map[1 := AddStart(0), 2 := Finished, 4 := RunCheck(1)];
  }

  lemma FindsSecond(o: Download, p: Download, t: Tid)
    requires o.info == FIRST && p.info == SECOND
    ensures Leads(Both(o, p, None, []), t, CanLock(Request(7, "u", "b"), ToCaller), Both(o, p, Some(t), []), CanRegister(1, ToCaller))
  {
    hide Leads;
    var s, l := Both(o, p, None, []), Both(o, p, Some(t), []);
    var req := Request(7, "u", "b");
    assert [0, 1][1..] == [1];
    assert ByUuid(l.heap, [1], "b") == Hit(0) && ByUuid(l.heap, [0, 1], "b") == Hit(1);
    LockTurn(s, t, CanLock(req, ToCaller));
    FindTurn(l, t, CanFind(req, ToCaller));
    LeadsOn(s, t, CanLock(req, ToCaller), l, CanFind(req, ToCaller), l, CanRegister(1, ToCaller));
  }

  /** The second is cancelled by its UUID. */
  lemma TwinCancelled() returns (actions: seq<Action>, o: Download, p: Download)
    ensures Exec(Twin(), actions) ==
            State(Both(o, p, None, []), map[1 := AddStart(0), 2 := Finished, 4 := RunCheck(1), 3 := Finished])
    ensures Obeyed(Twin(), actions) && p.info == SECOND && o.info == FIRST && o.listed
    ensures p.callbacks == 1 && p.reap == OK && p.cbHolder.None? && p.reapHolder.None?
  {
    hide Exec, AllAllowed, AllReturned, Leads;
    var first, o1, p1 := TwinStarted();
    var s0, s := Twin(), Exec(Twin(), first);
    o := o1;
    var call := [Cancel(3, Request(7, "u", "b"))];
    OneAction(s, call[0]);
    GoesOn(s0, first, call);
    var s1 := Exec(s, call);
    FindsSecond(o, p1, 3);
    var second := LeadsExec(s1, 3, Both(o, p1, Some(3), []), CanRegister(1, ToCaller));
    GoesOn(s0, first + call, second);
    var s2 := Exec(s1, second);
    var third := Registers(s2, 3, 1, ToCaller);
    GoesOn(s0, first + call + second, third);
    var s3 := Exec(s2, third);
    BothWith(o, p1, Again(p1), Some(3), []);
    p := Again(p1);
    assert s3.threads == map[1 := AddStart(0), 2 := Finished, 4 := RunCheck(1), 3 := Finished];
    actions := first + call + second + third;
  }

  /** Its run ends. */
  lemma TwinQueued() returns (actions: seq<Action>, o: Download, p: Download)
    ensures Exec(Twin(), actions) ==
            State(Both(o, p, None, [1]), map[1 := AddStart(0), 2 := Finished, 4 := Finished, 3 := Finished])
    ensures Obeyed(Twin(), actions) && DoneWith(p) && p.info == SECOND && o.info == FIRST && o.listed
  {
    hide Exec, AllAllowed, AllReturned, Leads, Over;
    var first, o1, p1 := TwinCancelled();
    o := o1;
    var s0, s := Twin(), Exec(Twin(), first);
    var p2 := RunEnds(s.shared, 4, RunCheck(1));
    BothWith(o, p1, p2, None, []);
    var second := LeadsExec(s, 4, Both(o, p2, None, []), CmpClose(1));
    GoesOn(s0, first, second);
    var m := Exec(s, second);
    var third := CloseRuns(m, 4, 1);
    GoesOn(s0, first + second, third);
    p := Over(p2);
    OverIs(p2);
    BothWith(o, p2, p, None, []);
    assert [] + Repeat(1, 1) == [1];
    assert Exec(m, third).threads == map[1 := AddStart(0), 2 := Finished, 4 := Finished, 3 := Finished];
    actions := first + second + third;
  }

  /** The removal of the second download finds the entry of the first one. */
  lemma TakesFirst(o: Download, p: Download, w: Tid)
    requires o.info == FIRST && p.info == SECOND && DoneWith(p)
    ensures Leads(Both(o, p, None, []), w, RemLock(1, ToWorker), Shared(map[0 := o], map[7 := [1]], None, [], [1]), WorkerIdle)
  {
    hide Leads;
    var s, l := Both(o, p, None, []), Both(o, p, Some(w), []);
    FindsOther(o, p, w);
    Deletes(l, w, 1, 0, ToWorker);
    var n := Shared(map[0 := o], map[7 := [1]], Some(w), [], [1]);
    TwinCut(o, p, w);
    LeadsOn(s, w, RemLock(1, ToWorker), l, RemWait(1, 0, ToWorker), n, RemUnlock(ToWorker));
    LockTurn(n, w, RemUnlock(ToWorker));
    LeadsOn(s, w, RemLock(1, ToWorker), n, RemUnlock(ToWorker), n.(lock := None), WorkerIdle);
  }

  /** The removal of the second download finds the entry of the first. */
  lemma FindsOther(o: Download, p: Download, w: Tid)
    requires o.info == FIRST && p.info == SECOND
    ensures Leads(Both(o, p, None, []), w, RemLock(1, ToWorker), Both(o, p, Some(w), []), RemWait(1, 0, ToWorker))
  {
    hide Leads;
    var s, l := Both(o, p, None, []), Both(o, p, Some(w), []);
    assert ByUrl(l.heap, [0, 1], "u") == Hit(0);
    LockTurn(s, w, RemLock(1, ToWorker));
    FindTurn(l, w, RemFind(1, ToWorker));
    LeadsOn(s, w, RemLock(1, ToWorker), l, RemFind(1, ToWorker), l, RemWait(1, 0, ToWorker));
  }

  lemma TwinCut(o: Download, p: Download, w: Tid)
    requires p.info == SECOND
    ensures Without(Both(o, p, Some(w), []), 1, 0) == Shared(map[0 := o], map[7 := [1]], Some(w), [], [1])
  {
    assert RemoveAt([0, 1], 0) == [1] && [] + [1] == [1];
    assert map[7 := [0, 1]][7 := [1]] == map[7 := [1]];
    assert map[0 := o, 1 := p] - {1} == map[0 := o];
  }

  lemma MeetsGone(o: Download, t: Tid)
    ensures Leads(Shared(map[0 := o], map[7 := [1]], None, [], [1]), t, CanLock(Request(7, "u", ""), ToCaller),
                  Shared(map[0 := o], map[7 := [1]], Some(t), [], [1]), Crashed)
  {
    hide Leads;
    var s := Shared(map[0 := o], map[7 := [1]], None, [], [1]);
    var l := s.(lock := Some(t));
    var req := Request(7, "u", "");
    assert Find(l.heap, [1], req) == Dangling;
    LockTurn(s, t, CanLock(req, ToCaller));
    FindTurn(l, t, CanFind(req, ToCaller));
    LeadsOn(s, t, CanLock(req, ToCaller), l, CanFind(req, ToCaller), l, Crashed);
  }

  /**
   Two downloads with one URL: the removal of the second erases the entry of the first, whose
   download is in no list any more, and the next search meets a pointer to the deleted one.  Only the
   second Add breaks a rule.
   */
  lemma SameUrlRun() returns (before: seq<Action>, after: seq<Action>)
    ensures Obeyed(INIT, before) && Apply(Exec(INIT, before), Add(2, 1, SECOND)) == Twin() && Obeyed(Twin(), after)
    ensures var n := Exec(Twin(), after);
            PcOf(n, 6).Crashed? && 0 in n.shared.heap && n.shared.heap[0].listed && 0 !in List(n.shared, 7)
  {
    hide Exec, AllAllowed, AllReturned, Leads;
    before := FirstAdded();
    assert Apply(Exec(INIT, before), Add(2, 1, SECOND)) == Twin();
    var first, o, p := TwinQueued();
    after := TwinCrashes(first, o, p);
  }

  lemma TwinCrashes(first: seq<Action>, o: Download, p: Download) returns (actions: seq<Action>)
    requires Exec(Twin(), first) == State(Both(o, p, None, [1]), map[1 := AddStart(0), 2 := Finished, 4 := Finished, 3 := Finished])
    requires Obeyed(Twin(), first) && DoneWith(p) && p.info == SECOND && o.info == FIRST
    ensures Obeyed(Twin(), actions)
    ensures Exec(Twin(), actions).shared == Shared(map[0 := o], map[7 := [1]], Some(6), [], [1])
    ensures PcOf(Exec(Twin(), actions), 6).Crashed?
  {
    hide Exec, AllAllowed, AllReturned, Leads;
    var s0, s := Twin(), Exec(Twin(), first);
    var pop := [Work(5), Move(5, GO)];
    Popped(s, 5);
    PopAllowed(s);
    GoesOn(s0, first, pop);
    var m := Exec(s, pop);
    var q := p.(ticket := Held(5));
    assert [1][1..] == [] && map[0 := o, 1 := p][1 := q] == map[0 := o, 1 := q];
    TakesFirst(o, q, 5);
    var gone := Shared(map[0 := o], map[7 := [1]], None, [], [1]);
    var second := LeadsExec(m, 5, gone, WorkerIdle);
    GoesOn(s0, first + pop, second);
    var n := Exec(m, second);
    var call := [Cancel(6, Request(7, "u", ""))];
    OneAction(n, call[0]);
    GoesOn(s0, first + pop + second, call);
    MeetsGone(o, 6);
    var third := LeadsExec(Exec(n, call), 6, gone.(lock := Some(6)), Crashed);
    GoesOn(s0, first + pop + second + call, third);
    actions := first + pop + second + call + third;
  }
}
