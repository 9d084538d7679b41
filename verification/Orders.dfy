/**
 The orders the registry keeps: the lists hold the downloads in the order in which they were
 registered, and the deferred removals are taken in the order in which they were queued.
 */
module Orders {
  import opened Basics
  import opened DownloadStatus
  import opened Transfers

  // ----- what a step puts where -----

  /** The download that the step enters in the list of `user`. */
  function Entered(s: State, a: Action, user: nat): seq<Id> {
    if a.Move? && a.t in s.threads && s.threads[a.t].AddPush? then
      var d := s.threads[a.t].d;
      if d in s.shared.heap && s.shared.heap[d].info.user == user then [d] else []
    else []
  }

  /** The removals that the step queues: the download once for each callback registered. */
  function Deferred(s: State, a: Action): seq<Id> {
    if a.Move? && a.t in s.threads && s.threads[a.t].CmpInvoke? then
      var d := s.threads[a.t].d;
      if d in s.shared.heap && s.shared.heap[d].cbHolder.None? then seq(s.shared.heap[d].callbacks, _ => d) else []
    else []
  }

  /** The removal that the step takes on: a worker was idle, and now it removes this download. */
  function Taken(s: State, a: Action): seq<Id> {
    if a.Move? && a.t in s.threads && s.threads[a.t].WorkerIdle? then
      var pc := PcOf(Apply(s, a), a.t);
      if pc.RemLock? then [pc.d] else []
    else []
  }

  function AllEntered(s: State, actions: seq<Action>, user: nat): seq<Id>
    decreases actions
  {
    if actions == [] then []
    else Entered(s, actions[0], user) + AllEntered(Apply(s, actions[0]), actions[1..], user)
  }

  function AllDeferred(s: State, actions: seq<Action>): seq<Id>
    decreases actions
  {
    if actions == [] then [] else Deferred(s, actions[0]) + AllDeferred(Apply(s, actions[0]), actions[1..])
  }

  function AllTaken(s: State, actions: seq<Action>): seq<Id>
    decreases actions
  {
    if actions == [] then [] else Taken(s, actions[0]) + AllTaken(Apply(s, actions[0]), actions[1..])
  }

  // ----- the work queue -----

  lemma QueueStep(s: State, a: Action)
    ensures s.shared.queue + Deferred(s, a) == Taken(s, a) + Apply(s, a).shared.queue
  {
    hide LocalStep, StartStep;
    var q, n := s.shared.queue, Apply(s, a).shared;
    assert q + [] == q && [] + n.queue == n.queue;
    if a.Start? {
      StartKeepsQueue(s, a.t, a.r);
    } else if a.Move? && a.t in s.threads {
      LocalQueue(s.shared, a.t, s.threads[a.t], a.oracle);
      if s.threads[a.t].WorkerIdle? && q != [] { assert q == [q[0]] + q[1..]; }
    }
  }

  lemma StartKeepsQueue(s: State, t: Tid, r: Tid)
    ensures StartStep(s, t, r).shared.queue == s.shared.queue
  {
  }

  lemma LocalQueue(s: Shared, t: Tid, pc: Pc, oracle: Oracle)
    ensures var (n, next) := LocalStep(s, t, pc, oracle);
            if pc.WorkerIdle? then
              if s.queue != [] && next.RemLock? then next.d == s.queue[0] && n.queue == s.queue[1..]
              else n.queue == s.queue && !next.RemLock?
            else
              n.queue == s.queue +
                if pc.CmpInvoke? && pc.d in s.heap && s.heap[pc.d].cbHolder.None? then seq(s.heap[pc.d].callbacks, _ => pc.d) else []
  {
    hide List, RemoveAt, FindStep, LockStep, DownloadStep;
    assert s.queue + [] == s.queue;
  }

  /** In every run the removals queued are taken in order, and those not yet taken are in the queue. */
  lemma {:induction false} QueuedFirstTakenFirst(s: State, actions: seq<Action>)
    ensures s.shared.queue + AllDeferred(s, actions) == AllTaken(s, actions) + Exec(s, actions).shared.queue
    decreases actions
  {
    hide Apply, Deferred, Taken;
    if actions == [] {
      assert s.shared.queue + [] == [] + s.shared.queue;
    } else {
      var n := Apply(s, actions[0]);
      var put, took, later := Deferred(s, actions[0]), Taken(s, actions[0]), AllDeferred(n, actions[1..]);
      QueueStep(s, actions[0]);
      QueuedFirstTakenFirst(n, actions[1..]);
      assert s.shared.queue + (put + later) == (s.shared.queue + put) + later;
      assert (took + n.shared.queue) + later == took + (n.shared.queue + later);
      assert took + (AllTaken(n, actions[1..]) + Exec(s, actions).shared.queue) == AllTaken(s, actions) + Exec(s, actions).shared.queue;
    }
  }

  /** The thread that works off the queue, idle or in one of its removals. */
  predicate Worker(pc: Pc) {
    pc.WorkerIdle? || ((pc.Removing() || pc.RemUnlock?) && pc.back == ToWorker)
  }

  /** The worker stays the worker: after a removal it takes the next. */
  lemma {:induction false} WorkerStays(s: State, actions: seq<Action>, t: Tid)
    requires t in s.threads && (Worker(s.threads[t]) || s.threads[t].Crashed?)
    ensures var n := Exec(s, actions); t in n.threads && (Worker(n.threads[t]) || n.threads[t].Crashed?)
    decreases actions
  {
    hide Apply, Worker;
    if actions != [] {
      WorkerStep(s, actions[0], t);
      WorkerStays(Apply(s, actions[0]), actions[1..], t);
    }
  }

  lemma WorkerStep(s: State, a: Action, t: Tid)
    requires t in s.threads && (Worker(s.threads[t]) || s.threads[t].Crashed?)
    ensures var n := Apply(s, a); t in n.threads && (Worker(n.threads[t]) || n.threads[t].Crashed?)
  {
    hide List, RemoveAt, ByUrl, ByUuid, Find, Repeat, ReapOK;
  }

  // ----- the lists -----

  /** `a` is what stands in `b` at the ascending places `ks`. */
  ghost predicate Picks(ks: seq<nat>, a: seq<Id>, b: seq<Id>) {
    && |ks| == |a|
    && (forall i, j :: 0 <= i < j < |ks| ==> ks[i] < ks[j])
    && (forall i :: 0 <= i < |ks| ==> ks[i] < |b| && a[i] == b[ks[i]])
  }

  lemma PicksAll(a: seq<Id>) returns (ks: seq<nat>)
    ensures Picks(ks, a, a)
  {
    ks := seq(|a|, i => i);
  }

  lemma PicksOfPicks(ks: seq<nat>, ls: seq<nat>, a: seq<Id>, b: seq<Id>, c: seq<Id>) returns (ms: seq<nat>)
    requires Picks(ks, a, b) && Picks(ls, b, c)
    ensures Picks(ms, a, c)
  {
    ms := seq(|ks|, i requires 0 <= i < |ks| => ls[ks[i]]);
  }

  lemma PicksLonger(ks: seq<nat>, a: seq<Id>, b: seq<Id>, c: seq<Id>) returns (ms: seq<nat>)
    requires Picks(ks, a, b)
    ensures Picks(ms, a + c, b + c)
  {
    ms := ks + seq(|c|, i requires 0 <= i < |c| => |b| + i);
  }

  lemma PicksRest(a: seq<Id>, i: nat) returns (ks: seq<nat>)
    ensures Picks(ks, RemoveAt(a, i), a)
  {
    if i < |a| {
      ks := seq(|a| - 1, j => if j < i then j else j + 1);
    } else {
      ks := PicksAll(a);
    }
  }

  lemma ListStep(s: State, a: Action, user: nat) returns (ks: seq<nat>)
    ensures Picks(ks, List(Apply(s, a).shared, user), List(s.shared, user) + Entered(s, a, user))
  {
    hide RemoveAt, FindStep, LockStep, DownloadStep, Picks, Repeat;
    var list, n := List(s.shared, user), Apply(s, a).shared;
    assert list + [] == list;
    if a.Move? && a.t in s.threads && s.threads[a.t].RemErase? && List(n, user) != list {
      ks := PicksRest(list, s.threads[a.t].i);
    } else {
      ks := PicksAll(list + Entered(s, a, user));
    }
  }

  /** In every run a list holds downloads in the order in which they were registered. */
  lemma {:induction false} ListsKeepOrder(s: State, actions: seq<Action>, user: nat) returns (ks: seq<nat>)
    ensures Picks(ks, List(Exec(s, actions).shared, user), List(s.shared, user) + AllEntered(s, actions, user))
    decreases actions
  {
    hide Apply, Entered, List, Picks;
    var list := List(s.shared, user);
    if actions == [] {
      assert list + [] == list;
      ks := PicksAll(list);
    } else {
      var n := Apply(s, actions[0]);
      var put, later := Entered(s, actions[0], user), AllEntered(n, actions[1..], user);
      var ls := ListStep(s, actions[0], user);
      ls := PicksLonger(ls, List(n.shared, user), list + put, later);
      var ms := ListsKeepOrder(n, actions[1..], user);
      ks := PicksOfPicks(ms, ls, List(Exec(s, actions).shared, user), List(n.shared, user) + later, list + put + later);
      assert list + put + later == list + (put + later);
    }
  }
}
