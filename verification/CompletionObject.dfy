/**
 The completion part of class Downloader as an object with its fields, and its link to the
 machine of Completion: one thread moving alone does what the methods do.
 */
module CompletionObject {
  import opened Basics
  import opened CallbackTable
  import opened DownloadStatus
  import opened Completion

  // ----- the object itself -----

  /** The completion part of class Downloader.  `calls` is the trace of the callbacks invoked. */
  class Downloader {
    var reapstatus: ReapStatus
    var status: Status
    var cancel: bool
    var callbacks: seq<Entry>
    var calls: seq<Call>

    constructor ()
      ensures reapstatus == OK && status == NotStarted && !cancel && callbacks == [] && calls == []
    {
      reapstatus, status, cancel, callbacks, calls := OK, NotStarted, false, [], [];
    }

    method RegisterCompletionCallback(cb: nat, data: nat) returns (ret: bool)
      modifies this`callbacks
      ensures ret <==> cb != 0 && reapstatus == OK
      ensures callbacks == if ret then PushBack(old(callbacks), cb, data) else old(callbacks)
    {
      ret := true;
      if cb == 0 { return false; }
      if reapstatus == OK {
        callbacks := PushBack(callbacks, cb, data);
      } else {
        ret := false;
      }
    }

    method InvokeCallbacks()
      modifies this`calls
      ensures calls == old(calls) + Flatten(callbacks)
    {
      hide Done, Flatten;
      var it := 0;
      StartIterating(callbacks);
      while it < |callbacks|
        invariant it <= |callbacks|
        invariant (it < |callbacks| ==> 0 <= |callbacks[it].data|) && calls == old(calls) + Done(callbacks, it, 0)
      {
        var lit := 0;
        while lit < |callbacks[it].data|
          invariant lit <= |callbacks[it].data|
          invariant calls == old(calls) + Done(callbacks, it, lit)
        {
          calls := calls + [Call(callbacks[it].cb, callbacks[it].data[lit])];
          NextDatum(callbacks, it, lit);
          lit := lit + 1;
        }
        NextEntry(callbacks, it);
        it := it + 1;
      }
      AllDone(callbacks);
    }

    method Complete()
      modifies this`reapstatus, this`calls
      ensures old(reapstatus) == OK ==> reapstatus == CallDone && calls == old(calls) + Flatten(callbacks)
      ensures old(reapstatus) != OK ==> reapstatus == old(reapstatus) && calls == old(calls)
    {
      var proceed := false;
      if reapstatus == OK {
        reapstatus := CallInProgress;
        proceed := true;
      }
      if !proceed { return; }
      InvokeCallbacks();
      reapstatus := CallDone;
    }

    method ReapOK() returns (ret: bool)
      ensures ret <==> reapstatus == CallDone || (status == NotStarted && cancel)
    {
      ret := reapstatus == CallDone || (status == NotStarted && cancel);
    }
  }

  // ----- the machine, run by one thread alone, does what the methods do -----

  /** `n` steps of thread `t` with nobody else moving. */
  function Alone(s: Shared, t: Tid, pc: Pc, n: nat): (Shared, Pc)
    decreases n
  {
    if n == 0 then (s, pc) else var (s', pc') := LocalStep(s, t, pc); Alone(s', t, pc', n - 1)
  }

  function Repeat(t: Tid, n: nat): seq<Action> {
    seq(n, _ => Move(t))
  }

  lemma {:induction false} AloneIsExec(s: State, t: Tid, n: nat)
    requires t in s.threads
    ensures var e := Exec(s, Repeat(t, n)); (e.shared, PcOf(e, t)) == Alone(s.shared, t, s.threads[t], n)
    decreases n
  {
    if n > 0 {
      assert Repeat(t, n)[1..] == Repeat(t, n - 1);
      StepOf(s, t, t);
      AloneIsExec(Step(s, t), t, n - 1);
    }
  }

  lemma RegisterAlone(s: Shared, t: Tid, cb: nat)
    requires s.cbHolder.None?
    ensures var ret := cb != 0 && s.reap == OK;
            Alone(s, t, RegEnter(cb), 4) ==
            (s.(callbacks := if ret then PushBack(s.callbacks, cb, t) else s.callbacks), RegReturned(cb, ret))
  {
    var (s1, pc1) := LocalStep(s, t, RegEnter(cb));
    var (s2, pc2) := LocalStep(s1, t, pc1);
    var (s3, pc3) := LocalStep(s2, t, pc2);
    assert Alone(s, t, RegEnter(cb), 4) == Alone(s2, t, pc2, 2) == Alone(s3, t, pc3, 1) == LocalStep(s3, t, pc3);
  }

  lemma MarkAlone(s: Shared, t: Tid)
    requires s.reapHolder.None?
    ensures Alone(s, t, CmpLockReap, 3) == (s.(reap := CallDone), CmpReturned(true))
  {
    var (s1, pc1) := LocalStep(s, t, CmpLockReap);
    var (s2, pc2) := LocalStep(s1, t, pc1);
    assert Alone(s, t, CmpLockReap, 3) == Alone(s1, t, pc1, 2) == Alone(s2, t, pc2, 1) == LocalStep(s2, t, pc2);
  }

  lemma {:induction false} InvokeAlone(s: Shared, t: Tid, it: nat, lit: nat) returns (n: nat)
    requires IteratorOk(s, it, lit) && s.reapHolder.None?
    ensures Alone(s, t, CmpInvoke(it, lit), n) ==
            (s.(calls := Flatten(s.callbacks), reap := CallDone, cbHolder := None), CmpReturned(true))
    decreases |s.callbacks| - it, if it < |s.callbacks| then |s.callbacks[it].data| - lit else 0
  {
    hide Flatten;
    var (s1, pc1) := LocalStep(s, t, CmpInvoke(it, lit));
    if it == |s.callbacks| {
      n := 4;
      MarkAlone(s1, t);
      AllDone(s.callbacks);
    } else if lit < |s.callbacks[it].data| {
      NextDatum(s.callbacks, it, lit);
      var m := InvokeAlone(s1, t, it, lit + 1);
      n := m + 1;
    } else {
      NextEntry(s.callbacks, it);
      var m := InvokeAlone(s1, t, it + 1, 0);
      n := m + 1;
    }
  }

  lemma CompleteAlone(s: Shared, t: Tid) returns (n: nat)
    requires SharedOk(s) && s.reap == OK && s.cbHolder.None? && s.reapHolder.None?
    ensures Alone(s, t, CmpEnter, n) ==
            (s.(calls := s.calls + Flatten(s.callbacks), reap := CallDone, winner := Some(t), invoking := true),
             CmpReturned(true))
  {
    var (s1, pc1) := LocalStep(s, t, CmpEnter);
    var (s2, pc2) := LocalStep(s1, t, pc1);
    var (s3, pc3) := LocalStep(s2, t, pc2);
    var (s4, pc4) := LocalStep(s3, t, pc3);
    var (s5, pc5) := LocalStep(s4, t, pc4);
    StartIterating(s.callbacks);
    var m := InvokeAlone(s5, t, 0, 0);
    n := m + 5;
    assert s.calls == [] && [] + Flatten(s.callbacks) == Flatten(s.callbacks);
    assert Alone(s, t, CmpEnter, n) == Alone(s1, t, pc1, m + 4) == Alone(s2, t, pc2, m + 3);
    assert Alone(s2, t, pc2, m + 3) == Alone(s3, t, pc3, m + 2) == Alone(s4, t, pc4, m + 1) == Alone(s5, t, pc5, m);
  }
}
