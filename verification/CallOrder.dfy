/** In which order the callbacks of a download are invoked, over whole runs. */
module CallOrder {
  import opened Basics
  import opened CallbackTable
  import opened Completion
  import opened DownloadStatus

  lemma StepAscends(s: Shared, t: Tid, pc: Pc)
    requires Ascending(s.callbacks)
    ensures Ascending(LocalStep(s, t, pc).0.callbacks)
  {
    hide Ascending;
    if pc.RegPush? { PushBackAscends(s.callbacks, pc.cb, t); }
  }

  lemma {:induction false} ExecAscends(s: State, actions: seq<Action>)
    requires Ascending(s.shared.callbacks)
    ensures Ascending(Exec(s, actions).shared.callbacks)
    decreases actions
  {
    hide Ascending, LocalStep;
    if actions != [] {
      var a := actions[0];
      if a.Move? && a.t in s.threads { StepAscends(s.shared, a.t, s.threads[a.t]); }
      ExecAscends(Apply(s, a), actions[1..]);
    }
  }

  lemma {:induction false} FlattenAscends(table: seq<Entry>, i: nat, j: nat)
    requires Ascending(table) && i <= j < |Flatten(table)|
    ensures Flatten(table)[i].cb <= Flatten(table)[j].cb
  {
    var first, rest := Calls(table[0].cb, table[0].data), Flatten(table[1..]);
    CallsAbove(table[1..], table[0].cb);
    assert j >= |first| ==> rest[j - |first|] in rest;
    if i >= |first| { FlattenAscends(table[1..], i - |first|, j - |first|); }
  }

  /** The callbacks are invoked in ascending order, whatever the order of registration. */
  lemma CallsAscend(s: State, i: nat, j: nat)
    requires Reachable(s) && i <= j < |s.shared.calls|
    ensures s.shared.calls[i].cb <= s.shared.calls[j].cb
  {
    hide Ascending;
    CallsFollowTable(s);
    var actions :| s == Exec(INIT, actions);
    assert Ascending(INIT.shared.callbacks) by { NoneAscends(); }
    ExecAscends(INIT, actions);
    FlattenAscends(s.shared.callbacks, i, j);
  }

  lemma NoneAscends()
    ensures Ascending([])
  {
  }

  /** Wherever both are called, `x` is called before `y`. */
  ghost predicate Earlier(calls: seq<Call>, x: Call, y: Call) {
    forall i, j :: 0 <= i < |calls| && 0 <= j < |calls| && calls[i] == x && calls[j] == y ==> i < j
  }

  lemma InsertKeeps(before: seq<Call>, after: seq<Call>, c: Call, x: Call, y: Call)
    requires Earlier(before + after, x, y) && c != x
    requires c == y ==> x !in after
    ensures Earlier(before + [c] + after, x, y)
  {
    var was, now := before + after, before + [c] + after;
    forall i, j | 0 <= i < |now| && 0 <= j < |now| && now[i] == x && now[j] == y
      ensures i < j
    {
      var i', j' := if i < |before| then i else i - 1, if j < |before| then j else j - 1;
      assert was[i'] == x by { assert i != |before|; }
      if j != |before| { assert was[j'] == y; }
      assert i > |before| ==> after[i - |before| - 1] == x;
    }
  }

  /** The registration of `t` stands, and its call comes before the one of `u` for the same callback. */
  ghost predicate First(s: State, t: Tid, u: Tid, cb: nat) {
    && PcOf(s, t).Registered() && PcOf(s, t).cb == cb
    && Earlier(Flatten(s.shared.callbacks), Call(cb, t), Call(cb, u))
  }

  lemma PushKeepsFirst(table: seq<Entry>, v: Tid, cb': nat, t: Tid, u: Tid, cb: nat)
    requires Ascending(table) && v != t && Earlier(Flatten(table), Call(cb, t), Call(cb, u))
    ensures Earlier(Flatten(PushBack(table, cb', v)), Call(cb, t), Call(cb, u))
  {
    hide Ascending, Earlier;
    var before, after := PushBackKeepsOrder(table, cb', v);
    InsertKeeps(before, after, Call(cb', v), Call(cb, t), Call(cb, u));
  }

  lemma ApplyKeepsFirst(s: State, a: Action, t: Tid, u: Tid, cb: nat)
    requires First(s, t, u, cb) && Ascending(s.shared.callbacks)
    ensures First(Apply(s, a), t, u, cb) && Ascending(Apply(s, a).shared.callbacks)
  {
    hide Ascending, Earlier, Flatten;
    if a.Move? && a.t in s.threads {
      StepAscends(s.shared, a.t, s.threads[a.t]);
      StepOf(s, a.t, t);
      if s.threads[a.t].RegPush? { PushKeepsFirst(s.shared.callbacks, a.t, s.threads[a.t].cb, t, u, cb); }
    }
  }

  lemma {:induction false} ExecKeepsFirst(s: State, actions: seq<Action>, t: Tid, u: Tid, cb: nat)
    requires First(s, t, u, cb) && Ascending(s.shared.callbacks)
    ensures First(Exec(s, actions), t, u, cb)
    decreases actions
  {
    hide Ascending, First, Apply;
    if actions != [] {
      ApplyKeepsFirst(s, actions[0], t, u, cb);
      ExecKeepsFirst(Apply(s, actions[0]), actions[1..], t, u, cb);
    }
  }

  lemma {:induction false} ExecConcat(s: State, a: seq<Action>, b: seq<Action>)
    ensures Exec(s, a + b) == Exec(Exec(s, a), b)
    decreases a
  {
    hide Apply;
    if a == [] {
      assert a + b == b;
    } else {
      assert (a + b)[1..] == a[1..] + b;
      ExecConcat(Apply(s, a[0]), a[1..], b);
    }
  }

  lemma NotThereYet(s: State, t: Tid, u: Tid, cb: nat)
    requires Inv(s) && PcOf(s, t) == RegReturned(cb, true) && !PcOf(s, u).Registered()
    ensures First(s, t, u, cb)
  {
    assert EntryOk(s.shared.callbacks, u, PcOf(s, u));
    assert Count(s.shared.callbacks, Call(cb, u)) == 0;
  }

  /** Of two registrations with one callback, the one that returned before the other was made is invoked first. */
  lemma RegisteredFirstCalledFirst(s: State, actions: seq<Action>, t: Tid, u: Tid, cb: nat)
    requires Reachable(s) && PcOf(s, t) == RegReturned(cb, true) && !PcOf(s, u).Registered()
    ensures Earlier(Exec(s, actions).shared.calls, Call(cb, t), Call(cb, u))
  {
    hide Ascending, Inv, Apply;
    ReachableInv(s);
    NotThereYet(s, t, u, cb);
    var run :| s == Exec(INIT, run);
    assert Ascending(INIT.shared.callbacks) by { NoneAscends(); }
    ExecAscends(INIT, run);
    ExecKeepsFirst(s, actions, t, u, cb);
    ExecConcat(INIT, run, actions);
    CallsFollowTable(Exec(s, actions));
  }
}
