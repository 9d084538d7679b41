/**
 Who is woken by the broadcast of Complete: exactly when WaitForCompletion returns.
 */
module WaitForCompletion {
  import opened Basics
  import opened CallbackTable
  import opened DownloadStatus
  import opened Completion

  ghost predicate Broadcast(s: State) {
    s.shared.winner.Some? && PcOf(s, s.shared.winner.value).HasNotified()
  }

  predicate Waiting(pc: Pc) { pc.WaitBlock? || pc.WaitAsleep? }

  lemma {:induction false} ExecConcat(s: State, a: seq<Action>, b: seq<Action>)
    ensures Exec(s, a + b) == Exec(Exec(s, a), b)
    decreases a
  {
    if a == [] {
      assert a + b == b;
    } else {
      assert (a + b)[1..] == a[1..] + b;
      ExecConcat(Apply(s, a[0]), a[1..], b);
    }
  }

  lemma MissedOnce(s: State, a: Action, w: Tid)
    requires Inv(s) && Broadcast(s) && Waiting(PcOf(s, w))
    ensures Broadcast(Apply(s, a)) && Waiting(PcOf(Apply(s, a), w))
  {
    hide Inv, Broadcast, LocalStep;
    if a.Move? && a.t in s.threads {
      MoveKeepsBroadcast(s, a.t);
      StepOf(s, a.t, w);
      if a.t == w { StaysWaiting(s.shared, w, s.threads[w]); }
    } else {
      EntryKeepsBroadcast(s, a);
    }
  }

  lemma MoveKeepsBroadcast(s: State, t: Tid)
    requires Inv(s) && Broadcast(s) && t in s.threads
    ensures Broadcast(Step(s, t)) && !s.threads[t].CmpNotify?
  {
    var c := s.shared.winner.value;
    assert ThreadOk(s.shared, c, PcOf(s, c));
    assert ThreadOk(s.shared, t, PcOf(s, t));
    StepOf(s, t, c);
  }

  lemma StaysWaiting(s: Shared, t: Tid, pc: Pc)
    requires Waiting(pc)
    ensures Waiting(LocalStep(s, t, pc).1)
  {
  }

  lemma EntryKeepsBroadcast(s: State, a: Action)
    requires Broadcast(s) && (a.Move? ==> a.t !in s.threads)
    ensures Broadcast(Apply(s, a))
  {
  }

  /** A thread that has not gone to sleep when the broadcast happens is never woken. */
  lemma {:induction false} MissedForever(s: State, actions: seq<Action>, w: Tid)
    requires Inv(s) && Broadcast(s) && Waiting(PcOf(s, w))
    ensures Waiting(PcOf(Exec(s, actions), w))
    decreases actions
  {
    if actions != [] {
      MissedOnce(s, actions[0], w);
      ApplyInv(s, actions[0]);
      MissedForever(Apply(s, actions[0]), actions[1..], w);
    }
  }

  lemma MoveKeepsSleeper(s: State, t: Tid, w: Tid)
    requires t in s.threads && !s.threads[t].CmpNotify? && PcOf(s, w).WaitAsleep?
    ensures PcOf(Step(s, t), w).WaitAsleep?
  {
    StepOf(s, t, w);
  }

  /** One move of the thread that holds the reap mutex, before anyone has broadcast. */
  lemma HolderMove(s: State, h: Tid)
    requires Inv(s) && !Broadcast(s) && s.shared.reapHolder == Some(h)
    ensures h in s.threads && Inv(Step(s, h)) && !Broadcast(Step(s, h)) && !s.threads[h].CmpNotify?
    ensures var pc := PcOf(Step(s, h), h);
            (pc.CmpLeave? || pc.WaitLeave?) || (Step(s, h).shared.reapHolder == None && (pc.CmpNotify? ==> Step(s, h).shared.winner == Some(h)))
    ensures s.threads[h].CmpLeave? || s.threads[h].WaitLeave? ==> Step(s, h).shared.reapHolder == None
    ensures s.shared.winner.Some? ==> Step(s, h).shared.winner == s.shared.winner
  {
    assert ThreadOk(s.shared, h, PcOf(s, h));
    ApplyInv(s, Move(h));
    assert Apply(s, Move(h)) == Step(s, h);
    StepOf(s, h, h);
    if s.shared.winner.Some? {
      var c := s.shared.winner.value;
      assert ThreadOk(s.shared, c, PcOf(s, c));
      StepOf(s, h, c);
    }
  }

  /** The reap mutex comes free without disturbing a sleeper. */
  lemma ReleaseReap(s: State, w: Tid) returns (actions: seq<Action>)
    requires Inv(s) && !Broadcast(s) && PcOf(s, w).WaitAsleep?
    ensures var n := Exec(s, actions); Inv(n) && !Broadcast(n) && PcOf(n, w).WaitAsleep? && n.shared.reapHolder == None
  {
    actions := [];
    if s.shared.reapHolder.Some? {
      var h := s.shared.reapHolder.value;
      HolderMove(s, h);
      MoveKeepsSleeper(s, h, w);
      var s1 := Step(s, h);
      actions := [Move(h)];
      assert Exec(s1, []) == s1;
      assert Exec(s, actions) == s1;
      if s1.shared.reapHolder.Some? {
        assert ThreadOk(s1.shared, h, PcOf(s1, h));
        HolderMove(s1, h);
        MoveKeepsSleeper(s1, h, w);
        assert Exec(s1, [Move(h)]) == Step(s1, h);
        ExecConcat(s, [Move(h)], [Move(h)]);
        actions := [Move(h)] + [Move(h)];
      }
    }
  }

  /** With the reap mutex free and no broadcast yet, one can be brought about. */
  lemma ReachBroadcast(s: State, w: Tid) returns (actions: seq<Action>)
    requires Inv(s) && !Broadcast(s) && PcOf(s, w).WaitAsleep? && s.shared.reapHolder == None
    ensures PcOf(Exec(s, actions), w).WaitReturned?
  {
    if s.shared.winner.Some? {
      var c := s.shared.winner.value;
      assert ThreadOk(s.shared, c, PcOf(s, c));
      StepOf(s, c, w);
      actions := [Move(c)];
      assert Exec(Step(s, c), []) == Step(s, c);
    } else {
      actions := NewBroadcast(s, w);
    }
  }

  /** A new caller of Complete gets to its broadcast. */
  lemma NewBroadcast(s: State, w: Tid) returns (actions: seq<Action>)
    requires Inv(s) && PcOf(s, w).WaitAsleep? && s.shared.reapHolder == None && s.shared.winner.None?
    ensures PcOf(Exec(s, actions), w).WaitReturned?
  {
    hide Threads, Entries;
    var c := Bound(s.threads.Keys);
    var s1 := Apply(s, CallComplete(c));
    var s2 := Apply(s1, Move(c));
    var s3 := Apply(s2, Move(c));
    var s4 := Apply(s3, Move(c));
    var s5 := Apply(s4, Move(c));
    assert PcOf(s1, c) == CmpEnter && PcOf(s1, w).WaitAsleep?;
    StepOf(s1, c, c); StepOf(s1, c, w);
    StepOf(s2, c, c); StepOf(s2, c, w);
    StepOf(s3, c, c); StepOf(s3, c, w);
    StepOf(s4, c, w);
    actions := [CallComplete(c), Move(c), Move(c), Move(c), Move(c)];
    FiveSteps(s, actions);
  }

  lemma FiveSteps(s: State, a: seq<Action>)
    requires |a| == 5
    ensures Exec(s, a) == Apply(Apply(Apply(Apply(Apply(s, a[0]), a[1]), a[2]), a[3]), a[4])
  {
    var s1 := Apply(s, a[0]);
    var s2 := Apply(s1, a[1]);
    var s3 := Apply(s2, a[2]);
    var s4 := Apply(s3, a[3]);
    assert a[1..][1..] == a[2..] && a[2..][1..] == a[3..] && a[3..][1..] == a[4..] && a[4..][1..] == [];
    assert Exec(s, a) == Exec(s1, a[1..]);
    assert Exec(s1, a[1..]) == Exec(s2, a[2..]);
    assert Exec(s2, a[2..]) == Exec(s3, a[3..]);
    assert Exec(s3, a[3..]) == Exec(s4, a[4..]);
    assert Exec(s4, a[4..]) == Exec(Apply(s4, a[4]), []);
  }

  lemma {:induction false} Bound(used: set<nat>) returns (b: nat)
    ensures forall u :: u in used ==> u < b
  {
    if used == {} {
      b := 0;
    } else {
      var x :| x in used;
      b := Bound(used - {x});
      b := if b <= x then x + 1 else b;
      forall u | u in used
        ensures u < b
      {
        if u != x { assert u in used - {x}; }
      }
    }
  }

  /**
   The exact condition under which WaitForCompletion can still return once it has decided
   to wait: the broadcast of Complete has not happened yet.  Completion does not tell a
   thread that reads "not reapable" first and waits afterwards.
   */
  lemma WaitReturnsIffBeforeBroadcast(s: State, w: Tid)
    requires Reachable(s) && Waiting(PcOf(s, w))
    ensures (exists actions :: PcOf(Exec(s, actions), w).WaitReturned?) <==> !Broadcast(s)
  {
    ReachableInv(s);
    if Broadcast(s) {
      forall actions
        ensures !PcOf(Exec(s, actions), w).WaitReturned?
      {
        MissedForever(s, actions, w);
      }
    } else {
      var s0, first := s, [];
      assert Exec(s, []) == s;
      if PcOf(s, w).WaitBlock? {
        StepOf(s, w, w);
        ApplyInv(s, Move(w));
        s0, first := Step(s, w), [Move(w)];
        assert Exec(s0, []) == s0;
        assert s0.shared == s.shared;
        if s.shared.winner.Some? {
          assert ThreadOk(s.shared, s.shared.winner.value, PcOf(s, s.shared.winner.value));
          StepOf(s, w, s.shared.winner.value);
        }
      }
      var second := ReleaseReap(s0, w);
      var third := ReachBroadcast(Exec(s0, second), w);
      ExecConcat(s, first, second);
      ExecConcat(s, first + second, third);
    }
  }

  /** A thread that is alone moves. */
  lemma AloneMoves(s: Shared, w: Tid, pc: Pc)
    requires !pc.CmpNotify?
    ensures var (n, next) := LocalStep(s, w, pc);
            Apply(State(s, map[w := pc]), Move(w)) == State(n, map[w := next])
  {
    hide LocalStep;
    var was := map[w := pc];
    assert forall u :: u in was ==> u == w;
  }

  /** Alone, a thread gets from WaitEnter to WaitBlock. */
  lemma AloneWaits(s: Shared, w: Tid)
    requires s == INIT.shared
    ensures var m := Move(w);
            Apply(Apply(Apply(State(s, map[w := WaitEnter]), m), m), m) == State(s, map[w := WaitBlock])
  {
    hide Apply;
    var held := s.(reapHolder := Some(w));
    AloneMoves(s, w, WaitEnter);
    AloneMoves(held, w, WaitRead);
    AloneMoves(held, w, WaitLeave(false));
  }

  lemma WaitDecides(s: State, w: Tid, c: Tid) returns (actions: seq<Action>)
    requires s == INIT && w != c
    ensures var n := Exec(s, actions); n.shared == s.shared && PcOf(n, w) == WaitBlock && c in n.threads && PcOf(n, c) == CmpEnter
  {
    var entered, decided := State(s.shared, map[w := WaitEnter]), State(s.shared, map[w := WaitBlock]);
    assert Apply(s, CallWait(w)) == entered by { assert map[][w := WaitEnter] == map[w := WaitEnter]; }
    assert Apply(decided, CallComplete(c)) == State(s.shared, map[w := WaitBlock][c := CmpEnter]);
    hide Apply, Exec;
    AloneWaits(s.shared, w);
    actions := [CallWait(w), Move(w), Move(w), Move(w), CallComplete(c)];
    FiveSteps(s, actions);
  }

  lemma CompleteBroadcasts(s: State, w: Tid, c: Tid) returns (actions: seq<Action>)
    requires s.shared == INIT.shared && PcOf(s, w) == WaitBlock && c in s.threads && PcOf(s, c) == CmpEnter
    ensures var n := Exec(s, actions); PcOf(n, w) == WaitBlock && Broadcast(n)
  {
    var s1 := Apply(s, Move(c));
    var s2 := Apply(s1, Move(c));
    var s3 := Apply(s2, Move(c));
    var s4 := Apply(s3, Move(c));
    StepOf(s, c, c); StepOf(s, c, w);
    StepOf(s1, c, c); StepOf(s1, c, w);
    StepOf(s2, c, c); StepOf(s2, c, w);
    StepOf(s3, c, c); StepOf(s3, c, w);
    actions := [Move(c), Move(c), Move(c), Move(c), SetUnstartedCancel(false)];
    FiveSteps(s, actions);
  }

  /** The lost wake-up is reachable: two threads, one broadcast, one thread left waiting for good. */
  lemma LostWakeup()
    ensures exists s :: Reachable(s) && PcOf(s, 1).WaitBlock? && Broadcast(s)
  {
    var first := WaitDecides(INIT, 1, 2);
    var second := CompleteBroadcasts(Exec(INIT, first), 1, 2);
    ExecConcat(INIT, first, second);
    assert Reachable(Exec(INIT, first + second));
  }
}
