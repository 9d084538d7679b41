/**
 The completion side of a download: registering completion callbacks, completing
 exactly once, and waiting for completion.

 Registration tests the reap status under one mutex (cbmutex) while completion
 changes it under another (reapmutex).  The machine below has one step for every
 mutex operation and for every access to a shared field, and any number of threads
 interleave those steps.
 */
module Completion {
  import opened Basics
  import opened CallbackTable
  import opened DownloadStatus

  // ----- the machine -----

  /** Where a thread stands.  Each constructor is the program point before one step. */
  datatype Pc =
    // RegisterCompletionCallback
    | RegEnter(cb: nat)
    | RegCheck(cb: nat)
    | RegPush(cb: nat)
    | RegLeave(cb: nat, ok: bool)
    | RegReturned(cb: nat, ok: bool)
    // Complete, with InvokeCallbacks inside it
    | CmpEnter
    | CmpTest
    | CmpLeave(won: bool)
    | CmpNotify
    | CmpLockCallbacks
    | CmpInvoke(it: nat, lit: nat)
    | CmpLockReap
    | CmpMark
    | CmpUnlockReap
    | CmpReturned(won: bool)
    // WaitForCompletion, with ReapOK inside it
    | WaitEnter
    | WaitRead
    | WaitLeave(reapable: bool)
    | WaitBlock
    | WaitAsleep
    | WaitReturned
  {
    predicate Registering() { RegEnter? || RegCheck? || RegPush? || RegLeave? || RegReturned? }
    predicate Closing() { CmpEnter? || CmpTest? || CmpLeave? || CmpNotify? || CmpLockCallbacks? }
    predicate Invoking() { CmpInvoke? || CmpLockReap? || CmpMark? || CmpUnlockReap? || CmpReturned? }
    predicate HoldsCallbackMutex() { RegCheck? || RegPush? || RegLeave? || CmpInvoke? }
    predicate HoldsReapMutex() { CmpTest? || CmpLeave? || CmpMark? || CmpUnlockReap? || WaitRead? || WaitLeave? }
    /** Past the guard of Complete. */
    predicate Winner() {
      (CmpLeave? && won) || CmpNotify? || CmpLockCallbacks? || CmpInvoke? || CmpLockReap? || CmpMark? ||
      CmpUnlockReap? || (CmpReturned? && won)
    }
    predicate HasNotified() {
      CmpLockCallbacks? || CmpInvoke? || CmpLockReap? || CmpMark? || CmpUnlockReap? || (CmpReturned? && won)
    }
    predicate HasInvoked() { CmpLockReap? || CmpMark? || CmpUnlockReap? || (CmpReturned? && won) }
    predicate HasMarked() { CmpUnlockReap? || (CmpReturned? && won) }
    predicate Registered() { (RegLeave? || RegReturned?) && ok }
    predicate Returned() { RegReturned? || CmpReturned? || WaitReturned? }
  }

  /**
   The fields the threads share.  Two fields are history: `winner` is the thread that
   passed the guard of Complete, `invoking` tells whether it has reached the callbacks.
   */
  datatype Shared = Shared(
    reap: ReapStatus,
    unstartedCancel: bool,
    cbHolder: Option<Tid>,
    reapHolder: Option<Tid>,
    callbacks: seq<Entry>,
    calls: seq<Call>,
    winner: Option<Tid>,
    invoking: bool)

  datatype State = State(shared: Shared, threads: map<Tid, Pc>)

  const INIT := State(Shared(OK, false, None, None, [], [], None, false), map[])

  /** One step of RegisterCompletionCallback; `s, pc` again when the thread waits for a mutex. */
  function RegisterStep(s: Shared, t: Tid, pc: Pc): (Shared, Pc) {
    match pc
    case RegEnter(cb) =>
      if cb == 0 then (s, RegReturned(cb, false))
      else if s.cbHolder.None? then (s.(cbHolder := Some(t)), RegCheck(cb)) else (s, pc)
    case RegCheck(cb) => (s, if s.reap == OK then RegPush(cb) else RegLeave(cb, false))
    case RegPush(cb) => (s.(callbacks := PushBack(s.callbacks, cb, t)), RegLeave(cb, true))
    case RegLeave(cb, ok) => (s.(cbHolder := None), RegReturned(cb, ok))
    case _ => (s, pc)
  }

  /** One step of Complete up to the callbacks. */
  function CloseStep(s: Shared, t: Tid, pc: Pc): (Shared, Pc) {
    match pc
    case CmpEnter => if s.reapHolder.None? then (s.(reapHolder := Some(t)), CmpTest) else (s, pc)
    case CmpTest =>
      if s.reap == OK then (s.(reap := CallInProgress, winner := Some(t)), CmpLeave(true)) else (s, CmpLeave(false))
    case CmpLeave(won) => (s.(reapHolder := None), if won then CmpNotify else CmpReturned(false))
    case CmpNotify => (s, CmpLockCallbacks)
    case CmpLockCallbacks =>
      if s.cbHolder.None? then (s.(cbHolder := Some(t), invoking := true), CmpInvoke(0, 0)) else (s, pc)
    case _ => (s, pc)
  }

  /** One step of Complete from the callbacks on. */
  function InvokeStep(s: Shared, t: Tid, pc: Pc): (Shared, Pc) {
    match pc
    case CmpInvoke(it, lit) =>
      if it >= |s.callbacks| then (s.(cbHolder := None), CmpLockReap)
      else if lit >= |s.callbacks[it].data| then (s, CmpInvoke(it + 1, 0))
      else (s.(calls := s.calls + [Call(s.callbacks[it].cb, s.callbacks[it].data[lit])]), CmpInvoke(it, lit + 1))
    case CmpLockReap => if s.reapHolder.None? then (s.(reapHolder := Some(t)), CmpMark) else (s, pc)
    case CmpMark => (s.(reap := CallDone), CmpUnlockReap)
    case CmpUnlockReap => (s.(reapHolder := None), CmpReturned(true))
    case _ => (s, pc)
  }

  /** One step of WaitForCompletion. */
  function WaitStep(s: Shared, t: Tid, pc: Pc): (Shared, Pc) {
    match pc
    case WaitEnter => if s.reapHolder.None? then (s.(reapHolder := Some(t)), WaitRead) else (s, pc)
    case WaitRead => (s, WaitLeave(s.reap == CallDone || s.unstartedCancel))
    case WaitLeave(reapable) => (s.(reapHolder := None), if reapable then WaitReturned else WaitBlock)
    case WaitBlock => (s, WaitAsleep)
    case _ => (s, pc)
  }

  function LocalStep(s: Shared, t: Tid, pc: Pc): (Shared, Pc) {
    if pc.Registering() then RegisterStep(s, t, pc)
    else if pc.Closing() then CloseStep(s, t, pc)
    else if pc.Invoking() then InvokeStep(s, t, pc)
    else WaitStep(s, t, pc)
  }

  /** What the broadcast of Complete does to another thread. */
  function Wake(pc: Pc): Pc {
    if pc.WaitAsleep? then WaitReturned else pc
  }

  function Step(s: State, t: Tid): State
    requires t in s.threads
  {
    var (shared, pc) := LocalStep(s.shared, t, s.threads[t]);
    State(shared, map u | u in s.threads ::
            if u == t then pc else if s.threads[t].CmpNotify? then Wake(s.threads[u]) else s.threads[u])
  }

  /** A thread calls in, a thread moves, or the download is cancelled or started elsewhere. */
  datatype Action =
    | CallRegister(t: Tid, cb: nat)
    | CallComplete(t: Tid)
    | CallWait(t: Tid)
    | Move(t: Tid)
    | SetUnstartedCancel(b: bool)

  function Enter(s: State, t: Tid, pc: Pc): State {
    if t in s.threads then s else s.(threads := s.threads[t := pc])
  }

  function Apply(s: State, a: Action): State {
    match a
    case CallRegister(t, cb) => Enter(s, t, RegEnter(cb))
    case CallComplete(t) => Enter(s, t, CmpEnter)
    case CallWait(t) => Enter(s, t, WaitEnter)
    case Move(t) => if t in s.threads then Step(s, t) else s
    case SetUnstartedCancel(b) => s.(shared := s.shared.(unstartedCancel := b))
  }

  function Exec(s: State, actions: seq<Action>): State
    decreases actions
  {
    if actions == [] then s else Exec(Apply(s, actions[0]), actions[1..])
  }

  // ----- the invariant: one condition on the shared fields, one on every thread -----

  ghost predicate SharedOk(s: Shared) {
    && (s.reap == OK <==> s.winner == None)
    && (!s.invoking ==> s.calls == [])
    && (s.invoking ==> s.winner.Some?)
  }

  ghost predicate IteratorOk(s: Shared, it: nat, lit: nat) {
    && it <= |s.callbacks|
    && (if it < |s.callbacks| then lit <= |s.callbacks[it].data| else lit == 0)
    && s.calls == Done(s.callbacks, it, lit)
  }

  ghost predicate WinnerOk(s: Shared, pc: Pc) {
    && pc.Winner()
    && (s.reap == CallDone <==> pc.HasMarked())
    && (s.invoking <==> pc.CmpInvoke? || pc.HasInvoked())
    && (pc.CmpInvoke? ==> IteratorOk(s, pc.it, pc.lit))
    && (pc.HasInvoked() ==> s.calls == Flatten(s.callbacks))
  }

  ghost predicate ThreadOk(s: Shared, t: Tid, pc: Pc) {
    && (pc.HoldsCallbackMutex() <==> s.cbHolder == Some(t))
    && (pc.HoldsReapMutex() <==> s.reapHolder == Some(t))
    && (if s.winner == Some(t) then WinnerOk(s, pc) else !pc.Winner())
    && (pc.RegPush? ==> !s.invoking)
  }

  function Count(table: seq<Entry>, c: Call): nat {
    multiset(Flatten(table))[c]
  }

  /** Thread `t`'s registration is in the table once if it went through, else not at all. */
  ghost predicate EntryOk(table: seq<Entry>, t: Tid, pc: Pc) {
    forall cb :: Count(table, Call(cb, t)) == if pc.Registered() && pc.cb == cb then 1 else 0
  }

  /** A thread that has not called yet is as good as one about to call Complete. */
  function PcOf(s: State, t: Tid): Pc {
    if t in s.threads then s.threads[t] else CmpEnter
  }

  ghost predicate Threads(s: State) {
    forall t :: ThreadOk(s.shared, t, PcOf(s, t))
  }

  ghost predicate Entries(s: State) {
    forall t :: EntryOk(s.shared.callbacks, t, PcOf(s, t))
  }

  ghost predicate Inv(s: State) {
    SharedOk(s.shared) && Threads(s) && Entries(s)
  }

  lemma StartIterating(table: seq<Entry>)
    ensures (if 0 < |table| then 0 <= |table[0].data| else true) && Done(table, 0, 0) == []
  {
    if table != [] { assert table[0].data[..0] == []; }
    assert table[..0] == [];
  }

  lemma RegisterKeepsOwn(s: Shared, t: Tid, pc: Pc)
    requires SharedOk(s) && ThreadOk(s, t, pc) && pc.Registering()
    ensures var (s', pc') := RegisterStep(s, t, pc); SharedOk(s') && ThreadOk(s', t, pc')
  {
  }

  lemma CloseKeepsOwn(s: Shared, t: Tid, pc: Pc)
    requires SharedOk(s) && ThreadOk(s, t, pc) && pc.Closing()
    ensures var (s', pc') := CloseStep(s, t, pc); SharedOk(s') && ThreadOk(s', t, pc')
  {
    StartIterating(s.callbacks);
  }

  lemma IterateKeepsOwn(s: Shared, t: Tid, pc: Pc)
    requires SharedOk(s) && ThreadOk(s, t, pc) && pc.CmpInvoke?
    ensures var (s', pc') := InvokeStep(s, t, pc); SharedOk(s') && ThreadOk(s', t, pc')
  {
    if pc.it < |s.callbacks| {
      if pc.lit < |s.callbacks[pc.it].data| {
        NextDatum(s.callbacks, pc.it, pc.lit);
      } else {
        NextEntry(s.callbacks, pc.it);
      }
    }
  }

  lemma MarkKeepsOwn(s: Shared, t: Tid, pc: Pc)
    requires SharedOk(s) && ThreadOk(s, t, pc) && pc.Invoking() && !pc.CmpInvoke?
    ensures var (s', pc') := InvokeStep(s, t, pc); SharedOk(s') && ThreadOk(s', t, pc')
  {
  }

  lemma WaitKeepsOwn(s: Shared, t: Tid, pc: Pc)
    requires SharedOk(s) && ThreadOk(s, t, pc) && !pc.Registering() && !pc.Closing() && !pc.Invoking()
    ensures var (s', pc') := WaitStep(s, t, pc); SharedOk(s') && ThreadOk(s', t, pc')
  {
  }

  /** A step keeps the condition on the shared fields and on the thread that takes it. */
  lemma StepKeepsOwn(s: Shared, t: Tid, pc: Pc)
    requires SharedOk(s) && ThreadOk(s, t, pc)
    ensures var (s', pc') := LocalStep(s, t, pc); SharedOk(s') && ThreadOk(s', t, pc')
  {
    if pc.Registering() {
      RegisterKeepsOwn(s, t, pc);
    } else if pc.Closing() {
      CloseKeepsOwn(s, t, pc);
    } else if pc.CmpInvoke? {
      IterateKeepsOwn(s, t, pc);
    } else if pc.Invoking() {
      MarkKeepsOwn(s, t, pc);
    } else {
      WaitKeepsOwn(s, t, pc);
    }
  }

  lemma RegisterKeepsOthers(s: Shared, t: Tid, pc: Pc, u: Tid, upc: Pc)
    requires SharedOk(s) && ThreadOk(s, t, pc) && ThreadOk(s, u, upc) && t != u && pc.Registering()
    ensures ThreadOk(RegisterStep(s, t, pc).0, u, upc)
  {
  }

  lemma CloseKeepsOthers(s: Shared, t: Tid, pc: Pc, u: Tid, upc: Pc)
    requires SharedOk(s) && ThreadOk(s, t, pc) && ThreadOk(s, u, upc) && t != u && pc.Closing()
    ensures ThreadOk(CloseStep(s, t, pc).0, u, upc)
  {
  }

  lemma InvokeKeepsOthers(s: Shared, t: Tid, pc: Pc, u: Tid, upc: Pc)
    requires SharedOk(s) && ThreadOk(s, t, pc) && ThreadOk(s, u, upc) && t != u && pc.Invoking()
    ensures ThreadOk(InvokeStep(s, t, pc).0, u, upc)
  {
  }

  lemma WaitKeepsOthers(s: Shared, t: Tid, pc: Pc, u: Tid, upc: Pc)
    requires ThreadOk(s, t, pc) && ThreadOk(s, u, upc) && t != u
    ensures ThreadOk(WaitStep(s, t, pc).0, u, upc)
  {
  }

  /** A step keeps the condition on every other thread. */
  lemma StepKeepsOthers(s: Shared, t: Tid, pc: Pc, u: Tid, upc: Pc)
    requires SharedOk(s) && ThreadOk(s, t, pc) && ThreadOk(s, u, upc) && t != u
    ensures ThreadOk(LocalStep(s, t, pc).0, u, upc) && ThreadOk(LocalStep(s, t, pc).0, u, Wake(upc))
  {
    hide ThreadOk, SharedOk, Wake;
    if pc.Registering() {
      RegisterKeepsOthers(s, t, pc, u, upc);
    } else if pc.Closing() {
      CloseKeepsOthers(s, t, pc, u, upc);
    } else if pc.Invoking() {
      InvokeKeepsOthers(s, t, pc, u, upc);
    } else {
      WaitKeepsOthers(s, t, pc, u, upc);
    }
    WakeKeeps(LocalStep(s, t, pc).0, u, upc);
  }

  lemma WakeKeeps(s: Shared, u: Tid, upc: Pc)
    requires ThreadOk(s, u, upc)
    ensures ThreadOk(s, u, Wake(upc))
  {
  }

  lemma PushKeepsEntries(s: Shared, t: Tid, cb: nat, u: Tid, upc: Pc)
    requires EntryOk(s.callbacks, u, upc) && (t == u ==> upc == RegPush(cb))
    ensures EntryOk(PushBack(s.callbacks, cb, t), u, if t == u then RegLeave(cb, true) else upc)
  {
    PushBackCounts(s.callbacks, cb, t);
  }

  lemma StepKeepsEntries(s: Shared, t: Tid, pc: Pc, u: Tid, upc: Pc)
    requires EntryOk(s.callbacks, u, upc) && (t == u ==> pc == upc)
    ensures var (s', pc') := LocalStep(s, t, pc); EntryOk(s'.callbacks, u, if t == u then pc' else upc)
    ensures EntryOk(LocalStep(s, t, pc).0.callbacks, u, Wake(if t == u then LocalStep(s, t, pc).1 else upc))
  {
    if pc.RegPush? {
      PushKeepsEntries(s, t, pc.cb, u, upc);
    } else {
      var (s', pc') := LocalStep(s, t, pc);
      assert s'.callbacks == s.callbacks;
      assert pc'.Registered() == pc.Registered() && (pc.Registered() ==> pc'.cb == pc.cb);
    }
  }

  lemma StepOf(s: State, t: Tid, u: Tid)
    requires t in s.threads
    ensures PcOf(Step(s, t), u) == if u == t then LocalStep(s.shared, t, s.threads[t]).1
                                   else if s.threads[t].CmpNotify? then Wake(PcOf(s, u)) else PcOf(s, u)
  {
  }

  lemma StepThreads(s: State, t: Tid)
    requires SharedOk(s.shared) && Threads(s) && t in s.threads
    ensures SharedOk(Step(s, t).shared) && Threads(Step(s, t))
  {
    StepKeepsOwn(s.shared, t, PcOf(s, t));
    forall u
      ensures ThreadOk(Step(s, t).shared, u, PcOf(Step(s, t), u))
    {
      StepOf(s, t, u);
      if u != t { StepKeepsOthers(s.shared, t, PcOf(s, t), u, PcOf(s, u)); }
    }
  }

  lemma StepEntries(s: State, t: Tid)
    requires Entries(s) && t in s.threads
    ensures Entries(Step(s, t))
  {
    forall u
      ensures EntryOk(Step(s, t).shared.callbacks, u, PcOf(Step(s, t), u))
    {
      StepOf(s, t, u);
      StepKeepsEntries(s.shared, t, PcOf(s, t), u, PcOf(s, u));
    }
  }

  lemma EnterInv(s: State, t: Tid, pc: Pc)
    requires Inv(s) && (pc.RegEnter? || pc.CmpEnter? || pc.WaitEnter?)
    ensures Inv(Enter(s, t, pc))
  {
    var n := Enter(s, t, pc);
    forall u
      ensures ThreadOk(n.shared, u, PcOf(n, u)) && EntryOk(n.shared.callbacks, u, PcOf(n, u))
    {
      assert ThreadOk(s.shared, u, PcOf(s, u)) && EntryOk(s.shared.callbacks, u, PcOf(s, u));
    }
  }

  lemma ApplyInv(s: State, a: Action)
    requires Inv(s)
    ensures Inv(Apply(s, a))
  {
    match a {
      case CallRegister(t, cb) => EnterInv(s, t, RegEnter(cb));
      case CallComplete(t) => EnterInv(s, t, CmpEnter);
      case CallWait(t) => EnterInv(s, t, WaitEnter);
      case Move(t) =>
        if t in s.threads {
          StepThreads(s, t);
          StepEntries(s, t);
        }
      case SetUnstartedCancel(b) => FlagInv(s, b);
    }
  }

  lemma FlagInv(s: State, b: bool)
    requires Inv(s)
    ensures Inv(s.(shared := s.shared.(unstartedCancel := b)))
  {
    var n := s.(shared := s.shared.(unstartedCancel := b));
    forall u
      ensures ThreadOk(n.shared, u, PcOf(n, u)) && EntryOk(n.shared.callbacks, u, PcOf(n, u))
    {
      assert ThreadOk(s.shared, u, PcOf(s, u)) && EntryOk(s.shared.callbacks, u, PcOf(s, u));
    }
  }

  lemma {:induction false} ExecInv(s: State, actions: seq<Action>)
    requires Inv(s)
    ensures Inv(Exec(s, actions))
    decreases actions
  {
    if actions != [] {
      ApplyInv(s, actions[0]);
      ExecInv(Apply(s, actions[0]), actions[1..]);
    }
  }

  lemma InitInv()
    ensures Inv(INIT)
  {
  }

  // ----- main results -----

  /** The state after any interleaving of any number of calls. */
  ghost predicate Reachable(s: State) {
    exists actions :: s == Exec(INIT, actions)
  }

  lemma ReachableInv(s: State)
    requires Reachable(s)
    ensures Inv(s)
  {
    var actions :| s == Exec(INIT, actions);
    InitInv();
    ExecInv(INIT, actions);
  }

  /**
   Once the reap status is CALLDONE, a registration that returned true has been invoked
   exactly once, one that returned false never, and nothing else has been invoked.
   */
  lemma InvokedExactlyOnce(s: State, t: Tid, cb: nat)
    requires Reachable(s) && s.shared.reap == CallDone
    ensures PcOf(s, t) == RegReturned(cb, true) ==> multiset(s.shared.calls)[Call(cb, t)] == 1
    ensures PcOf(s, t) == RegReturned(cb, false) ==> forall c :: Call(c, t) !in s.shared.calls
    ensures Call(cb, t) in s.shared.calls ==> PcOf(s, t) == RegLeave(cb, true) || PcOf(s, t) == RegReturned(cb, true)
  {
    ReachableInv(s);
    var w := s.shared.winner.value;
    assert ThreadOk(s.shared, w, PcOf(s, w));
    assert s.shared.calls == Flatten(s.shared.callbacks);
    assert EntryOk(s.shared.callbacks, t, PcOf(s, t));
    forall c
      ensures multiset(s.shared.calls)[Call(c, t)] == if PcOf(s, t).Registered() && PcOf(s, t).cb == c then 1 else 0
    {
      assert Count(s.shared.callbacks, Call(c, t)) == multiset(s.shared.calls)[Call(c, t)];
    }
    forall c | Call(c, t) in s.shared.calls
      ensures multiset(s.shared.calls)[Call(c, t)] > 0
    {
    }
  }

  /** At every moment the calls made are a prefix of the table, callback by callback in registration order. */
  lemma CallsFollowTable(s: State)
    requires Reachable(s)
    ensures s.shared.calls <= Flatten(s.shared.callbacks)
    ensures s.shared.reap == CallDone ==> s.shared.calls == Flatten(s.shared.callbacks)
  {
    ReachableInv(s);
    if s.shared.winner.Some? {
      var pc := PcOf(s, s.shared.winner.value);
      assert ThreadOk(s.shared, s.shared.winner.value, pc);
      if pc.CmpInvoke? && pc.it < |s.shared.callbacks| {
        var table, it := s.shared.callbacks, pc.it;
        assert table == table[..it] + table[it..];
        FlattenConcat(table[..it], table[it..]);
        var d := table[it].data;
        assert d == d[..pc.lit] + d[pc.lit..];
        assert Calls(table[it].cb, d[..pc.lit]) <= Calls(table[it].cb, d);
      }
    }
  }

  /** Only one caller of Complete gets past its guard. */
  lemma OneCompleter(s: State, t: Tid, u: Tid)
    requires Reachable(s) && PcOf(s, t).Winner() && PcOf(s, u).Winner()
    ensures t == u
  {
    ReachableInv(s);
    assert ThreadOk(s.shared, t, PcOf(s, t)) && ThreadOk(s.shared, u, PcOf(s, u));
  }

  // ----- progress -----

  /** A thread inside a call that is not waiting for the broadcast. */
  predicate Busy(pc: Pc) {
    !pc.Returned() && !pc.WaitBlock? && !pc.WaitAsleep?
  }

  /** The thread has a step to take that changes where it stands or a shared field. */
  predicate Moves(s: State, t: Tid) {
    t in s.threads && LocalStep(s.shared, t, s.threads[t]) != (s.shared, s.threads[t])
  }

  lemma HolderMoves(s: State, h: Tid)
    requires Threads(s) && h in s.threads
    requires s.shared.cbHolder == Some(h) || s.shared.reapHolder == Some(h)
    ensures Moves(s, h)
  {
    assert ThreadOk(s.shared, h, PcOf(s, h));
  }

  /** The two mutexes cannot deadlock: while any thread is busy, some thread can move. */
  lemma NoDeadlock(s: State, t: Tid)
    requires Reachable(s) && t in s.threads && Busy(s.threads[t])
    ensures exists u :: Moves(s, u)
  {
    ReachableInv(s);
    if !Moves(s, t) {
      assert s.shared.cbHolder.Some? || s.shared.reapHolder.Some?;
      var h := if s.shared.cbHolder.Some? then s.shared.cbHolder.value else s.shared.reapHolder.value;
      assert ThreadOk(s.shared, h, PcOf(s, h));
      HolderMoves(s, h);
    }
  }
}
