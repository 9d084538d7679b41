/**
 The registry of downloads and the life of a curl download in it: adding, running,
 cancelling, completing and deleting, by any number of threads.

 The registry is a map from users to lists of pointers under one mutex.  A download is an
 object on the heap; a thread that follows a pointer to a deleted object becomes `Crashed`, or
 `CrashedInStore` when it is about to store the thread that StartDownload has created.
 */
module Transfers {
  import opened Basics
  import opened DownloadStatus

  type Id = nat

  datatype Signal = SignalDone | SignalFailed

  /** The result of a transfer: 0, CURLE_OBSOLETE, or an error. */
  datatype Result = Fine | Obsolete | Error

  datatype Info = Info(user: nat, url: string, uuid: string, autoremove: bool)

  /** History: where the one right to remove a download is. */
  datatype Ticket = NoTicket | Registered | InQueue | Held(holder: Tid)

  /**
   A Downloader.  `callbacks` counts the registered removals.  From `adder` on the fields are
   history: the thread that adds it, the thread that runs it, the right to remove it, whether
   it is in its user's list, whether its callbacks were invoked, the signals emitted, what the
   transfer answered, whether the cancel flag was up when the run settled on its outcome, and the
   thread that has created the run thread and has yet to store it in the download.
   */
  datatype Download = Download(
    info: Info,
    status: Status,
    cancel: bool,
    reap: ReapStatus,
    cbHolder: Option<Tid>,
    reapHolder: Option<Tid>,
    callbacks: nat,
    adder: Option<Tid>,
    runner: Option<Tid>,
    ticket: Ticket,
    listed: bool,
    invoked: bool,
    signals: seq<Signal>,
    answer: Option<Result>,
    settled: Option<bool>,
    starter: Option<Tid>)

  function New(info: Info, t: Tid): Download {
    Download(info, NotStarted, false, OK, None, None, 0, Some(t), None, NoTicket, false, false, [], None, None, None)
  }

  datatype Request = Request(user: nat, url: string, uuid: string)

  /** Where a cancellation or a removal returns to. */
  datatype Back = ToWorker | ToCaller | ToRun(run: Id)

  /** Where a thread stands.  Each constructor is the program point before one step. */
  datatype Pc =
    // RegisterDownload, StartDownload
    | AddLock(d: Id) | AddPush(d: Id) | AddUnlock(d: Id) | AddStart(d: Id) | AddStore(d: Id)
    // Run
    | RunCheck(d: Id) | RunPerform(d: Id) | RunSettle(d: Id, res: Result) | RunSignal(d: Id)
    // Complete
    | CmpClose(d: Id) | CmpNotify(d: Id) | CmpInvoke(d: Id) | CmpLock(d: Id) | CmpMark(d: Id) | CmpUnlock(d: Id)
    // CancelDownload
    | CanLock(req: Request, back: Back) | CanFind(req: Request, back: Back)
    | CanRegister(d: Id, back: Back) | CanPush(d: Id, back: Back) | CanFlag(d: Id, back: Back)
    | CanDrop(d: Id, back: Back) | CanRelock(back: Back) | CanUnlock(back: Back)
    // RemoveDownload
    | RemLock(d: Id, back: Back) | RemFind(d: Id, back: Back) | RemWait(d: Id, i: nat, back: Back)
    | RemErase(d: Id, i: nat, back: Back) | RemDelete(d: Id, back: Back) | RemUnlock(back: Back)
    // the deferred work queue
    | WorkerIdle
    | Finished
    | Crashed
    | CrashedInStore
  {
    predicate Adding() { AddLock? || AddPush? || AddUnlock? || AddStart? }
    predicate Transferring() { RunCheck? || RunPerform? || RunSettle? || RunSignal? }
    predicate Completing() { CmpClose? || CmpNotify? || CmpInvoke? || CmpLock? || CmpMark? || CmpUnlock? }
    predicate Removing() { RemLock? || RemFind? || RemWait? || RemErase? || RemDelete? }
    predicate Returning() {
      CanLock? || CanFind? || CanRegister? || CanPush? || CanFlag? || CanDrop? || CanRelock? || CanUnlock? ||
      Removing() || RemUnlock?
    }
    predicate HoldsLock() {
      AddPush? || AddUnlock? || CanFind? || CanRegister? || CanPush? || CanFlag? || CanDrop? || CanUnlock? ||
      RemFind? || RemWait? || RemErase? || RemDelete? || RemUnlock?
    }
    /** Steps on one download alone, and what they follow a pointer to. */
    predicate OnDownload() {
      Transferring() || (Completing() && !CmpInvoke?) || CanRegister? || CanPush? || CanFlag? || RemWait?
    }
    /** Steps on the registry mutex. */
    predicate OnLock() {
      AddLock? || AddUnlock? || CanLock? || CanDrop? || CanRelock? || CanUnlock? || RemLock? || RemUnlock?
    }
    /** The download a thread is adding, running, about to remove, or has found. */
    predicate Adds(e: Id) { Adding() && d == e }
    predicate Runs(e: Id) {
      ((Transferring() || Completing()) && d == e) || (Returning() && back == ToRun(e))
    }
    predicate Owns(e: Id) { (CanPush? || CanDrop? || Removing()) && d == e }
    predicate Aims(e: Id) { (CanRegister? || CanPush? || CanFlag? || CanDrop?) && d == e }
    predicate Names(e: Id) { Adds(e) || Runs(e) || Owns(e) || Aims(e) }
    /** The one pointer that Names leaves out. */
    predicate Stores(e: Id) { AddStore? && d == e }
  }

  datatype Shared = Shared(
    heap: map<Id, Download>,
    transfers: map<nat, seq<Id>>,
    lock: Option<Tid>,
    queue: seq<Id>,
    deleted: seq<Id>)

  datatype State = State(shared: Shared, threads: map<Tid, Pc>)

  const INIT := State(Shared(map[], map[], None, [], []), map[])

  function List(s: Shared, user: nat): seq<Id> {
    if user in s.transfers then s.transfers[user] else []
  }

  // ----- the searches -----

  datatype Search = Hit(i: nat) | Miss | Dangling

  function Further(r: Search): Search {
    if r.Hit? then Hit(r.i + 1) else r
  }

  /** The first entry with the UUID. */
  function ByUuid(heap: map<Id, Download>, list: seq<Id>, uuid: string): Search {
    if list == [] then Miss
    else if list[0] !in heap then Dangling
    else if heap[list[0]].info.uuid == uuid then Hit(0)
    else Further(ByUuid(heap, list[1..], uuid))
  }

  /** The first entry with the URL. */
  function ByUrl(heap: map<Id, Download>, list: seq<Id>, url: string): Search {
    if list == [] then Miss
    else if list[0] !in heap then Dangling
    else if heap[list[0]].info.url == url then Hit(0)
    else Further(ByUrl(heap, list[1..], url))
  }

  /** By UUID when there is one, and by URL when that fails. */
  function Find(heap: map<Id, Download>, list: seq<Id>, req: Request): Search {
    var byUuid := if req.uuid != "" then ByUuid(heap, list, req.uuid) else Miss;
    if byUuid.Miss? then ByUrl(heap, list, req.url) else byUuid
  }

  /** Entry `i` has the UUID that is asked for; an empty one asks for nothing. */
  predicate UuidMatches(heap: map<Id, Download>, list: seq<Id>, req: Request, i: nat) {
    i < |list| && list[i] in heap && req.uuid != "" && heap[list[i]].info.uuid == req.uuid
  }

  predicate UrlMatches(heap: map<Id, Download>, list: seq<Id>, req: Request, i: nat) {
    i < |list| && list[i] in heap && heap[list[i]].info.url == req.url
  }

  /** What a search for a request has to answer: the UUID decides when some entry has it, else the URL. */
  ghost predicate Answers(heap: map<Id, Download>, list: seq<Id>, req: Request, r: Search) {
    match r
    case Dangling => false
    case Miss => forall k: nat :: !UuidMatches(heap, list, req, k) && !UrlMatches(heap, list, req, k)
    case Hit(i) =>
      if exists k: nat :: UuidMatches(heap, list, req, k)
      then UuidMatches(heap, list, req, i) && forall k: nat :: k < i ==> !UuidMatches(heap, list, req, k)
      else UrlMatches(heap, list, req, i) && forall k: nat :: k < i ==> !UrlMatches(heap, list, req, k)
  }

  /** In a list of live entries the search gives that answer. */
  lemma FindAnswers(heap: map<Id, Download>, list: seq<Id>, req: Request)
    requires forall i :: 0 <= i < |list| ==> list[i] in heap
    ensures Answers(heap, list, req, Find(heap, list, req))
  {
    ByUuidInList(heap, list, req.uuid);
    ByUrlInList(heap, list, req.url);
    var byUuid := ByUuid(heap, list, req.uuid);
    if req.uuid != "" && byUuid.Hit? { assert UuidMatches(heap, list, req, byUuid.i); }
  }

  lemma {:induction false} ByUuidInList(heap: map<Id, Download>, list: seq<Id>, uuid: string)
    requires forall i :: 0 <= i < |list| ==> list[i] in heap
    ensures var r := ByUuid(heap, list, uuid); !r.Dangling? && (r.Hit? ==> r.i < |list| && heap[list[r.i]].info.uuid == uuid)
    ensures var r := ByUuid(heap, list, uuid);
            forall i :: 0 <= i < |list| && (r.Hit? ==> i < r.i) ==> heap[list[i]].info.uuid != uuid
  {
    if list != [] { ByUuidInList(heap, list[1..], uuid); }
  }

  lemma {:induction false} ByUrlInList(heap: map<Id, Download>, list: seq<Id>, url: string)
    requires forall i :: 0 <= i < |list| ==> list[i] in heap
    ensures var r := ByUrl(heap, list, url); !r.Dangling? && (r.Hit? ==> r.i < |list| && heap[list[r.i]].info.url == url)
    ensures var r := ByUrl(heap, list, url);
            forall i :: 0 <= i < |list| && (r.Hit? ==> i < r.i) ==> heap[list[i]].info.url != url
  {
    if list != [] { ByUrlInList(heap, list[1..], url); }
  }

  // ----- the steps -----

  datatype Oracle = Tick | Abort | Finish(res: Result)

  /** The outcome Run settles on. */
  function Settle(o: Download, res: Result): Status {
    if o.cancel || o.status == CancelInProgress then CancelDone
    else if res == Fine then Downloaded
    else if res == Obsolete then CancelDone
    else Status.Failed
  }

  function RequestFor(info: Info): Request {
    Request(info.user, info.url, info.uuid)
  }

  function RunStep(o: Download, pc: Pc, oracle: Oracle): (Download, Pc) {
    match pc
    case RunCheck(d) =>
      if o.status == Queued && !o.cancel then (o.(status := InProgress), RunPerform(d)) else (o, RunSettle(d, Obsolete))
    case RunPerform(d) =>
      (match oracle
       case Tick => (o, pc)
       case Abort => (if o.cancel then o.(status := CancelInProgress) else o, pc)
       case Finish(res) => (o.(answer := Some(res)), RunSettle(d, res)))
    case RunSettle(d, res) => (o.(status := Settle(o, res), settled := Some(o.cancel)), RunSignal(d))
    case RunSignal(d) =>
      (o.(signals := o.signals + [if o.status in {Downloaded, CancelDone} then SignalDone else SignalFailed]),
       if o.info.autoremove then CanLock(RequestFor(o.info), ToRun(d)) else CmpClose(d))
    case _ => (o, pc)
  }

  function CompleteStep(o: Download, t: Tid, pc: Pc): (Download, Pc) {
    match pc
    case CmpClose(d) =>
      if o.reapHolder.Some? then (o, pc)
      else if o.reap == OK then (o.(reap := CallInProgress), CmpNotify(d))
      else (o.(runner := None), Finished)
    case CmpNotify(d) => (o, CmpInvoke(d))
    case CmpLock(d) => if o.reapHolder.Some? then (o, pc) else (o.(reapHolder := Some(t)), CmpMark(d))
    case CmpMark(d) => (o.(reap := CallDone), CmpUnlock(d))
    case CmpUnlock(d) => (o.(reapHolder := None, runner := None), Finished)
    case _ => (o, pc)
  }

  function ReapOK(o: Download): bool {
    o.reap == CallDone || (o.status == NotStarted && o.cancel)
  }

  /** The steps of CancelDownload and RemoveDownload on the download they found. */
  function CancelStep(o: Download, t: Tid, pc: Pc): (Download, Pc) {
    match pc
    case CanRegister(d, back) =>
      if o.cbHolder.Some? then (o, pc)
      else if o.reap == OK then (o.(cbHolder := Some(t), ticket := Held(t)), CanPush(d, back))
      else (o.(ticket := Held(t)), CanDrop(d, back))
    case CanPush(d, back) => (o.(callbacks := o.callbacks + 1, cbHolder := None, ticket := Registered), CanFlag(d, back))
    case CanFlag(d, back) => (o.(cancel := true), CanUnlock(back))
    case RemWait(d, i, back) => (o, if o.reapHolder.None? && ReapOK(o) then RemErase(d, i, back) else pc)
    case _ => (o, pc)
  }

  function DownloadStep(o: Download, t: Tid, pc: Pc, oracle: Oracle): (Download, Pc) {
    if pc.Transferring() then RunStep(o, pc, oracle)
    else if pc.Completing() then CompleteStep(o, t, pc)
    else CancelStep(o, t, pc)
  }

  /** After CancelDownload. */
  function Return(back: Back): Pc {
    if back.ToRun? then CmpClose(back.run) else Finished
  }

  /** What a thread does when it gets the registry mutex, or gives it back. */
  function LockStep(pc: Pc): Pc {
    match pc
    case AddLock(d) => AddPush(d)
    case AddUnlock(d) => AddStart(d)
    case CanLock(req, back) => CanFind(req, back)
    case CanDrop(d, back) => RemLock(d, back)
    case CanRelock(back) => CanUnlock(back)
    case CanUnlock(back) => Return(back)
    case RemLock(d, back) => RemFind(d, back)
    case RemUnlock(back) => if back.ToWorker? then WorkerIdle else CanRelock(back)
    case _ => pc
  }

  function FindStep(s: Shared, pc: Pc): Pc {
    match pc
    case CanFind(req, back) =>
      var list := List(s, req.user);
      (match Find(s.heap, list, req)
       case Hit(i) => if i < |list| then CanRegister(list[i], back) else Crashed
       case Miss => CanUnlock(back)
       case Dangling => Crashed)
    case RemFind(d, back) =>
      if d !in s.heap then Crashed
      else
        (match ByUrl(s.heap, List(s, s.heap[d].info.user), s.heap[d].info.url)
         case Hit(i) => RemWait(d, i, back)
         case Miss => RemUnlock(back)
         case Dangling => Crashed)
    case _ => pc
  }

  function RemoveAt(list: seq<Id>, i: nat): seq<Id> {
    if i < |list| then list[..i] + list[i + 1..] else list
  }

  function Repeat(d: Id, n: nat): seq<Id> {
    seq(n, _ => d)
  }

  /** Steps that change a list, the work queue or the heap. */
  function RegistryStep(s: Shared, t: Tid, pc: Pc): (Shared, Pc) {
    match pc
    case AddPush(d) =>
      if d !in s.heap then (s, Crashed)
      else
        var o := s.heap[d];
        (s.(transfers := s.transfers[o.info.user := List(s, o.info.user) + [d]], heap := s.heap[d := o.(listed := true)]),
         AddUnlock(d))
    case AddStore(d) =>
      if d !in s.heap then (s, CrashedInStore)
      else (s.(heap := s.heap[d := s.heap[d].(starter := None)]), Finished)
    case RemErase(d, i, back) =>
      if d !in s.heap then (s, Crashed)
      else
        var o := s.heap[d];
        (s.(transfers := s.transfers[o.info.user := RemoveAt(List(s, o.info.user), i)], heap := s.heap[d := o.(listed := false)]),
         RemDelete(d, back))
    case RemDelete(d, back) =>
      if d !in s.heap then (s, Crashed)
      else (s.(heap := s.heap - {d}, deleted := s.deleted + [d]), RemUnlock(back))
    case CmpInvoke(d) =>
      if d !in s.heap then (s, Crashed)
      else
        var o := s.heap[d];
        if o.cbHolder.Some? then (s, pc)
        else (s.(queue := s.queue + Repeat(d, o.callbacks),
                 heap := s.heap[d := o.(invoked := true, ticket := if o.ticket == Registered then InQueue else o.ticket)]),
              CmpLock(d))
    case WorkerIdle =>
      if s.queue == [] then (s, pc)
      else
        var d := s.queue[0];
        if d !in s.heap then (s, Crashed)
        else (s.(queue := s.queue[1..], heap := s.heap[d := s.heap[d].(ticket := Held(t))]), RemLock(d, ToWorker))
    case _ => (s, pc)
  }

  function LocalStep(s: Shared, t: Tid, pc: Pc, oracle: Oracle): (Shared, Pc) {
    if pc.OnDownload() then
      if pc.d !in s.heap then (s, Crashed)
      else
        var (o, next) := DownloadStep(s.heap[pc.d], t, pc, oracle);
        (s.(heap := s.heap[pc.d := o]), next)
    else if pc.OnLock() then
      if pc.RemLock? && pc.d !in s.heap then (s, Crashed)
      else if pc.HoldsLock() then (s.(lock := None), LockStep(pc))
      else if s.lock.None? then (s.(lock := Some(t)), LockStep(pc))
      else (s, pc)
    else if pc.CanFind? || pc.RemFind? then (s, FindStep(s, pc))
    else RegistryStep(s, t, pc)
  }

  datatype Action =
    | Add(t: Tid, d: Id, info: Info)
    | Cancel(t: Tid, req: Request)
    | Work(t: Tid)
    | Start(t: Tid, r: Tid)  // StartDownload, with the thread it starts
    | Move(t: Tid, oracle: Oracle)

  function PcOf(s: State, t: Tid): Pc {
    if t in s.threads then s.threads[t] else Finished
  }

  /** StartDownload up to the creation of the run thread; storing that thread in the download is a step of its own. */
  function StartStep(s: State, t: Tid, r: Tid): State {
    var pc := PcOf(s, t);
    if !pc.AddStart? || r in s.threads then s
    else if pc.d !in s.shared.heap then s.(threads := s.threads[t := Crashed])
    else
      var o := s.shared.heap[pc.d].(status := Queued, adder := None, runner := Some(r), starter := Some(t));
      State(s.shared.(heap := s.shared.heap[pc.d := o]), s.threads[t := AddStore(pc.d)][r := RunCheck(pc.d)])
  }

  function Apply(s: State, a: Action): State {
    match a
    case Add(t, d, info) =>
      if t in s.threads || d in s.shared.heap || d in s.shared.deleted then s
      else State(s.shared.(heap := s.shared.heap[d := New(info, t)]), s.threads[t := AddLock(d)])
    case Cancel(t, req) => if t in s.threads then s else s.(threads := s.threads[t := CanLock(req, ToCaller)])
    case Work(t) => if t in s.threads then s else s.(threads := s.threads[t := WorkerIdle])
    case Start(t, r) => StartStep(s, t, r)
    case Move(t, oracle) =>
      if t !in s.threads then s
      else
        var (shared, pc) := LocalStep(s.shared, t, s.threads[t], oracle);
        State(shared, s.threads[t := pc])
  }

  /** The two rules the callers keep: no two downloads of a user have one URL, and no download is cancelled twice. */
  ghost predicate Allowed(s: State, a: Action) {
    match a
    case Add(t, d, info) => forall e :: e in s.shared.heap ==> Key(s.shared.heap[e].info) != Key(info)
    case Move(t, oracle) =>
      var pc := PcOf(s, t);
      pc.CanRegister? && pc.d in s.shared.heap ==> s.shared.heap[pc.d].ticket == NoTicket
    case _ => true
  }

  function Key(info: Info): (nat, string) { (info.user, info.url) }

  function Exec(s: State, actions: seq<Action>): State
    decreases actions
  {
    if actions == [] then s else Exec(Apply(s, actions[0]), actions[1..])
  }

  ghost predicate AllAllowed(s: State, actions: seq<Action>)
    decreases actions
  {
    actions == [] || (Allowed(s, actions[0]) && AllAllowed(Apply(s, actions[0]), actions[1..]))
  }

  ghost predicate Reachable(s: State) {
    exists actions :: AllAllowed(INIT, actions) && s == Exec(INIT, actions)
  }

  // ----- the invariant -----

  predicate Final(s: Status) { s in {CancelDone, Downloaded, Status.Failed} }

  /** A run has emitted its one signal, the one its status asks for. */
  predicate Signalled(o: Download) {
    && Final(o.status)
    && o.signals == [if o.status == Status.Failed then SignalFailed else SignalDone]
  }

  /** The run thread is done with the download. */
  predicate Exited(o: Download) {
    o.reap == CallDone && o.adder.None? && o.runner.None? && o.reapHolder.None?
  }

  ghost predicate DownloadOk(o: Download) {
    && (o.adder.Some? ==> o.runner.None? && o.reap == OK && o.signals == [] && !o.invoked)
    && (o.adder.None? && o.runner.None? ==> Exited(o) && o.invoked)
    && (if o.reap != OK then Signalled(o) else !o.invoked)
    && (o.reapHolder.Some? ==> o.reapHolder == o.runner)
    && (o.runner.Some? && o.reap == CallDone ==> o.reapHolder == o.runner)
    && (!o.invoked ==> o.callbacks == if o.ticket == Registered then 1 else 0)
    && (o.ticket == Registered ==> !o.invoked && o.listed)
    && (o.ticket == InQueue ==> o.reap != OK && o.listed && o.invoked)
  }

  ghost predicate RunOk(o: Download, pc: Pc) {
    if pc.Transferring() then
      o.reap == OK && !o.invoked && o.signals == [] && (pc.RunSignal? ==> Final(o.status))
    else if pc.CmpNotify? || pc.CmpInvoke? then o.reap == CallInProgress && !o.invoked
    else if pc.CmpLock? || pc.CmpMark? then o.reap == CallInProgress && o.invoked
    else if pc.CmpUnlock? then o.reap == CallDone && o.invoked
    else o.reap == OK && !o.invoked && Signalled(o)
  }

  ghost predicate HoldOk(o: Download, pc: Pc) {
    if pc.CanPush? then !o.invoked
    else
      && o.reap != OK
      && (o.listed <==> !pc.RemDelete?)
      && (pc.RemErase? || pc.RemDelete? ==> Exited(o))
  }

  /** What ties thread `t`, at `pc`, to the download `o` at address `d`. */
  ghost predicate PairOk(o: Download, d: Id, t: Tid, pc: Pc) {
    && (pc.Adds(d) <==> o.adder == Some(t))
    && (pc.Runs(d) <==> o.runner == Some(t))
    && (pc.Owns(d) <==> o.ticket == Held(t))
    && (pc.CanPush? && pc.d == d <==> o.cbHolder == Some(t))
    && ((pc.CmpMark? || pc.CmpUnlock?) && pc.d == d <==> o.reapHolder == Some(t))
    && (pc.Adds(d) ==> (o.listed <==> pc.AddUnlock? || pc.AddStart?))
    && (pc.Runs(d) ==> RunOk(o, pc))
    && (pc.Owns(d) ==> HoldOk(o, pc))
    && (pc.Aims(d) ==> o.listed)
  }

  ghost predicate Pairs(s: State) {
    forall d, t :: d in s.shared.heap ==> PairOk(s.shared.heap[d], d, t, PcOf(s, t))
  }

  ghost predicate Downloads(s: State) {
    forall d :: d in s.shared.heap ==> DownloadOk(s.shared.heap[d])
  }

  /** Every pointer a thread has leads to a live download. */
  ghost predicate Pointers(s: State) {
    forall d, t :: PcOf(s, t).Names(d) ==> d in s.shared.heap
  }

  ghost predicate Locks(s: State) {
    forall t :: LockOk(s.shared, t, PcOf(s, t))
  }

  ghost predicate LockOk(s: Shared, t: Tid, pc: Pc) {
    && !pc.Crashed?
    && (pc.HoldsLock() <==> s.lock == Some(t))
    && (pc.RemWait? || pc.RemErase? ==> pc.d in s.heap && At(List(s, s.heap[pc.d].info.user), pc.i, pc.d))
  }

  predicate At(list: seq<Id>, i: nat, d: Id) {
    i < |list| && list[i] == d
  }

  ghost predicate Entry(s: Shared, user: nat, d: Id) {
    d in s.heap && s.heap[d].listed && s.heap[d].info.user == user
  }

  /** The list of a user holds exactly the user's listed downloads, each once. */
  ghost predicate ListOk(s: Shared, user: nat) {
    && (forall d :: d in List(s, user) <==> Entry(s, user, d))
    && Distinct(List(s, user))
  }

  ghost predicate Lists(s: Shared) {
    forall user :: ListOk(s, user)
  }

  ghost predicate Queue(s: Shared) {
    forall d :: multiset(s.queue)[d] == if d in s.heap && s.heap[d].ticket == InQueue then 1 else 0
  }

  ghost predicate Urls(s: Shared) {
    forall d, e :: d in s.heap && e in s.heap && Key(s.heap[d].info) == Key(s.heap[e].info) ==> d == e
  }

  ghost predicate Deleted(s: Shared) {
    forall d :: multiset(s.deleted)[d] <= if d in s.heap then 0 else 1
  }

  ghost predicate Inv(s: State) {
    Pairs(s) && Downloads(s) && Pointers(s) && Locks(s) && Lists(s.shared) && Queue(s.shared) && Urls(s.shared) && Deleted(s.shared)
  }

  // ----- one step, seen from one download -----

  lemma RunKeepsOwn(o: Download, d: Id, t: Tid, pc: Pc, oracle: Oracle)
    requires PairOk(o, d, t, pc) && DownloadOk(o) && pc.Transferring() && pc.d == d
    ensures var (o', pc') := RunStep(o, pc, oracle); PairOk(o', d, t, pc') && DownloadOk(o')
  {
  }

  lemma CloseKeepsOwn(o: Download, d: Id, t: Tid, pc: Pc)
    requires PairOk(o, d, t, pc) && DownloadOk(o) && pc.CmpClose? && pc.d == d
    ensures var (o', pc') := CompleteStep(o, t, pc); PairOk(o', d, t, pc') && DownloadOk(o')
  {
  }

  lemma CallKeepsOwn(o: Download, d: Id, t: Tid, pc: Pc)
    requires PairOk(o, d, t, pc) && DownloadOk(o) && (pc.CmpNotify? || pc.CmpLock?) && pc.d == d
    ensures var (o', pc') := CompleteStep(o, t, pc); PairOk(o', d, t, pc') && DownloadOk(o')
  {
  }

  lemma MarkKeepsOwn(o: Download, d: Id, t: Tid, pc: Pc)
    requires PairOk(o, d, t, pc) && DownloadOk(o) && (pc.CmpMark? || pc.CmpUnlock?) && pc.d == d
    ensures var (o', pc') := CompleteStep(o, t, pc); PairOk(o', d, t, pc') && DownloadOk(o')
  {
  }

  lemma CompleteKeepsOwn(o: Download, d: Id, t: Tid, pc: Pc)
    requires PairOk(o, d, t, pc) && DownloadOk(o) && pc.Completing() && !pc.CmpInvoke? && pc.d == d
    ensures var (o', pc') := CompleteStep(o, t, pc); PairOk(o', d, t, pc') && DownloadOk(o')
  {
    hide PairOk, DownloadOk, CompleteStep;
    if pc.CmpClose? {
      CloseKeepsOwn(o, d, t, pc);
    } else if pc.CmpNotify? || pc.CmpLock? {
      CallKeepsOwn(o, d, t, pc);
    } else {
      MarkKeepsOwn(o, d, t, pc);
    }
  }

  lemma RegisterKeepsOwn(o: Download, d: Id, t: Tid, pc: Pc)
    requires PairOk(o, d, t, pc) && DownloadOk(o) && pc.CanRegister? && pc.d == d && o.ticket == NoTicket
    ensures var (o', pc') := CancelStep(o, t, pc); PairOk(o', d, t, pc') && DownloadOk(o')
  {
  }

  lemma RaiseKeepsOwn(o: Download, d: Id, t: Tid, pc: Pc)
    requires PairOk(o, d, t, pc) && DownloadOk(o) && (pc.CanPush? || pc.CanFlag? || pc.RemWait?) && pc.d == d
    ensures var (o', pc') := CancelStep(o, t, pc); PairOk(o', d, t, pc') && DownloadOk(o')
  {
  }

  lemma CancelKeepsOwn(o: Download, d: Id, t: Tid, pc: Pc)
    requires PairOk(o, d, t, pc) && DownloadOk(o)
    requires (pc.CanRegister? || pc.CanPush? || pc.CanFlag? || pc.RemWait?) && pc.d == d
    requires pc.CanRegister? ==> o.ticket == NoTicket
    ensures var (o', pc') := CancelStep(o, t, pc); PairOk(o', d, t, pc') && DownloadOk(o')
  {
    hide PairOk, DownloadOk, CancelStep;
    if pc.CanRegister? { RegisterKeepsOwn(o, d, t, pc); } else { RaiseKeepsOwn(o, d, t, pc); }
  }

  lemma RunKeepsOther(o: Download, d: Id, t: Tid, pc: Pc, oracle: Oracle, u: Tid, upc: Pc)
    requires PairOk(o, d, t, pc) && DownloadOk(o) && pc.Transferring() && pc.d == d
    requires PairOk(o, d, u, upc) && u != t
    ensures PairOk(RunStep(o, pc, oracle).0, d, u, upc)
  {
  }

  lemma CompleteKeepsOther(o: Download, d: Id, t: Tid, pc: Pc, u: Tid, upc: Pc)
    requires PairOk(o, d, t, pc) && DownloadOk(o) && pc.Completing() && !pc.CmpInvoke? && pc.d == d
    requires PairOk(o, d, u, upc) && u != t
    ensures PairOk(CompleteStep(o, t, pc).0, d, u, upc)
  {
  }

  lemma RegisterKeepsOther(o: Download, d: Id, t: Tid, pc: Pc, u: Tid, upc: Pc)
    requires PairOk(o, d, t, pc) && DownloadOk(o) && pc.CanRegister? && pc.d == d && o.ticket == NoTicket
    requires PairOk(o, d, u, upc) && u != t
    ensures PairOk(CancelStep(o, t, pc).0, d, u, upc)
  {
  }

  lemma CancelKeepsOther(o: Download, d: Id, t: Tid, pc: Pc, u: Tid, upc: Pc)
    requires PairOk(o, d, t, pc) && DownloadOk(o)
    requires (pc.CanRegister? || pc.CanPush? || pc.CanFlag? || pc.RemWait?) && pc.d == d
    requires pc.CanRegister? ==> o.ticket == NoTicket
    requires PairOk(o, d, u, upc) && u != t
    ensures PairOk(CancelStep(o, t, pc).0, d, u, upc)
  {
    if pc.CanRegister? { RegisterKeepsOther(o, d, t, pc, u, upc); }
  }

  lemma StepKeepsOwn(o: Download, d: Id, t: Tid, pc: Pc, oracle: Oracle)
    requires PairOk(o, d, t, pc) && DownloadOk(o) && pc.OnDownload() && pc.d == d
    requires pc.CanRegister? ==> o.ticket == NoTicket
    ensures var (o', pc') := DownloadStep(o, t, pc, oracle); PairOk(o', d, t, pc') && DownloadOk(o')
  {
    hide PairOk, DownloadOk;
    if pc.Transferring() {
      RunKeepsOwn(o, d, t, pc, oracle);
    } else if pc.Completing() {
      CompleteKeepsOwn(o, d, t, pc);
    } else {
      CancelKeepsOwn(o, d, t, pc);
    }
  }

  lemma StepKeepsOther(o: Download, d: Id, t: Tid, pc: Pc, oracle: Oracle, u: Tid, upc: Pc)
    requires PairOk(o, d, t, pc) && DownloadOk(o) && pc.OnDownload() && pc.d == d
    requires pc.CanRegister? ==> o.ticket == NoTicket
    requires PairOk(o, d, u, upc) && u != t
    ensures PairOk(DownloadStep(o, t, pc, oracle).0, d, u, upc)
  {
    hide PairOk, DownloadOk;
    if pc.Transferring() {
      RunKeepsOther(o, d, t, pc, oracle, u, upc);
    } else if pc.Completing() {
      CompleteKeepsOther(o, d, t, pc, u, upc);
    } else {
      CancelKeepsOther(o, d, t, pc, u, upc);
    }
  }

  /** What a step on a download leaves alone. */
  ghost predicate SameStanding(o: Download, o': Download) {
    && o'.info == o.info && o'.listed == o.listed
    && (o'.ticket == InQueue <==> o.ticket == InQueue)
  }

  lemma StepKeepsStanding(o: Download, d: Id, t: Tid, pc: Pc, oracle: Oracle)
    requires PairOk(o, d, t, pc) && pc.OnDownload() && pc.d == d
    requires pc.CanRegister? ==> o.ticket == NoTicket
    ensures SameStanding(o, DownloadStep(o, t, pc, oracle).0)
  {
  }

  /** A thread that moves without taking or giving anything at another download. */
  ghost predicate SameElsewhere(pc: Pc, next: Pc, e: Id) {
    && (next.Adds(e) <==> pc.Adds(e)) && (next.Runs(e) <==> pc.Runs(e)) && (next.Owns(e) <==> pc.Owns(e))
    && !(next.CanPush? && next.d == e) && !(pc.CanPush? && pc.d == e) && (next.Aims(e) ==> pc.Aims(e))
    && !((next.CmpMark? || next.CmpUnlock?) && next.d == e) && !((pc.CmpMark? || pc.CmpUnlock?) && pc.d == e)
    && (pc.Adds(e) ==> (pc.AddUnlock? || pc.AddStart? <==> next.AddUnlock? || next.AddStart?))
    && (pc.Runs(e) ==> (pc.Returning() || pc.CmpClose?) && (next.Returning() || next.CmpClose?))
    && (pc.Owns(e) ==> (pc.CanDrop? || pc.Removing()) && (next.CanDrop? || next.Removing()) &&
                       !pc.RemErase? && !pc.RemDelete? && !next.RemErase? && !next.RemDelete?)
  }

  lemma ElsewhereKeeps(o: Download, e: Id, t: Tid, pc: Pc, next: Pc)
    requires PairOk(o, e, t, pc) && SameElsewhere(pc, next, e)
    ensures PairOk(o, e, t, next)
  {
    hide RunOk, HoldOk;
    if pc.Runs(e) { SameRun(o, pc, next); }
    if pc.Owns(e) { SameHold(o, pc, next); }
  }

  lemma SameRun(o: Download, pc: Pc, next: Pc)
    requires (pc.Returning() || pc.CmpClose?) && (next.Returning() || next.CmpClose?)
    ensures RunOk(o, pc) <==> RunOk(o, next)
  {
  }

  lemma SameHold(o: Download, pc: Pc, next: Pc)
    requires pc.CanDrop? || pc.RemLock? || pc.RemFind? || pc.RemWait?
    requires next.CanDrop? || next.RemLock? || next.RemFind? || next.RemWait?
    ensures HoldOk(o, pc) <==> HoldOk(o, next)
  {
  }

  lemma StepElsewhere(o: Download, t: Tid, pc: Pc, oracle: Oracle, e: Id)
    requires pc.OnDownload() && pc.d != e
    ensures SameElsewhere(pc, DownloadStep(o, t, pc, oracle).1, e)
  {
    hide SameElsewhere;
    if pc.Transferring() {
      RunElsewhere(o, pc, oracle, e);
    } else if pc.Completing() {
      CompleteElsewhere(o, t, pc, e);
    } else {
      CancelElsewhere(o, t, pc, e);
    }
  }

  lemma RunElsewhere(o: Download, pc: Pc, oracle: Oracle, e: Id)
    requires pc.Transferring() && pc.d != e
    ensures SameElsewhere(pc, RunStep(o, pc, oracle).1, e)
  {
  }

  lemma CompleteElsewhere(o: Download, t: Tid, pc: Pc, e: Id)
    requires pc.Completing() && !pc.CmpInvoke? && pc.d != e
    ensures SameElsewhere(pc, CompleteStep(o, t, pc).1, e)
  {
  }

  lemma CancelElsewhere(o: Download, t: Tid, pc: Pc, e: Id)
    requires (pc.CanRegister? || pc.CanPush? || pc.CanFlag? || pc.RemWait?) && pc.d != e
    ensures SameElsewhere(pc, CancelStep(o, t, pc).1, e)
  {
  }

  // ----- one step, seen from the whole state -----

  /** Thread `t` moved to `pc`, and one download may have changed. */
  ghost predicate Moved(s: State, n: State, t: Tid, pc: Pc, d: Id) {
    && (forall u :: PcOf(n, u) == if u == t then pc else PcOf(s, u))
    && d in s.shared.heap && d in n.shared.heap
    && n.shared.heap == s.shared.heap[d := n.shared.heap[d]]
  }

  lemma MovedPairs(s: State, n: State, t: Tid, pc: Pc, d: Id)
    requires Pairs(s) && Moved(s, n, t, pc, d)
    requires PairOk(n.shared.heap[d], d, t, pc)
    requires forall u :: u != t ==> PairOk(n.shared.heap[d], d, u, PcOf(s, u))
    requires forall e :: e != d ==> SameElsewhere(PcOf(s, t), pc, e)
    ensures Pairs(n)
  {
    forall e, u | e in n.shared.heap
      ensures PairOk(n.shared.heap[e], e, u, PcOf(n, u))
    {
      if e != d {
        assert PairOk(s.shared.heap[e], e, u, PcOf(s, u));
        if u == t { ElsewhereKeeps(s.shared.heap[e], e, t, PcOf(s, t), pc); }
      }
    }
  }

  lemma MovedDownloads(s: State, n: State, t: Tid, pc: Pc, d: Id)
    requires Downloads(s) && Moved(s, n, t, pc, d) && DownloadOk(n.shared.heap[d])
    ensures Downloads(n)
  {
  }

  lemma MovedPointers(s: State, n: State, t: Tid, pc: Pc, d: Id)
    requires Pointers(s) && Moved(s, n, t, pc, d)
    requires forall e :: e != d ==> SameElsewhere(PcOf(s, t), pc, e)
    ensures Pointers(n)
  {
    forall e, u | PcOf(n, u).Names(e)
      ensures e in n.shared.heap
    {
      if e != d {
        assert SameElsewhere(PcOf(s, t), pc, e);
        assert PcOf(s, u).Names(e);
      }
    }
  }

  lemma MovedUrls(s: State, n: State, t: Tid, pc: Pc, d: Id)
    requires Urls(s.shared) && Moved(s, n, t, pc, d) && n.shared.heap[d].info == s.shared.heap[d].info
    ensures Urls(n.shared)
  {
  }

  lemma MovedDeleted(s: State, n: State, t: Tid, pc: Pc, d: Id)
    requires Deleted(s.shared) && Moved(s, n, t, pc, d) && n.shared.deleted == s.shared.deleted
    ensures Deleted(n.shared)
  {
    forall e
      ensures multiset(n.shared.deleted)[e] <= if e in n.shared.heap then 0 else 1
    {
      assert multiset(s.shared.deleted)[e] <= if e in s.shared.heap then 0 else 1;
    }
  }

  lemma MovedLists(s: State, n: State, t: Tid, pc: Pc, d: Id)
    requires Lists(s.shared) && Moved(s, n, t, pc, d) && SameStanding(s.shared.heap[d], n.shared.heap[d])
    requires n.shared.transfers == s.shared.transfers
    ensures Lists(n.shared)
  {
    forall user
      ensures ListOk(n.shared, user)
    {
      assert ListOk(s.shared, user);
      assert forall e :: Entry(n.shared, user, e) <==> Entry(s.shared, user, e);
    }
  }

  lemma MovedQueue(s: State, n: State, t: Tid, pc: Pc, d: Id)
    requires Queue(s.shared) && Moved(s, n, t, pc, d) && SameStanding(s.shared.heap[d], n.shared.heap[d])
    requires n.shared.queue == s.shared.queue
    ensures Queue(n.shared)
  {
    forall e
      ensures multiset(n.shared.queue)[e] == if e in n.shared.heap && n.shared.heap[e].ticket == InQueue then 1 else 0
    {
      assert multiset(s.shared.queue)[e] == if e in s.shared.heap && s.shared.heap[e].ticket == InQueue then 1 else 0;
    }
  }

  lemma MovedLocks(s: State, n: State, t: Tid, pc: Pc, d: Id)
    requires Locks(s) && Moved(s, n, t, pc, d) && n.shared.heap[d].info == s.shared.heap[d].info
    requires n.shared.lock == s.shared.lock && n.shared.transfers == s.shared.transfers
    requires LockOk(n.shared, t, pc)
    ensures Locks(n)
  {
    forall u
      ensures LockOk(n.shared, u, PcOf(n, u))
    {
      assert LockOk(s.shared, u, PcOf(s, u));
    }
  }

  /** The invariant after a step that changed at most download `d` and left its standing. */
  lemma MovedInv(s: State, n: State, t: Tid, pc: Pc, d: Id)
    requires Inv(s) && Moved(s, n, t, pc, d) && DownloadOk(n.shared.heap[d])
    requires SameStanding(s.shared.heap[d], n.shared.heap[d])
    requires n.shared.lock == s.shared.lock && n.shared.transfers == s.shared.transfers
    requires n.shared.queue == s.shared.queue && n.shared.deleted == s.shared.deleted
    requires PairOk(n.shared.heap[d], d, t, pc)
    requires forall u :: u != t ==> PairOk(n.shared.heap[d], d, u, PcOf(s, u))
    requires forall e :: e != d ==> SameElsewhere(PcOf(s, t), pc, e)
    requires LockOk(n.shared, t, pc)
    ensures Inv(n)
  {
    hide PairOk, DownloadOk, SameElsewhere, LockOk, Pairs, Downloads, Pointers, Locks, Lists, Queue, Urls, Deleted;
    MovedPairs(s, n, t, pc, d);
    MovedDownloads(s, n, t, pc, d);
    MovedPointers(s, n, t, pc, d);
    MovedUrls(s, n, t, pc, d);
    MovedDeleted(s, n, t, pc, d);
    MovedLists(s, n, t, pc, d);
    MovedQueue(s, n, t, pc, d);
    MovedLocks(s, n, t, pc, d);
  }

  lemma StepKeepsLock(s: Shared, o': Download, t: Tid, pc: Pc, oracle: Oracle)
    requires LockOk(s, t, pc) && pc.OnDownload() && pc.d in s.heap
    requires o'.info == s.heap[pc.d].info
    ensures LockOk(s.(heap := s.heap[pc.d := o']), t, DownloadStep(s.heap[pc.d], t, pc, oracle).1)
  {
  }

  lemma OnDownloadKeepsInv(s: State, t: Tid, oracle: Oracle)
    requires Inv(s) && t in s.threads && PcOf(s, t).OnDownload() && Allowed(s, Move(t, oracle))
    ensures Inv(Apply(s, Move(t, oracle)))
  {
    hide PairOk, DownloadOk, SameElsewhere, LockOk, DownloadStep;
    var pc := s.threads[t];
    var d := pc.d;
    OnDownloadPoints(s, t, pc);
    var o := s.shared.heap[d];
    var (o', next) := DownloadStep(o, t, pc, oracle);
    var n := Apply(s, Move(t, oracle));
    StepKeepsOwn(o, d, t, pc, oracle);
    StepKeepsStanding(o, d, t, pc, oracle);
    StepKeepsLock(s.shared, o', t, pc, oracle);
    forall u | u != t
      ensures PairOk(o', d, u, PcOf(s, u))
    {
      StepKeepsOther(o, d, t, pc, oracle, u, PcOf(s, u));
    }
    forall e | e != d
      ensures SameElsewhere(pc, next, e)
    {
      StepElsewhere(o, t, pc, oracle, e);
    }
    MovedInv(s, n, t, next, d);
  }

  lemma OnDownloadPoints(s: State, t: Tid, pc: Pc)
    requires Pointers(s) && PcOf(s, t) == pc && pc.OnDownload()
    ensures pc.d in s.shared.heap
  {
    assert pc.Names(pc.d);
  }

  // ----- steps that change no download -----

  lemma LockElsewhere(pc: Pc, e: Id)
    requires pc.OnLock()
    ensures SameElsewhere(pc, LockStep(pc), e)
  {
  }

  /** Thread `t` moved to `pc` and nothing but the lock changed. */
  ghost predicate Rested(s: State, n: State, t: Tid, pc: Pc) {
    && (forall u :: PcOf(n, u) == if u == t then pc else PcOf(s, u))
    && n.shared == s.shared.(lock := n.shared.lock)
    && (forall u :: u != t ==> (n.shared.lock == Some(u) <==> s.shared.lock == Some(u)))
  }

  lemma RestedPairs(s: State, n: State, t: Tid, pc: Pc)
    requires Pairs(s) && Rested(s, n, t, pc) && forall e :: SameElsewhere(PcOf(s, t), pc, e)
    ensures Pairs(n)
  {
    forall e, u | e in n.shared.heap
      ensures PairOk(n.shared.heap[e], e, u, PcOf(n, u))
    {
      assert PairOk(s.shared.heap[e], e, u, PcOf(s, u));
      if u == t { ElsewhereKeeps(s.shared.heap[e], e, t, PcOf(s, t), pc); }
    }
  }

  lemma RestedPointers(s: State, n: State, t: Tid, pc: Pc)
    requires Pointers(s) && Rested(s, n, t, pc) && forall e :: SameElsewhere(PcOf(s, t), pc, e)
    ensures Pointers(n)
  {
    forall e, u | PcOf(n, u).Names(e)
      ensures e in n.shared.heap
    {
      assert SameElsewhere(PcOf(s, t), pc, e);
      assert PcOf(s, u).Names(e);
    }
  }

  lemma RestedLocks(s: State, n: State, t: Tid, pc: Pc)
    requires Locks(s) && Rested(s, n, t, pc) && LockOk(n.shared, t, pc)
    ensures Locks(n)
  {
    forall u
      ensures LockOk(n.shared, u, PcOf(n, u))
    {
      assert LockOk(s.shared, u, PcOf(s, u));
    }
  }

  lemma RestedRest(s: State, n: State, t: Tid, pc: Pc)
    requires Inv(s) && Rested(s, n, t, pc)
    ensures Downloads(n) && Lists(n.shared) && Queue(n.shared) && Urls(n.shared) && Deleted(n.shared)
  {
    hide DownloadOk, ListOk;
    forall user
      ensures ListOk(n.shared, user)
    {
      assert ListOk(s.shared, user);
      SameList(s.shared, n.shared, user);
    }
  }

  lemma SameList(s: Shared, n: Shared, user: nat)
    requires ListOk(s, user) && n == s.(lock := n.lock)
    ensures ListOk(n, user)
  {
    assert forall e :: Entry(n, user, e) <==> Entry(s, user, e);
  }

  lemma RestedInv(s: State, n: State, t: Tid, pc: Pc)
    requires Inv(s) && Rested(s, n, t, pc) && LockOk(n.shared, t, pc)
    requires forall e :: SameElsewhere(PcOf(s, t), pc, e)
    ensures Inv(n)
  {
    hide SameElsewhere, LockOk, Pairs, Downloads, Pointers, Locks, Lists, Queue, Urls, Deleted;
    RestedPairs(s, n, t, pc);
    RestedPointers(s, n, t, pc);
    RestedLocks(s, n, t, pc);
    RestedRest(s, n, t, pc);
  }

  lemma LockStepLocks(s: Shared, lock: Option<Tid>, t: Tid, pc: Pc)
    requires LockOk(s, t, pc) && pc.OnLock()
    requires lock == if pc.HoldsLock() then None else Some(t)
    ensures LockOk(s.(lock := lock), t, LockStep(pc))
  {
  }

  lemma OnLockKeepsInv(s: State, t: Tid, oracle: Oracle)
    requires Inv(s) && t in s.threads && PcOf(s, t).OnLock()
    ensures Inv(Apply(s, Move(t, oracle)))
  {
    hide PairOk, DownloadOk, SameElsewhere, LockStep, Lists, Queue, Urls, Deleted;
    var pc := s.threads[t];
    var n := Apply(s, Move(t, oracle));
    if pc.RemLock? { assert pc.Names(pc.d); }
    assert LockOk(s.shared, t, pc);
    if !pc.HoldsLock() && s.shared.lock.Some? {
      assert n.threads == s.threads;
    } else {
      LockStepLocks(s.shared, n.shared.lock, t, pc);
      forall e
        ensures SameElsewhere(pc, LockStep(pc), e)
      {
        LockElsewhere(pc, e);
      }
      RestedInv(s, n, t, LockStep(pc));
    }
  }

  // ----- the searches -----

  lemma ListsLead(s: Shared, user: nat)
    requires ListOk(s, user)
    ensures forall i :: 0 <= i < |List(s, user)| ==> Entry(s, user, List(s, user)[i])
  {
    forall i | 0 <= i < |List(s, user)|
      ensures Entry(s, user, List(s, user)[i])
    {
      assert List(s, user)[i] in List(s, user);
    }
  }

  /** The search of CancelDownload: what it finds is live and in the list. */
  lemma FindInList(s: Shared, req: Request)
    requires ListOk(s, req.user)
    ensures var r := Find(s.heap, List(s, req.user), req);
            !r.Dangling? && (r.Hit? ==> r.i < |List(s, req.user)| && Entry(s, req.user, List(s, req.user)[r.i]))
  {
    ListsLead(s, req.user);
    ByUuidInList(s.heap, List(s, req.user), req.uuid);
    ByUrlInList(s.heap, List(s, req.user), req.url);
  }

  /** The search of RemoveDownload finds the download itself. */
  lemma FindsItself(s: Shared, d: Id)
    requires d in s.heap && s.heap[d].listed && ListOk(s, s.heap[d].info.user) && Urls(s)
    ensures var list := List(s, s.heap[d].info.user);
            var r := ByUrl(s.heap, list, s.heap[d].info.url);
            r.Hit? && At(list, r.i, d)
  {
    var user, url := s.heap[d].info.user, s.heap[d].info.url;
    var list := List(s, user);
    ListsLead(s, user);
    ByUrlInList(s.heap, list, url);
    assert Entry(s, user, d);
    var k :| 0 <= k < |list| && list[k] == d;
    var r := ByUrl(s.heap, list, url);
    assert Entry(s, user, list[r.i]);
    assert Key(s.heap[list[r.i]].info) == Key(s.heap[d].info);
  }

  lemma CancelFindKeepsInv(s: State, t: Tid, oracle: Oracle)
    requires Inv(s) && t in s.threads && PcOf(s, t).CanFind?
    ensures Inv(Apply(s, Move(t, oracle)))
  {
    hide Inv, FindStep, LockOk, Entry, Rested, SameElsewhere;
    var pc := s.threads[t];
    var n := Apply(s, Move(t, oracle));
    var next := FindStep(s.shared, pc);
    SearchEnds(s, t, pc);
    assert n == State(s.shared, s.threads[t := next]);
    if next.CanRegister? {
      FoundInv(s, n, t, pc, next);
    } else {
      NotFoundInv(s, n, t, pc);
    }
  }

  /** The search ends at a live entry of the list, or without one. */
  lemma SearchEnds(s: State, t: Tid, pc: Pc)
    requires Inv(s) && t in s.threads && PcOf(s, t) == pc && pc.CanFind?
    ensures var next := FindStep(s.shared, pc);
            next == CanUnlock(pc.back) ||
            (next.CanRegister? && next.back == pc.back && next.d in s.shared.heap && s.shared.heap[next.d].listed)
  {
    hide DownloadOk, Pairs, Pointers, Queue, Urls, Deleted;
    assert ListOk(s.shared, pc.req.user);
    FindInList(s.shared, pc.req);
  }

  lemma NotFoundInv(s: State, n: State, t: Tid, pc: Pc)
    requires Inv(s) && t in s.threads && PcOf(s, t) == pc && pc.CanFind?
    requires n == State(s.shared, s.threads[t := CanUnlock(pc.back)])
    ensures Inv(n)
  {
    hide DownloadOk, RunOk, HoldOk, ListOk, Queue, Urls, Deleted;
    assert LockOk(s.shared, t, pc);
    RestedInv(s, n, t, CanUnlock(pc.back));
  }

  lemma FoundInv(s: State, n: State, t: Tid, pc: Pc, next: Pc)
    requires Inv(s) && t in s.threads && PcOf(s, t) == pc && pc.CanFind?
    requires next.CanRegister? && next.back == pc.back && next.d in s.shared.heap && s.shared.heap[next.d].listed
    requires n == State(s.shared, s.threads[t := next])
    ensures Inv(n)
  {
    hide DownloadOk, RunOk, HoldOk, ListOk, Queue, Urls, Deleted;
    var d := next.d;
    assert PairOk(s.shared.heap[d], d, t, pc);
    if pc.Runs(d) { SameRun(s.shared.heap[d], pc, next); }
    assert LockOk(s.shared, t, pc);
    assert s.shared.heap == s.shared.heap[d := s.shared.heap[d]];
    MovedInv(s, n, t, next, d);
  }

  lemma RemoveFindKeepsInv(s: State, t: Tid, oracle: Oracle)
    requires Inv(s) && t in s.threads && PcOf(s, t).RemFind?
    ensures Inv(Apply(s, Move(t, oracle)))
    ensures PcOf(Apply(s, Move(t, oracle)), t).RemWait?
  {
    hide PairOk, DownloadOk, ListOk, Urls, Queue, Deleted;
    var pc := s.threads[t];
    var d := pc.d;
    var n := Apply(s, Move(t, oracle));
    OwnedIsListed(s, t, d);
    assert ListOk(s.shared, s.shared.heap[d].info.user);
    FindsItself(s.shared, d);
    assert LockOk(s.shared, t, pc);
    var next := FindStep(s.shared, pc);
    assert n == State(s.shared, s.threads[t := next]);
    RestedInv(s, n, t, next);
  }

  lemma OwnedIsListed(s: State, t: Tid, d: Id)
    requires Pairs(s) && Pointers(s) && PcOf(s, t).Owns(d) && (PcOf(s, t).RemFind? || PcOf(s, t).RemWait? || PcOf(s, t).RemErase?)
    ensures d in s.shared.heap && s.shared.heap[d].listed
  {
    assert PcOf(s, t).Names(d);
    assert PairOk(s.shared.heap[d], d, t, PcOf(s, t));
  }

  // ----- steps on the lists, the work queue and the heap -----

  lemma ChangedInv(s: State, n: State, t: Tid, pc: Pc, d: Id)
    requires Inv(s) && Moved(s, n, t, pc, d) && DownloadOk(n.shared.heap[d])
    requires n.shared.heap[d].info == s.shared.heap[d].info && n.shared.deleted == s.shared.deleted
    requires PairOk(n.shared.heap[d], d, t, pc)
    requires forall u :: u != t ==> PairOk(n.shared.heap[d], d, u, PcOf(s, u))
    requires forall e :: e != d ==> SameElsewhere(PcOf(s, t), pc, e)
    requires Lists(n.shared) && Queue(n.shared) && Locks(n)
    ensures Inv(n)
  {
    hide PairOk, DownloadOk, SameElsewhere, Pairs, Downloads, Pointers, Locks, Lists, Queue, Urls, Deleted;
    MovedPairs(s, n, t, pc, d);
    MovedDownloads(s, n, t, pc, d);
    MovedPointers(s, n, t, pc, d);
    MovedUrls(s, n, t, pc, d);
    MovedDeleted(s, n, t, pc, d);
  }

  /** The holder of the mutex moves, and keeps it: no other thread has an index into a list. */
  lemma HolderKeepsLocks(s: State, n: State, t: Tid, pc: Pc)
    requires Locks(s) && PcOf(s, t).HoldsLock() && pc.HoldsLock() && !pc.RemWait? && !pc.RemErase?
    requires forall u :: PcOf(n, u) == if u == t then pc else PcOf(s, u)
    requires n.shared.lock == s.shared.lock
    ensures Locks(n)
  {
    assert LockOk(s.shared, t, PcOf(s, t));
    forall u
      ensures LockOk(n.shared, u, PcOf(n, u))
    {
      assert LockOk(s.shared, u, PcOf(s, u));
    }
  }

  lemma PushList(s: Shared, n: Shared, d: Id, user: nat)
    requires ListOk(s, user) && d in s.heap && !s.heap[d].listed
    requires n.heap == s.heap[d := s.heap[d].(listed := true)]
    requires n.transfers == s.transfers[s.heap[d].info.user := List(s, s.heap[d].info.user) + [d]]
    ensures ListOk(n, user)
  {
    var here := user == s.heap[d].info.user;
    assert List(n, user) == if here then List(s, user) + [d] else List(s, user);
    assert forall e :: Entry(n, user, e) <==> Entry(s, user, e) || (here && e == d);
    assert !Entry(s, user, d);
  }

  lemma PushLists(s: Shared, n: Shared, d: Id)
    requires Lists(s) && d in s.heap && !s.heap[d].listed
    requires n.heap == s.heap[d := s.heap[d].(listed := true)]
    requires n.transfers == s.transfers[s.heap[d].info.user := List(s, s.heap[d].info.user) + [d]]
    ensures Lists(n)
  {
    hide ListOk, List;
    forall user
      ensures ListOk(n, user)
    {
      PushList(s, n, d, user);
    }
  }

  lemma PushOwn(o: Download, d: Id, t: Tid)
    requires PairOk(o, d, t, AddPush(d)) && DownloadOk(o)
    ensures !o.listed && PairOk(o.(listed := true), d, t, AddUnlock(d)) && DownloadOk(o.(listed := true))
  {
  }

  lemma PushOther(o: Download, d: Id, t: Tid, u: Tid, upc: Pc)
    requires PairOk(o, d, t, AddPush(d)) && DownloadOk(o) && PairOk(o, d, u, upc)
    ensures PairOk(o.(listed := true), d, u, if u == t then AddUnlock(d) else upc)
  {
    hide RunOk;
    if upc.Runs(d) { SameRecord(o, o.(listed := true), upc); }
  }

  lemma PushKeepsInv(s: State, t: Tid, oracle: Oracle)
    requires Inv(s) && t in s.threads && PcOf(s, t).AddPush?
    ensures Inv(Apply(s, Move(t, oracle)))
  {
    hide PairOk, DownloadOk, Lists, Urls, Deleted, Locks, Queue;
    var pc := s.threads[t];
    var d := pc.d;
    var n := Apply(s, Move(t, oracle));
    assert pc.Names(d);
    var o := s.shared.heap[d];
    PushOwn(o, d, t);
    forall u | u != t
      ensures PairOk(o.(listed := true), d, u, PcOf(s, u))
    {
      PushOther(o, d, t, u, PcOf(s, u));
    }
    PushLists(s.shared, n.shared, d);
    SameQueue(s.shared, n.shared, d);
    HolderKeepsLocks(s, n, t, AddUnlock(d));
    ChangedInv(s, n, t, AddUnlock(d), d);
  }

  lemma SameQueue(s: Shared, n: Shared, d: Id)
    requires Queue(s) && n.queue == s.queue && d in s.heap && d in n.heap && n.heap == s.heap[d := n.heap[d]]
    requires n.heap[d].ticket == s.heap[d].ticket
    ensures Queue(n)
  {
    forall e
      ensures multiset(n.queue)[e] == if e in n.heap && n.heap[e].ticket == InQueue then 1 else 0
    {
      assert multiset(s.queue)[e] == if e in s.heap && s.heap[e].ticket == InQueue then 1 else 0;
    }
  }

  /** RunOk looks at the run's own fields only. */
  lemma SameRecord(o: Download, o': Download, pc: Pc)
    requires o'.reap == o.reap && o'.invoked == o.invoked && o'.signals == o.signals && o'.status == o.status
    ensures RunOk(o, pc) <==> RunOk(o', pc)
  {
  }

  // RemErase

  lemma EraseList(s: Shared, n: Shared, d: Id, i: nat, user: nat)
    requires ListOk(s, user) && d in s.heap && At(List(s, s.heap[d].info.user), i, d)
    requires n.heap == s.heap[d := s.heap[d].(listed := false)]
    requires n.transfers == s.transfers[s.heap[d].info.user := RemoveAt(List(s, s.heap[d].info.user), i)]
    ensures ListOk(n, user)
  {
    if user == s.heap[d].info.user {
      RemovedAt(List(s, user), i);
    }
    assert forall e :: Entry(n, user, e) <==> Entry(s, user, e) && e != d;
  }

  /** Exactly the entry at the index disappears. */
  lemma RemovedAt(list: seq<Id>, i: nat)
    requires Distinct(list) && i < |list|
    ensures Distinct(RemoveAt(list, i)) && |RemoveAt(list, i)| == |list| - 1
    ensures forall e :: e in RemoveAt(list, i) <==> e in list && e != list[i]
  {
    var r := RemoveAt(list, i);
    assert forall k :: 0 <= k < |r| ==> r[k] == list[if k < i then k else k + 1];
    forall e | e in list && e != list[i]
      ensures e in r
    {
      var k :| 0 <= k < |list| && list[k] == e;
      assert r[if k < i then k else k - 1] == e;
    }
  }

  lemma EraseOwn(o: Download, d: Id, t: Tid, i: nat, back: Back)
    requires PairOk(o, d, t, RemErase(d, i, back)) && DownloadOk(o)
    ensures PairOk(o.(listed := false), d, t, RemDelete(d, back)) && DownloadOk(o.(listed := false))
  {
  }

  lemma EraseOther(o: Download, d: Id, t: Tid, i: nat, back: Back, u: Tid, upc: Pc)
    requires PairOk(o, d, t, RemErase(d, i, back)) && DownloadOk(o) && PairOk(o, d, u, upc) && u != t
    requires !upc.HoldsLock()
    ensures PairOk(o.(listed := false), d, u, upc)
  {
    hide RunOk;
    if upc.Runs(d) { SameRecord(o, o.(listed := false), upc); }
  }

  lemma OneHolder(s: State, t: Tid, u: Tid)
    requires Locks(s) && PcOf(s, t).HoldsLock() && u != t
    ensures !PcOf(s, u).HoldsLock()
  {
    assert LockOk(s.shared, t, PcOf(s, t)) && LockOk(s.shared, u, PcOf(s, u));
  }

  lemma EraseKeepsInv(s: State, t: Tid, oracle: Oracle)
    requires Inv(s) && t in s.threads && PcOf(s, t).RemErase?
    ensures Inv(Apply(s, Move(t, oracle)))
  {
    hide PairOk, DownloadOk, ListOk, Urls, Deleted, Queue;
    var pc := s.threads[t];
    var d, next := pc.d, RemDelete(pc.d, pc.back);
    var n := Apply(s, Move(t, oracle));
    assert pc.Names(d) && LockOk(s.shared, t, pc);
    var o := s.shared.heap[d];
    EraseOwn(o, d, t, pc.i, pc.back);
    forall u | u != t
      ensures PairOk(o.(listed := false), d, u, PcOf(s, u))
    {
      OneHolder(s, t, u);
      EraseOther(o, d, t, pc.i, pc.back, u, PcOf(s, u));
    }
    forall user
      ensures ListOk(n.shared, user)
    {
      EraseList(s.shared, n.shared, d, pc.i, user);
    }
    SameQueue(s.shared, n.shared, d);
    HolderKeepsLocks(s, n, t, next);
    EraseElsewhere(pc, next);
    ChangedInv(s, n, t, next, d);
  }

  lemma EraseElsewhere(pc: Pc, next: Pc)
    requires pc.RemErase? && next == RemDelete(pc.d, pc.back)
    ensures forall e :: e != pc.d ==> SameElsewhere(pc, next, e)
  {
  }

  // RemDelete

  /** Nothing else leads to a download when it is deleted. */
  lemma LastPointer(o: Download, d: Id, t: Tid, back: Back, u: Tid, upc: Pc)
    requires PairOk(o, d, t, RemDelete(d, back)) && PairOk(o, d, u, upc) && u != t
    requires !upc.HoldsLock()
    ensures !upc.Names(d)
  {
    hide RunOk;
  }

  lemma DeleteOwn(o: Download, d: Id, t: Tid, back: Back)
    requires PairOk(o, d, t, RemDelete(d, back))
    ensures !o.listed && o.ticket == Held(t) && back != ToRun(d) && Exited(o)
  {
  }

  lemma DeletePairs(s: State, n: State, t: Tid, d: Id, back: Back)
    requires Pairs(s) && PcOf(s, t) == RemDelete(d, back)
    requires forall u :: PcOf(n, u) == if u == t then RemUnlock(back) else PcOf(s, u)
    requires n.shared.heap == s.shared.heap - {d}
    ensures Pairs(n)
  {
    hide PairOk;
    forall e, u | e in n.shared.heap
      ensures PairOk(n.shared.heap[e], e, u, PcOf(n, u))
    {
      assert PairOk(s.shared.heap[e], e, u, PcOf(s, u));
      if u == t {
        DeleteElsewhere(d, back, e);
        ElsewhereKeeps(s.shared.heap[e], e, t, RemDelete(d, back), RemUnlock(back));
      }
    }
  }

  lemma DeleteElsewhere(d: Id, back: Back, e: Id)
    requires e != d
    ensures SameElsewhere(RemDelete(d, back), RemUnlock(back), e)
  {
  }

  lemma DeletePointers(s: State, n: State, t: Tid, d: Id, back: Back)
    requires Pairs(s) && Pointers(s) && Locks(s) && PcOf(s, t) == RemDelete(d, back)
    requires forall u :: PcOf(n, u) == if u == t then RemUnlock(back) else PcOf(s, u)
    requires n.shared.heap == s.shared.heap - {d}
    ensures Pointers(n)
  {
    hide PairOk, Locks;
    assert PcOf(s, t).Names(d);
    DeleteOwn(s.shared.heap[d], d, t, back);
    forall e, u | PcOf(n, u).Names(e)
      ensures e in n.shared.heap
    {
      assert PcOf(s, u).Names(e);
      if u != t {
        OneHolder(s, t, u);
        LastPointer(s.shared.heap[d], d, t, back, u, PcOf(s, u));
      }
    }
  }

  lemma DeleteLocks(s: State, n: State, t: Tid, d: Id, back: Back)
    requires Locks(s) && PcOf(s, t) == RemDelete(d, back)
    requires forall u :: PcOf(n, u) == if u == t then RemUnlock(back) else PcOf(s, u)
    requires n.shared.lock == s.shared.lock
    ensures Locks(n)
  {
    HolderKeepsLocks(s, n, t, RemUnlock(back));
  }

  lemma DeleteRest(s: State, n: State, d: Id)
    requires Downloads(s) && Lists(s.shared) && Queue(s.shared) && Urls(s.shared) && Deleted(s.shared)
    requires d in s.shared.heap && !s.shared.heap[d].listed && s.shared.heap[d].ticket.Held?
    requires n.shared == s.shared.(heap := s.shared.heap - {d}, deleted := s.shared.deleted + [d])
    ensures Downloads(n) && Lists(n.shared) && Queue(n.shared) && Urls(n.shared) && Deleted(n.shared)
  {
    hide DownloadOk;
    forall user
      ensures ListOk(n.shared, user)
    {
      assert ListOk(s.shared, user);
      assert forall e :: Entry(n.shared, user, e) <==> Entry(s.shared, user, e);
    }
    forall e
      ensures multiset(n.shared.queue)[e] == if e in n.shared.heap && n.shared.heap[e].ticket == InQueue then 1 else 0
      ensures multiset(n.shared.deleted)[e] <= if e in n.shared.heap then 0 else 1
    {
      assert multiset(s.shared.queue)[e] == if e in s.shared.heap && s.shared.heap[e].ticket == InQueue then 1 else 0;
      assert multiset(s.shared.deleted)[e] <= if e in s.shared.heap then 0 else 1;
    }
  }

  lemma DeleteKeepsInv(s: State, t: Tid, oracle: Oracle)
    requires Inv(s) && t in s.threads && PcOf(s, t).RemDelete?
    ensures Inv(Apply(s, Move(t, oracle)))
  {
    hide PairOk, DownloadOk, Locks, Lists, Urls, Deleted, Queue;
    var pc := s.threads[t];
    var d, back := pc.d, pc.back;
    var n := Apply(s, Move(t, oracle));
    assert pc.Names(d);
    DeleteOwn(s.shared.heap[d], d, t, back);
    DeletePairs(s, n, t, d, back);
    DeletePointers(s, n, t, d, back);
    DeleteLocks(s, n, t, d, back);
    DeleteRest(s, n, d);
  }

  // CmpInvoke

  /** InvokeCallbacks, on the download. */
  function Invoked(o: Download): Download {
    o.(invoked := true, ticket := if o.ticket == Registered then InQueue else o.ticket)
  }

  lemma InvokeOwn(o: Download, d: Id, t: Tid)
    requires PairOk(o, d, t, CmpInvoke(d)) && DownloadOk(o)
    ensures PairOk(Invoked(o), d, t, CmpLock(d)) && DownloadOk(Invoked(o))
    ensures o.ticket != InQueue && o.callbacks == if o.ticket == Registered then 1 else 0
  {
  }

  lemma InvokeOther(o: Download, d: Id, t: Tid, u: Tid, upc: Pc)
    requires PairOk(o, d, t, CmpInvoke(d)) && DownloadOk(o) && o.cbHolder.None? && PairOk(o, d, u, upc) && u != t
    ensures PairOk(Invoked(o), d, u, upc)
  {
  }

  lemma InvokeQueue(s: Shared, n: Shared, d: Id)
    requires Queue(s) && d in s.heap && n.heap == s.heap[d := Invoked(s.heap[d])]
    requires s.heap[d].ticket != InQueue && s.heap[d].callbacks == if s.heap[d].ticket == Registered then 1 else 0
    requires n.queue == s.queue + Repeat(d, s.heap[d].callbacks)
    ensures Queue(n)
  {
    forall e
      ensures multiset(n.queue)[e] == if e in n.heap && n.heap[e].ticket == InQueue then 1 else 0
    {
      assert multiset(s.queue)[e] == if e in s.heap && s.heap[e].ticket == InQueue then 1 else 0;
      if s.heap[d].ticket == Registered { assert Repeat(d, 1) == [d]; } else { assert Repeat(d, 0) == []; }
    }
  }

  /** A step that does not move the list entries. */
  lemma SameLists(s: Shared, n: Shared, d: Id)
    requires Lists(s) && d in s.heap && d in n.heap && n.heap == s.heap[d := n.heap[d]] && n.transfers == s.transfers
    requires n.heap[d].info == s.heap[d].info && n.heap[d].listed == s.heap[d].listed
    ensures Lists(n)
  {
    forall user
      ensures ListOk(n, user)
    {
      assert ListOk(s, user);
      assert forall e :: Entry(n, user, e) <==> Entry(s, user, e);
    }
  }

  lemma StayKeepsInv(s: State, t: Tid, oracle: Oracle)
    requires Inv(s) && t in s.threads && LocalStep(s.shared, t, s.threads[t], oracle) == (s.shared, s.threads[t])
    ensures Inv(Apply(s, Move(t, oracle)))
  {
    hide Inv, LocalStep;
    assert s.threads[t := s.threads[t]] == s.threads;
  }

  lemma InvokePairs(s: State, t: Tid, d: Id)
    requires Pairs(s) && Downloads(s) && PcOf(s, t) == CmpInvoke(d) && d in s.shared.heap && s.shared.heap[d].cbHolder.None?
    ensures var o := s.shared.heap[d];
            && PairOk(Invoked(o), d, t, CmpLock(d)) && DownloadOk(Invoked(o))
            && o.ticket != InQueue && o.callbacks == (if o.ticket == Registered then 1 else 0)
            && forall u :: u != t ==> PairOk(Invoked(o), d, u, PcOf(s, u))
  {
    hide PairOk, DownloadOk, Invoked;
    var o := s.shared.heap[d];
    assert PairOk(o, d, t, PcOf(s, t)) && DownloadOk(o);
    InvokeOwn(o, d, t);
    forall u | u != t
      ensures PairOk(Invoked(o), d, u, PcOf(s, u))
    {
      InvokeOther(o, d, t, u, PcOf(s, u));
    }
  }

  lemma InvokeLock(s: State, t: Tid, d: Id)
    requires Locks(s) && PcOf(s, t) == CmpInvoke(d)
    ensures s.shared.lock != Some(t)
  {
    assert LockOk(s.shared, t, CmpInvoke(d));
  }

  lemma InvokeKeepsInv(s: State, t: Tid, oracle: Oracle)
    requires Inv(s) && t in s.threads && PcOf(s, t).CmpInvoke?
    ensures Inv(Apply(s, Move(t, oracle)))
  {
    hide Apply, LocalStep, Pairs, Downloads, Pointers, Locks, PairOk, DownloadOk, Urls, Deleted, Queue, Lists, Invoked, SameElsewhere;
    var d := s.threads[t].d;
    var n := Apply(s, Move(t, oracle));
    NamesLive(s, t, d);
    InvokedHeap(s, t, oracle);
    if s.shared.heap[d].cbHolder.Some? {
      StayKeepsInv(s, t, oracle);
    } else {
      InvokePairs(s, t, d);
      InvokeLock(s, t, d);
      InvokeQueue(s.shared, n.shared, d);
      SameLists(s.shared, n.shared, d);
      MovedLocks(s, n, t, CmpLock(d), d);
      InvokeElsewhere(d);
      ChangedInv(s, n, t, CmpLock(d), d);
    }
  }

  lemma NamesLive(s: State, t: Tid, d: Id)
    requires Pointers(s) && PcOf(s, t).Names(d)
    ensures d in s.shared.heap
  {
  }

  lemma InvokedHeap(s: State, t: Tid, oracle: Oracle)
    requires t in s.threads && s.threads[t].CmpInvoke? && s.threads[t].d in s.shared.heap
    ensures var d := s.threads[t].d;
            var o, n := s.shared.heap[d], Apply(s, Move(t, oracle));
            if o.cbHolder.Some? then LocalStep(s.shared, t, s.threads[t], oracle) == (s.shared, s.threads[t])
            else
              && n.threads == s.threads[t := CmpLock(d)]
              && n.shared == s.shared.(heap := s.shared.heap[d := Invoked(o)], queue := s.shared.queue + Repeat(d, o.callbacks))
              && Invoked(o).info == o.info && Invoked(o).listed == o.listed
  {
    hide Repeat;
  }

  lemma InvokeElsewhere(d: Id)
    ensures forall e :: e != d ==> SameElsewhere(CmpInvoke(d), CmpLock(d), e)
  {
  }

  // WorkerIdle

  lemma WorkOwn(o: Download, d: Id, t: Tid)
    requires PairOk(o, d, t, WorkerIdle) && DownloadOk(o) && o.ticket == InQueue
    ensures PairOk(o.(ticket := Held(t)), d, t, RemLock(d, ToWorker)) && DownloadOk(o.(ticket := Held(t)))
  {
  }

  lemma WorkOther(o: Download, d: Id, t: Tid, u: Tid, upc: Pc)
    requires o.ticket == InQueue && PairOk(o, d, u, upc) && u != t
    ensures PairOk(o.(ticket := Held(t)), d, u, upc)
  {
    hide RunOk;
    if upc.Runs(d) { SameRecord(o, o.(ticket := Held(t)), upc); }
  }

  lemma WorkQueue(s: Shared, n: Shared, t: Tid)
    requires Queue(s) && s.queue != [] && n.queue == s.queue[1..] && s.queue[0] in s.heap
    requires n.heap == s.heap[s.queue[0] := s.heap[s.queue[0]].(ticket := Held(t))]
    ensures Queue(n)
  {
    assert s.queue == [s.queue[0]] + s.queue[1..];
    forall e
      ensures multiset(n.queue)[e] == if e in n.heap && n.heap[e].ticket == InQueue then 1 else 0
    {
      assert multiset(s.queue)[e] == if e in s.heap && s.heap[e].ticket == InQueue then 1 else 0;
    }
  }

  lemma QueuedIsLive(s: Shared)
    requires Queue(s) && s.queue != []
    ensures s.queue[0] in s.heap && s.heap[s.queue[0]].ticket == InQueue
  {
    assert s.queue[0] in s.queue;
    assert multiset(s.queue)[s.queue[0]] > 0;
  }

  lemma WorkElsewhere(d: Id)
    ensures forall e :: e != d ==> SameElsewhere(WorkerIdle, RemLock(d, ToWorker), e)
  {
  }

  lemma WorkPairs(s: State, t: Tid, d: Id)
    requires Pairs(s) && Downloads(s) && PcOf(s, t) == WorkerIdle && d in s.shared.heap && s.shared.heap[d].ticket == InQueue
    ensures var o := s.shared.heap[d].(ticket := Held(t));
            PairOk(o, d, t, RemLock(d, ToWorker)) && DownloadOk(o) && forall u :: u != t ==> PairOk(o, d, u, PcOf(s, u))
  {
    hide PairOk, DownloadOk;
    var o := s.shared.heap[d];
    assert PairOk(o, d, t, WorkerIdle) && DownloadOk(o);
    WorkOwn(o, d, t);
    forall u | u != t
      ensures PairOk(o.(ticket := Held(t)), d, u, PcOf(s, u))
    {
      WorkOther(o, d, t, u, PcOf(s, u));
    }
  }

  lemma WorkLock(s: State, t: Tid)
    requires Locks(s) && PcOf(s, t) == WorkerIdle
    ensures s.shared.lock != Some(t)
  {
    assert LockOk(s.shared, t, WorkerIdle);
  }

  lemma WorkedHeap(s: State, t: Tid, oracle: Oracle)
    requires t in s.threads && s.threads[t].WorkerIdle?
    ensures var n, queue := Apply(s, Move(t, oracle)), s.shared.queue;
            if queue == [] then LocalStep(s.shared, t, s.threads[t], oracle) == (s.shared, s.threads[t])
            else
              queue[0] in s.shared.heap ==>
                var d := queue[0];
                && n.threads == s.threads[t := RemLock(d, ToWorker)]
                && n.shared == s.shared.(heap := s.shared.heap[d := s.shared.heap[d].(ticket := Held(t))], queue := queue[1..])
  {
  }

  lemma WorkKeepsInv(s: State, t: Tid, oracle: Oracle)
    requires Inv(s) && t in s.threads && PcOf(s, t).WorkerIdle?
    ensures Inv(Apply(s, Move(t, oracle)))
  {
    hide Apply, LocalStep, Pairs, Downloads, Pointers, Locks, PairOk, DownloadOk, Urls, Deleted, Queue, Lists, SameElsewhere;
    var n := Apply(s, Move(t, oracle));
    WorkedHeap(s, t, oracle);
    if s.shared.queue == [] {
      StayKeepsInv(s, t, oracle);
    } else {
      QueuedIsLive(s.shared);
      var d := s.shared.queue[0];
      WorkPairs(s, t, d);
      WorkLock(s, t);
      WorkQueue(s.shared, n.shared, t);
      SameLists(s.shared, n.shared, d);
      MovedLocks(s, n, t, RemLock(d, ToWorker), d);
      WorkElsewhere(d);
      ChangedInv(s, n, t, RemLock(d, ToWorker), d);
    }
  }

  // StartDownload

  function Started(o: Download, t: Tid, r: Tid): Download {
    o.(status := Queued, adder := None, runner := Some(r), starter := Some(t))
  }

  lemma StartOwn(o: Download, d: Id, t: Tid, r: Tid)
    requires PairOk(o, d, t, AddStart(d)) && DownloadOk(o) && PairOk(o, d, r, Finished)
    ensures DownloadOk(Started(o, t, r)) && PairOk(Started(o, t, r), d, t, AddStore(d)) && PairOk(Started(o, t, r), d, r, RunCheck(d))
  {
  }

  lemma StartOther(o: Download, d: Id, t: Tid, r: Tid, u: Tid, upc: Pc)
    requires PairOk(o, d, t, AddStart(d)) && DownloadOk(o) && PairOk(o, d, u, upc) && u != t && u != r
    ensures PairOk(Started(o, t, r), d, u, upc)
  {
  }

  /** Thread `t` started `d` with the new thread `r`. */
  ghost predicate Starts(s: State, n: State, t: Tid, r: Tid, d: Id) {
    && t != r && PcOf(s, t) == AddStart(d) && PcOf(s, r) == Finished && d in s.shared.heap
    && (forall u :: PcOf(n, u) == if u == r then RunCheck(d) else if u == t then AddStore(d) else PcOf(s, u))
    && n.shared == s.shared.(heap := s.shared.heap[d := Started(s.shared.heap[d], t, r)])
  }

  lemma StartElsewhere(d: Id, e: Id)
    requires e != d
    ensures SameElsewhere(AddStart(d), AddStore(d), e) && SameElsewhere(Finished, RunCheck(d), e)
  {
  }

  lemma StartPairs(s: State, n: State, t: Tid, r: Tid, d: Id)
    requires Pairs(s) && Starts(s, n, t, r, d) && DownloadOk(s.shared.heap[d])
    ensures Pairs(n) && DownloadOk(n.shared.heap[d])
  {
    hide PairOk, DownloadOk, Started;
    var o := s.shared.heap[d];
    StartOwn(o, d, t, r);
    forall e, u | e in n.shared.heap
      ensures PairOk(n.shared.heap[e], e, u, PcOf(n, u))
    {
      assert PairOk(s.shared.heap[e], e, u, PcOf(s, u));
      if e != d {
        StartElsewhere(d, e);
        if u == t || u == r { ElsewhereKeeps(s.shared.heap[e], e, u, PcOf(s, u), PcOf(n, u)); }
      } else if u != t && u != r {
        StartOther(o, d, t, r, u, PcOf(s, u));
      }
    }
  }

  lemma StartPointers(s: State, n: State, t: Tid, r: Tid, d: Id)
    requires Pointers(s) && Starts(s, n, t, r, d)
    ensures Pointers(n)
  {
    forall e, u | PcOf(n, u).Names(e)
      ensures e in n.shared.heap
    {
      if e != d { assert PcOf(s, u).Names(e); }
    }
  }

  lemma StartLocks(s: State, n: State, t: Tid, r: Tid, d: Id)
    requires Locks(s) && Starts(s, n, t, r, d)
    ensures Locks(n)
  {
    forall u
      ensures LockOk(n.shared, u, PcOf(n, u))
    {
      assert LockOk(s.shared, u, PcOf(s, u));
    }
  }

  lemma StartRest(s: State, n: State, t: Tid, r: Tid, d: Id)
    requires Inv(s) && Starts(s, n, t, r, d) && DownloadOk(n.shared.heap[d])
    ensures Downloads(n) && Lists(n.shared) && Queue(n.shared) && Urls(n.shared) && Deleted(n.shared)
  {
    hide DownloadOk, Pairs, Pointers, Locks, Lists, Queue, Deleted, Urls;
    SameLists(s.shared, n.shared, d);
    SameUrls(s.shared, n.shared, d);
    SameQueue(s.shared, n.shared, d);
    SameDeleted(s.shared, n.shared, d);
  }

  lemma SameDeleted(s: Shared, n: Shared, d: Id)
    requires Deleted(s) && d in s.heap && d in n.heap && n.heap == s.heap[d := n.heap[d]] && n.deleted == s.deleted
    ensures Deleted(n)
  {
    forall e
      ensures multiset(n.deleted)[e] <= if e in n.heap then 0 else 1
    {
      assert multiset(s.deleted)[e] <= if e in s.heap then 0 else 1;
    }
  }

  lemma SameUrls(s: Shared, n: Shared, d: Id)
    requires Urls(s) && d in s.heap && d in n.heap && n.heap == s.heap[d := n.heap[d]] && n.heap[d].info == s.heap[d].info
    ensures Urls(n)
  {
  }

  lemma StartKeepsInv(s: State, t: Tid, r: Tid)
    requires Inv(s)
    ensures Inv(StartStep(s, t, r))
  {
    hide Pairs, Downloads, Locks, Lists, Queue, Urls, Deleted, DownloadOk;
    if PcOf(s, t).AddStart? && r !in s.threads {
      var d := PcOf(s, t).d;
      var n := StartStep(s, t, r);
      assert PcOf(s, t).Names(d);
      LiveIsOk(s, d);
      assert Starts(s, n, t, r, d);
      StartPairs(s, n, t, r, d);
      StartPointers(s, n, t, r, d);
      StartLocks(s, n, t, r, d);
      StartRest(s, n, t, r, d);
    }
  }

  lemma LiveIsOk(s: State, d: Id)
    requires Downloads(s) && d in s.shared.heap
    ensures DownloadOk(s.shared.heap[d])
  {
  }

  // the store of the run thread

  lemma StoreKeepsPair(o: Download, d: Id, t: Tid, pc: Pc)
    requires PairOk(o, d, t, pc)
    ensures PairOk(o.(starter := None), d, t, pc)
  {
    hide RunOk, HoldOk;
    if pc.Runs(d) { SameRecord(o, o.(starter := None), pc); }
    if pc.Owns(d) { StoreKeepsHold(o, pc); }
  }

  lemma StoreKeepsHold(o: Download, pc: Pc)
    ensures HoldOk(o, pc) <==> HoldOk(o.(starter := None), pc)
  {
  }

  lemma StoreKeepsDownload(o: Download, d: Id, t: Tid)
    requires DownloadOk(o) && PairOk(o, d, t, AddStore(d))
    ensures DownloadOk(o.(starter := None)) && PairOk(o, d, t, Finished)
    ensures SameStanding(o, o.(starter := None))
  {
  }

  lemma StoreElsewhere(d: Id, e: Id)
    ensures SameElsewhere(AddStore(d), Finished, e) && SameElsewhere(AddStore(d), CrashedInStore, e)
  {
  }

  lemma StoreLock(s: Shared, n: Shared, t: Tid, d: Id)
    requires LockOk(s, t, AddStore(d)) && n.lock == s.lock
    ensures LockOk(n, t, Finished) && LockOk(n, t, CrashedInStore)
  {
  }

  lemma StoredHeap(s: State, t: Tid, oracle: Oracle)
    requires t in s.threads && s.threads[t].AddStore?
    ensures var d, n := s.threads[t].d, Apply(s, Move(t, oracle));
            if d in s.shared.heap then
              n == State(s.shared.(heap := s.shared.heap[d := s.shared.heap[d].(starter := None)]), s.threads[t := Finished])
            else n == State(s.shared, s.threads[t := CrashedInStore])
  {
  }

  lemma StoreKeepsInv(s: State, t: Tid, oracle: Oracle)
    requires Inv(s) && t in s.threads && PcOf(s, t).AddStore?
    ensures Inv(Apply(s, Move(t, oracle)))
  {
    hide PairOk, DownloadOk, SameElsewhere, SameStanding, LockOk, Apply, Lists, Queue, Urls, Deleted;
    var d := s.threads[t].d;
    var n := Apply(s, Move(t, oracle));
    StoredHeap(s, t, oracle);
    StoreLock(s.shared, n.shared, t, d);
    forall e
      ensures SameElsewhere(AddStore(d), Finished, e) && SameElsewhere(AddStore(d), CrashedInStore, e)
    {
      StoreElsewhere(d, e);
    }
    if d in s.shared.heap {
      var o := s.shared.heap[d];
      StoreKeepsDownload(o, d, t);
      StoreKeepsPair(o, d, t, Finished);
      forall u | u != t
        ensures PairOk(o.(starter := None), d, u, PcOf(s, u))
      {
        StoreKeepsPair(o, d, u, PcOf(s, u));
      }
      MovedInv(s, n, t, Finished, d);
    } else {
      RestedInv(s, n, t, CrashedInStore);
    }
  }

  // new threads

  lemma SpawnKeepsInv(s: State, t: Tid, pc: Pc)
    requires Inv(s) && t !in s.threads && (pc.WorkerIdle? || (pc.CanLock? && pc.back == ToCaller))
    ensures Inv(s.(threads := s.threads[t := pc]))
  {
    hide Pairs, Downloads, Pointers, Lists, Queue, Urls, Deleted;
    assert LockOk(s.shared, t, PcOf(s, t));
    RestedInv(s, s.(threads := s.threads[t := pc]), t, pc);
  }

  lemma NewPair(info: Info, d: Id, t: Tid, u: Tid, upc: Pc)
    requires !upc.Names(d) || (u == t && upc == AddLock(d))
    requires u == t ==> upc == AddLock(d)
    ensures PairOk(New(info, t), d, u, upc)
  {
  }

  lemma AddPairs(s: State, n: State, t: Tid, d: Id, info: Info)
    requires Pairs(s) && Pointers(s) && Adds(s, n, t, d, info)
    ensures Pairs(n) && Pointers(n)
  {
    hide PairOk;
    forall e, u | e in n.shared.heap
      ensures PairOk(n.shared.heap[e], e, u, PcOf(n, u))
    {
      if e == d {
        assert u != t ==> !PcOf(s, u).Names(d);
        NewPair(info, d, t, u, PcOf(n, u));
      } else {
        assert PairOk(s.shared.heap[e], e, u, PcOf(s, u));
        if u == t {
          AddElsewhere(d, e);
          ElsewhereKeeps(s.shared.heap[e], e, t, Finished, AddLock(d));
        }
      }
    }
    forall e, u | PcOf(n, u).Names(e)
      ensures e in n.shared.heap
    {
      if e != d { assert PcOf(s, u).Names(e); }
    }
  }

  lemma AddElsewhere(d: Id, e: Id)
    requires e != d
    ensures SameElsewhere(Finished, AddLock(d), e)
  {
  }

  ghost predicate Adds(s: State, n: State, t: Tid, d: Id, info: Info) {
    && t !in s.threads && d !in s.shared.heap && d !in s.shared.deleted
    && (forall u :: PcOf(n, u) == if u == t then AddLock(d) else PcOf(s, u))
    && n.shared == s.shared.(heap := s.shared.heap[d := New(info, t)])
  }

  lemma AddRest(s: State, n: State, t: Tid, d: Id, info: Info)
    requires Inv(s) && Adds(s, n, t, d, info)
    requires forall e :: e in s.shared.heap ==> Key(s.shared.heap[e].info) != Key(info)
    ensures Downloads(n) && Urls(n.shared) && Lists(n.shared)
  {
    hide Pairs, Pointers, Locks, Queue, Deleted;
    forall user
      ensures ListOk(n.shared, user)
    {
      assert ListOk(s.shared, user);
      assert forall e :: Entry(n.shared, user, e) <==> Entry(s.shared, user, e);
    }
  }

  lemma AddCounts(s: State, n: State, t: Tid, d: Id, info: Info)
    requires Queue(s.shared) && Deleted(s.shared) && Adds(s, n, t, d, info)
    ensures Queue(n.shared) && Deleted(n.shared)
  {
    forall e
      ensures multiset(n.shared.queue)[e] == if e in n.shared.heap && n.shared.heap[e].ticket == InQueue then 1 else 0
      ensures multiset(n.shared.deleted)[e] <= if e in n.shared.heap then 0 else 1
    {
      assert multiset(s.shared.queue)[e] == if e in s.shared.heap && s.shared.heap[e].ticket == InQueue then 1 else 0;
      assert multiset(s.shared.deleted)[e] <= if e in s.shared.heap then 0 else 1;
    }
  }

  lemma AddLocks(s: State, n: State, t: Tid, d: Id, info: Info)
    requires Locks(s) && Adds(s, n, t, d, info)
    ensures Locks(n)
  {
    assert LockOk(s.shared, t, PcOf(s, t));
    forall u
      ensures LockOk(n.shared, u, PcOf(n, u))
    {
      assert LockOk(s.shared, u, PcOf(s, u));
    }
  }

  lemma AddKeepsInv(s: State, t: Tid, d: Id, info: Info)
    requires Inv(s) && Allowed(s, Add(t, d, info))
    ensures Inv(Apply(s, Add(t, d, info)))
  {
    hide Pairs, Pointers, Downloads, Lists, Urls, Queue, Deleted, Locks;
    var n := Apply(s, Add(t, d, info));
    if t !in s.threads && d !in s.shared.heap && d !in s.shared.deleted {
      AddPairs(s, n, t, d, info);
      AddRest(s, n, t, d, info);
      AddCounts(s, n, t, d, info);
      AddLocks(s, n, t, d, info);
    }
  }

  // ----- every run -----

  lemma EndedKeepsInv(s: State, t: Tid, oracle: Oracle)
    requires Inv(s) && t in s.threads && (s.threads[t].Finished? || s.threads[t].Crashed? || s.threads[t].CrashedInStore?)
    ensures Inv(Apply(s, Move(t, oracle)))
  {
    hide Inv;
    StayKeepsInv(s, t, oracle);
  }

  lemma MoveKeepsInv(s: State, t: Tid, oracle: Oracle)
    requires Inv(s) && Allowed(s, Move(t, oracle)) && t in s.threads
    ensures Inv(Apply(s, Move(t, oracle)))
  {
    hide Inv, Apply, Allowed;
    var pc := s.threads[t];
    if pc.OnDownload() {
      OnDownloadKeepsInv(s, t, oracle);
    } else if pc.OnLock() {
      OnLockKeepsInv(s, t, oracle);
    } else if pc.CanFind? {
      CancelFindKeepsInv(s, t, oracle);
    } else if pc.RemFind? {
      RemoveFindKeepsInv(s, t, oracle);
    } else if pc.AddPush? {
      PushKeepsInv(s, t, oracle);
    } else if pc.RemErase? {
      EraseKeepsInv(s, t, oracle);
    } else if pc.RemDelete? {
      DeleteKeepsInv(s, t, oracle);
    } else if pc.CmpInvoke? {
      InvokeKeepsInv(s, t, oracle);
    } else if pc.WorkerIdle? {
      WorkKeepsInv(s, t, oracle);
    } else if pc.AddStart? {
      StayKeepsInv(s, t, oracle);
    } else if pc.AddStore? {
      StoreKeepsInv(s, t, oracle);
    } else {
      EndedKeepsInv(s, t, oracle);
    }
  }

  lemma ApplyInv(s: State, a: Action)
    requires Inv(s) && Allowed(s, a)
    ensures Inv(Apply(s, a))
  {
    hide Inv, Allowed;
    if a.Add? {
      AddKeepsInv(s, a.t, a.d, a.info);
    } else if a.Cancel? {
      if a.t !in s.threads { SpawnKeepsInv(s, a.t, CanLock(a.req, ToCaller)); }
    } else if a.Work? {
      if a.t !in s.threads { SpawnKeepsInv(s, a.t, WorkerIdle); }
    } else if a.Start? {
      StartKeepsInv(s, a.t, a.r);
    } else if a.t in s.threads {
      MoveKeepsInv(s, a.t, a.oracle);
    }
  }

  lemma {:induction false} ExecInv(s: State, actions: seq<Action>)
    requires Inv(s) && AllAllowed(s, actions)
    ensures Inv(Exec(s, actions))
    decreases actions
  {
    hide Inv, Apply, Allowed;
    if actions != [] {
      ApplyInv(s, actions[0]);
      ExecInv(Apply(s, actions[0]), actions[1..]);
    }
  }

  lemma ReachableInv(s: State)
    requires Reachable(s)
    ensures Inv(s)
  {
    var actions :| AllAllowed(INIT, actions) && s == Exec(INIT, actions);
    InitInv();
    ExecInv(INIT, actions);
  }

  lemma InitInv()
    ensures Inv(INIT)
  {
  }

  // ----- main results -----

  /** Who a download's history names. */
  lemma Owners(s: State, d: Id)
    requires Pairs(s) && d in s.shared.heap
    ensures var o := s.shared.heap[d];
            && (o.adder.Some? ==> PcOf(s, o.adder.value).Adds(d))
            && (o.runner.Some? ==> PcOf(s, o.runner.value).Runs(d))
            && (o.ticket.Held? ==> PcOf(s, o.ticket.holder).Owns(d))
            && (o.cbHolder.Some? ==> PcOf(s, o.cbHolder.value).CanPush?)
  {
    var o := s.shared.heap[d];
    if o.adder.Some? { assert PairOk(o, d, o.adder.value, PcOf(s, o.adder.value)); }
    if o.runner.Some? { assert PairOk(o, d, o.runner.value, PcOf(s, o.runner.value)); }
    if o.ticket.Held? { assert PairOk(o, d, o.ticket.holder, PcOf(s, o.ticket.holder)); }
    if o.cbHolder.Some? { assert PairOk(o, d, o.cbHolder.value, PcOf(s, o.cbHolder.value)); }
  }

  lemma Holders(s: State, t: Tid, u: Tid)
    requires Locks(s) && PcOf(s, t).HoldsLock() && PcOf(s, u).HoldsLock()
    ensures t == u
  {
    assert LockOk(s.shared, t, PcOf(s, t)) && LockOk(s.shared, u, PcOf(s, u));
  }

  /** While the registry mutex is held for a removal, no thread is registering a callback. */
  lemma NoneRegisters(s: State, t: Tid, d: Id)
    requires Pairs(s) && Locks(s) && d in s.shared.heap && PcOf(s, t).HoldsLock() && !PcOf(s, t).CanPush?
    ensures s.shared.heap[d].cbHolder.None?
  {
    Owners(s, d);
    forall u | PcOf(s, u).HoldsLock()
      ensures u == t
    {
      Holders(s, t, u);
    }
  }

  lemma InQueueIff(s: Shared, d: Id)
    requires Queue(s)
    ensures d in s.queue <==> d in s.heap && s.heap[d].ticket == InQueue
  {
    assert multiset(s.queue)[d] == if d in s.heap && s.heap[d].ticket == InQueue then 1 else 0;
    assert d in s.queue <==> multiset(s.queue)[d] > 0;
  }

  /** No thread ever follows a pointer to a deleted download, unless it is about to store a run thread. */
  lemma OnlyStoresCrash(s: State, t: Tid)
    requires Reachable(s)
    ensures !PcOf(s, t).Crashed?
    ensures forall d :: PcOf(s, t).Names(d) ==> d in s.shared.heap
  {
    hide Pairs, Downloads, Lists, Queue, Urls, Deleted, AllAllowed, Exec;
    ReachableInv(s);
    assert LockOk(s.shared, t, PcOf(s, t));
  }

  /** No download is deleted twice, and a deleted one is in no list and not in the work queue. */
  lemma DeletedOnce(s: State, d: Id)
    requires Reachable(s) && d in s.shared.deleted
    ensures multiset(s.shared.deleted)[d] == 1 && d !in s.shared.heap && d !in s.shared.queue
    ensures forall user :: d !in List(s.shared, user)
  {
    hide Pairs, Downloads, Pointers, Locks, Urls, AllAllowed, Exec;
    ReachableInv(s);
    assert multiset(s.shared.deleted)[d] > 0;
    InQueueIff(s.shared, d);
    forall user
      ensures d !in List(s.shared, user)
    {
      assert ListOk(s.shared, user);
    }
  }

  /**
   When a download is about to be deleted, its run thread has released the reap mutex for the
   last time and is gone, and nothing else leads to the download, but for a store of its run thread.
   */
  lemma DeletedAfterRun(s: State, t: Tid, d: Id, back: Back)
    requires Reachable(s) && PcOf(s, t) == RemDelete(d, back)
    ensures d in s.shared.heap && Exited(s.shared.heap[d])
    ensures forall u :: u != t ==> !PcOf(s, u).Names(d)
    ensures d !in s.shared.queue && forall user :: d !in List(s.shared, user)
  {
    hide PairOk, Downloads, Urls, Deleted, AllAllowed, Exec;
    ReachableInv(s);
    assert PcOf(s, t).Names(d);
    var o := s.shared.heap[d];
    DeleteOwn(o, d, t, back);
    forall u | u != t
      ensures !PcOf(s, u).Names(d)
    {
      OneHolder(s, t, u);
      LastPointer(o, d, t, back, u, PcOf(s, u));
    }
    InQueueIff(s.shared, d);
    forall user
      ensures d !in List(s.shared, user)
    {
      assert ListOk(s.shared, user);
    }
  }

  /** A removal takes exactly its own entry out of its user's list, and no other list changes. */
  lemma ErasesItself(s: State, t: Tid, d: Id, i: nat, back: Back, oracle: Oracle)
    requires Reachable(s) && PcOf(s, t) == RemErase(d, i, back)
    ensures d in s.shared.heap
    ensures var user := s.shared.heap[d].info.user;
            var n := Apply(s, Move(t, oracle));
            && At(List(s.shared, user), i, d)
            && List(n.shared, user) == RemoveAt(List(s.shared, user), i)
            && d !in List(n.shared, user)
            && forall other :: other != user ==> List(n.shared, other) == List(s.shared, other)
  {
    hide Pairs, Downloads, Queue, Urls, Deleted, AllAllowed, Exec;
    ReachableInv(s);
    assert PcOf(s, t).Names(d);
    assert LockOk(s.shared, t, PcOf(s, t));
    var user := s.shared.heap[d].info.user;
    assert ListOk(s.shared, user);
    RemovedAt(List(s.shared, user), i);
  }

  /** Before the reap status leaves OK the run has settled, and emitted the one signal of its outcome. */
  lemma OneSignal(s: State, d: Id)
    requires Reachable(s) && d in s.shared.heap
    ensures |s.shared.heap[d].signals| <= 1
    ensures s.shared.heap[d].reap != OK ==> Signalled(s.shared.heap[d])
  {
    hide AllAllowed, Exec, Pointers, Locks, Lists, Queue, Urls, Deleted;
    ReachableInv(s);
    var o := s.shared.heap[d];
    assert DownloadOk(o);
    if o.runner.Some? { assert PairOk(o, d, o.runner.value, PcOf(s, o.runner.value)); }
  }

  /** Past the signals, on the way to the last release of the reap mutex. */
  predicate Leaving(pc: Pc, d: Id) {
    (pc.CmpNotify? || pc.CmpInvoke? || pc.CmpLock? || pc.CmpMark? || pc.CmpUnlock?) && pc.d == d
  }

  function StepsLeft(pc: Pc): nat {
    if pc.CmpNotify? then 5 else if pc.CmpInvoke? then 4 else if pc.CmpLock? then 3
    else if pc.CmpMark? then 2 else if pc.CmpUnlock? then 1 else 0
  }

  /**
   A removal that waits while it holds the registry mutex waits only for a run that is past
   its signals: either the run is over, or its thread can move on, whoever holds the mutex.
   The case of an unstarted, cancelled download never lets it pass.
   */
  lemma WaitsForLeaver(s: State, t: Tid, d: Id, i: nat, back: Back, oracle: Oracle)
    requires Reachable(s) && PcOf(s, t) == RemWait(d, i, back)
    ensures d in s.shared.heap && s.shared.heap[d].reap != OK
    ensures !(s.shared.heap[d].status == NotStarted && s.shared.heap[d].cancel)
    ensures s.shared.heap[d].runner.None? ==> PcOf(Apply(s, Move(t, oracle)), t) == RemErase(d, i, back)
    ensures s.shared.heap[d].runner.Some? ==>
              var r := s.shared.heap[d].runner.value;
              r != t && Leaving(PcOf(s, r), d) && LeaverMoves(s, r, oracle)
  {
    hide AllAllowed, Exec, Lists, Queue, Urls, Deleted, LeaverMoves;
    ReachableInv(s);
    assert PcOf(s, t).Names(d);
    var o := s.shared.heap[d];
    assert DownloadOk(o) && PairOk(o, d, t, PcOf(s, t));
    if o.runner.Some? {
      var r := o.runner.value;
      assert PairOk(o, d, r, PcOf(s, r));
      RunnerLeaves(s, t, d, r, oracle);
    }
  }

  /** The next step of the thread brings it nearer to its end. */
  ghost predicate LeaverMoves(s: State, r: Tid, oracle: Oracle) {
    r in s.threads && StepsLeft(PcOf(Apply(s, Move(r, oracle)), r)) == StepsLeft(PcOf(s, r)) - 1
  }

  lemma RunnerLeaves(s: State, t: Tid, d: Id, r: Tid, oracle: Oracle)
    requires Pairs(s) && Downloads(s) && Locks(s) && d in s.shared.heap
    requires PcOf(s, t).RemWait? && PcOf(s, t).d == d && r != t && Leaving(PcOf(s, r), d)
    ensures LeaverMoves(s, r, oracle)
  {
    var o := s.shared.heap[d];
    assert PairOk(o, d, r, PcOf(s, r)) && DownloadOk(o) && PairOk(o, d, t, PcOf(s, t));
    NoneRegisters(s, t, d);
  }

  /** When every thread is done and the work queue is empty, each cancelled download has been deleted. */
  lemma QuietMeansDeleted(s: State, d: Id)
    requires Reachable(s) && d in s.shared.heap && s.shared.queue == []
    requires forall t :: PcOf(s, t).Finished? || PcOf(s, t).WorkerIdle?
    ensures s.shared.heap[d].ticket == NoTicket && Exited(s.shared.heap[d])
  {
    hide AllAllowed, Exec, Lists, Urls, Deleted, Pointers, Locks;
    ReachableInv(s);
    var o := s.shared.heap[d];
    assert DownloadOk(o);
    Owners(s, d);
    InQueueIff(s.shared, d);
  }

  // ----- no deadlock -----

  /** Some answer of its surroundings lets the thread take its next step. */
  ghost predicate CanMove(s: State, u: Tid) {
    (exists oracle :: PcOf(Apply(s, Move(u, oracle)), u) != PcOf(s, u)) ||
    (exists r :: PcOf(Apply(s, Start(u, r)), u) != PcOf(s, u))
  }

  lemma Moves(s: State, u: Tid, oracle: Oracle)
    requires u in s.threads && LocalStep(s.shared, u, s.threads[u], oracle).1 != s.threads[u]
    ensures CanMove(s, u)
  {
    hide LocalStep;
    assert PcOf(Apply(s, Move(u, oracle)), u) != PcOf(s, u);
  }

  lemma {:induction false} FreshTid(ts: set<Tid>) returns (r: Tid)
    ensures r !in ts && forall x :: x in ts ==> x < r
    decreases |ts|
  {
    if ts == {} {
      r := 0;
    } else {
      var x :| x in ts;
      var r0 := FreshTid(ts - {x});
      r := if r0 <= x then x + 1 else r0;
      assert forall y :: y in ts ==> y == x || y in ts - {x};
    }
  }

  /** Steps that wait for nothing. */
  predicate Free(pc: Pc) {
    pc.Transferring() || pc.CmpNotify? || pc.CmpMark? || pc.CmpUnlock? || pc.CanPush? || pc.CanFlag? ||
    (pc.OnLock() && pc.HoldsLock()) || pc.CanFind? || pc.RemFind? || pc.AddPush? || pc.RemErase? || pc.RemDelete?
  }

  lemma FreeMoves(s: State, t: Tid)
    requires t in s.threads && Free(s.threads[t])
    ensures CanMove(s, t)
  {
    Moves(s, t, Finish(Fine));
  }

  lemma RegisterMoves(s: State, t: Tid)
    requires Inv(s) && PcOf(s, t).CanRegister?
    ensures CanMove(s, t)
  {
    hide Downloads, Lists, Queue, Urls, Deleted;
    var d := PcOf(s, t).d;
    assert PcOf(s, t).Names(d);
    NoneRegisters(s, t, d);
    Moves(s, t, Tick);
  }

  lemma WaiterOrLeaverMoves(s: State, t: Tid)
    requires Reachable(s) && PcOf(s, t).RemWait?
    ensures exists u :: CanMove(s, u)
  {
    hide AllAllowed, Exec, Apply, CanMove;
    var pc := PcOf(s, t);
    WaitsForLeaver(s, t, pc.d, pc.i, pc.back, Tick);
    if s.shared.heap[pc.d].runner.None? {
      MovedOn(s, t, Tick);
    } else {
      var r := s.shared.heap[pc.d].runner.value;
      MovedOn(s, r, Tick);
    }
  }

  lemma MovedOn(s: State, u: Tid, oracle: Oracle)
    requires PcOf(Apply(s, Move(u, oracle)), u) != PcOf(s, u)
    ensures CanMove(s, u)
  {
  }

  /** The registry mutex is never held for ever: its holder can move, or the run it waits for can. */
  lemma HolderMoves(s: State, h: Tid)
    requires Reachable(s) && PcOf(s, h).HoldsLock()
    ensures exists u :: CanMove(s, u)
  {
    hide AllAllowed, Exec, Apply, CanMove, Pairs, Downloads, Pointers, Locks, Lists, Queue, Urls, Deleted;
    ReachableInv(s);
    if PcOf(s, h).RemWait? {
      WaiterOrLeaverMoves(s, h);
    } else if PcOf(s, h).CanRegister? {
      RegisterMoves(s, h);
    } else {
      FreeMoves(s, h);
    }
  }

  lemma ReapMutexFree(s: State, t: Tid)
    requires Inv(s) && (PcOf(s, t).CmpClose? || PcOf(s, t).CmpLock?)
    ensures CanMove(s, t)
  {
    hide Lists, Queue, Urls, Deleted, Locks;
    var d := PcOf(s, t).d;
    assert PcOf(s, t).Names(d);
    assert PairOk(s.shared.heap[d], d, t, PcOf(s, t)) && DownloadOk(s.shared.heap[d]);
    Moves(s, t, Tick);
  }

  lemma InvokerMoves(s: State, t: Tid)
    requires Inv(s) && PcOf(s, t).CmpInvoke?
    ensures exists u :: CanMove(s, u)
  {
    hide Lists, Queue, Urls, Deleted, Locks, CanMove;
    var d := PcOf(s, t).d;
    assert PcOf(s, t).Names(d);
    Owners(s, d);
    if s.shared.heap[d].cbHolder.Some? {
      FreeMoves(s, s.shared.heap[d].cbHolder.value);
    } else {
      Moves(s, t, Tick);
    }
  }

  lemma StarterMoves(s: State, t: Tid)
    requires Inv(s) && PcOf(s, t).AddStart?
    ensures CanMove(s, t)
  {
    var r := FreshTid(s.threads.Keys);
    assert PcOf(Apply(s, Start(t, r)), t) != PcOf(s, t);
  }

  lemma LockerMoves(s: State, t: Tid)
    requires Reachable(s) && PcOf(s, t).OnLock() && !PcOf(s, t).HoldsLock()
    ensures exists u :: CanMove(s, u)
  {
    hide AllAllowed, Exec, CanMove, Pairs, Downloads, Lists, Queue, Urls, Deleted;
    ReachableInv(s);
    if s.shared.lock.Some? {
      var h := s.shared.lock.value;
      assert LockOk(s.shared, h, PcOf(s, h));
      HolderMoves(s, h);
    } else {
      if PcOf(s, t).RemLock? { assert PcOf(s, t).Names(PcOf(s, t).d); }
      Moves(s, t, Tick);
    }
  }

  /** While any thread is busy, some thread can move: the three kinds of mutex cannot deadlock. */
  lemma NoDeadlock(s: State, t: Tid)
    requires Reachable(s) && !PcOf(s, t).Finished? && !PcOf(s, t).CrashedInStore?
    requires !(PcOf(s, t).WorkerIdle? && s.shared.queue == [])
    ensures exists u :: CanMove(s, u)
  {
    hide AllAllowed, Exec, Apply, CanMove, Pairs, Downloads, Pointers, Locks, Lists, Queue, Urls, Deleted;
    ReachableInv(s);
    OnlyStoresCrash(s, t);
    var pc := PcOf(s, t);
    if pc.HoldsLock() {
      HolderMoves(s, t);
    } else if pc.OnLock() {
      LockerMoves(s, t);
    } else if pc.CmpClose? || pc.CmpLock? {
      ReapMutexFree(s, t);
    } else if pc.CmpInvoke? {
      InvokerMoves(s, t);
    } else if pc.AddStart? {
      StarterMoves(s, t);
    } else if pc.WorkerIdle? || pc.AddStore? {
      Moves(s, t, Tick);
    } else {
      FreeMoves(s, t);
    }
  }
}
