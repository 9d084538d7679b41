/**
 Signal emission with re-entrant handlers.

 A signal holds a list of slots.  While it is being emitted a handler may connect and
 disconnect slots, block them, copy or destroy handles of the signal, emit again or throw.
 The machine below has one step for each of these and for each advance of an emission or
 of a sweep; `frames` is the stack of signal_exec guards that are open.
 */
module Signal {
  import opened Basics

  /**
   A slot that can be called, or one of the three that are empty: invalidated by disconnect(), connected
   without a functor, or put at the end of the list by an emission.  No step tells the empty ones apart.
   */
  datatype Kind = Callable | Invalidated | Hollow | Placeholder

  /** A list node; `id` is the order in which nodes were linked. */
  datatype Node = Node(id: nat, kind: Kind, blocked: bool) {
    predicate Empty() { kind != Callable }
  }

  /** A node as an emission found it, and whether it was called. */
  datatype Visit = Visit(node: Node, called: bool)

  /**
   An open guard.  An emission walks the list from `it` to its placeholder; `begun` and
   `visits` record the nodes present at its start and the nodes it has reached.
   */
  datatype Frame =
    | Emission(placeholder: nat, it: nat, calling: bool, begun: seq<nat>, visits: seq<Visit>)
    | Erasing
    | Sweeping(next: Option<nat>)

  /** An emission that has ended, and whether it ran to its end or an exception ended it. */
  datatype Record = Record(placeholder: nat, begun: seq<nat>, visits: seq<Visit>, completed: bool)

  datatype State = State(
    slots: seq<Node>,
    ref_count: int,
    exec_count: int,
    deferred: bool,
    handles: nat,
    frames: seq<Frame>,
    nextId: nat,
    freed: nat,
    records: seq<Record>)
  {
    /** User code runs: nothing is open, or a handler or a slot's destructor has been called. */
    predicate UserCode() {
      freed == 0 && (frames == [] || (var top := frames[|frames| - 1]; top.Emission? ==> top.calling))
    }
  }

  /** A signal with one handle. */
  const INIT := State([], 1, 0, false, 1, [], 0, 0, [])

  // ----- the slot list -----

  /** Where the node `id` is, or the length of the list. */
  function Find(slots: seq<Node>, id: nat): (k: nat)
    ensures k <= |slots| && (k < |slots| ==> slots[k].id == id)
    ensures forall i :: 0 <= i < k ==> slots[i].id != id
  {
    if slots == [] || slots[0].id == id then 0 else 1 + Find(slots[1..], id)
  }

  function EraseAt(slots: seq<Node>, k: nat): seq<Node>
    requires k < |slots|
  {
    slots[..k] + slots[k + 1..]
  }

  function IdAt(slots: seq<Node>, k: nat): Option<nat> {
    if k < |slots| then Some(slots[k].id) else None
  }

  // ----- signal_impl -----

  /** The constructor of signal_exec. */
  function EnterExec(s: State, f: Frame): State {
    s.(ref_count := s.ref_count + 1, exec_count := s.exec_count + 1, frames := s.frames + [f])
  }

  /** The destructor of signal_exec: unreference_exec() and, when due, the start of sweep(). */
  function LeaveExec(s: State): State
    requires s.frames != []
  {
    var below := s.frames[..|s.frames| - 1];
    if s.ref_count - 1 == 0 then Delete(s.(ref_count := 0, frames := below))
    else
      var n := s.(ref_count := s.ref_count - 1, exec_count := s.exec_count - 1, frames := below);
      if n.exec_count == 0 && n.deferred then EnterExec(n.(deferred := false), Sweeping(IdAt(n.slots, 0))) else n
  }

  function Delete(s: State): State { s.(slots := [], freed := s.freed + 1) }

  /** slot_base::disconnect() on a node, with signal_impl::notify(). */
  function Disconnect(s: State, id: nat): State {
    var k := Find(s.slots, id);
    if k == |s.slots| || s.slots[k].Empty() then s
    else if s.exec_count == 0 then EnterExec(s, Erasing).(slots := EraseAt(s.slots, k))
    else s.(slots := s.slots[k := s.slots[k].(kind := Invalidated)], deferred := true)
  }

  /** The destructor of a handle. */
  function DropHandle(s: State): State
    requires s.handles > 0
  {
    var n := s.(handles := s.handles - 1, ref_count := s.ref_count - 1);
    if s.ref_count == 1 then Delete(n) else n
  }

  // ----- emission -----

  function BeginEmission(s: State): State {
    if s.slots == [] then s
    else
      var begun := seq(|s.slots|, i requires 0 <= i < |s.slots| => s.slots[i].id);
      EnterExec(s, Emission(s.nextId, s.slots[0].id, false, begun, [])).(
        slots := s.slots + [Node(s.nextId, Placeholder, false)], nextId := s.nextId + 1)
  }

  function WithTop(s: State, f: Frame): State
    requires s.frames != []
  {
    s.(frames := s.frames[..|s.frames| - 1] + [f])
  }

  /** The end of an emission: the placeholder is erased, then the guard is left. */
  function EndEmission(s: State, f: Frame, completed: bool): State
    requires s.frames != [] && f.Emission?
  {
    var k := Find(s.slots, f.placeholder);
    if k == |s.slots| then s
    else LeaveExec(s.(slots := EraseAt(s.slots, k), records := s.records + [Record(f.placeholder, f.begun, f.visits, completed)]))
  }

  /** One turn of the loop of emit(), up to the call of a slot. */
  function Advance(s: State, f: Frame): State
    requires s.frames != [] && f.Emission?
  {
    if f.it == f.placeholder then EndEmission(s, f, true)
    else
      var k := Find(s.slots, f.it);
      if k + 1 >= |s.slots| then s
      else
        var called := !s.slots[k].Empty() && !s.slots[k].blocked;
        WithTop(s, f.(it := s.slots[k + 1].id, calling := called, visits := f.visits + [Visit(s.slots[k], called)]))
  }

  /** One turn of the loop of sweep(). */
  function SweepOne(s: State, next: Option<nat>): State
    requires s.frames != []
  {
    if next.None? then LeaveExec(s)
    else
      var k := Find(s.slots, next.value);
      if k == |s.slots| then s
      else
        var n := WithTop(s, Sweeping(IdAt(s.slots, k + 1)));
        if s.slots[k].Empty() then n.(slots := EraseAt(s.slots, k)) else n
  }

  datatype Action =
    // user code
    | Connect(hollow: bool, blocked: bool)
    | DisconnectSlot(id: nat)
    | Block(id: nat, blocked: bool)
    | Emit
    | CopyHandle
    | DestroyHandle
    // the handler returns or throws, the library goes on
    | Return
    | Throw
    | Continue

  function Apply(s: State, a: Action): State {
    if a.Connect? then
      if s.UserCode() && s.handles > 0 then
        s.(slots := s.slots + [Node(s.nextId, if a.hollow then Hollow else Callable, a.blocked)], nextId := s.nextId + 1)
      else s
    else if a.DisconnectSlot? then if s.UserCode() then Disconnect(s, a.id) else s
    else if a.Block? then
      var k := Find(s.slots, a.id);
      if s.UserCode() && k < |s.slots| then s.(slots := s.slots[k := s.slots[k].(blocked := a.blocked)]) else s
    else if a.Emit? then if s.UserCode() && s.handles > 0 then BeginEmission(s) else s
    else if a.CopyHandle? then
      if s.UserCode() && s.handles > 0 then s.(handles := s.handles + 1, ref_count := s.ref_count + 1) else s
    else if a.DestroyHandle? then if s.UserCode() && s.handles > 0 then DropHandle(s) else s
    else ApplyLibrary(s, a)
  }

  /** Steps of the innermost open guard. */
  function ApplyLibrary(s: State, a: Action): State {
    if s.freed > 0 || s.frames == [] then s
    else
      var top := s.frames[|s.frames| - 1];
      match top
      case Emission(_, _, calling, _, _) =>
        if calling && a.Return? then WithTop(s, top.(calling := false))
        else if calling && a.Throw? then EndEmission(s, top, false)
        else if !calling && a.Continue? then Advance(s, top)
        else s
      case Erasing => if a.Continue? then LeaveExec(s) else s
      case Sweeping(next) => if a.Continue? then SweepOne(s, next) else s
  }

  function Exec(s: State, actions: seq<Action>): State
    decreases actions
  {
    if actions == [] then s else Exec(Apply(s, actions[0]), actions[1..])
  }

  // ----- the invariant -----

  /** Nodes stand in the order in which they were linked. */
  ghost predicate Linked(slots: seq<Node>, nextId: nat) {
    && (forall i, j :: 0 <= i < j < |slots| ==> slots[i].id < slots[j].id)
    && (forall i :: 0 <= i < |slots| ==> slots[i].id < nextId)
  }

  /** The nodes in front of an emission's placeholder are those that were there when it began. */
  ghost predicate EmissionOk(slots: seq<Node>, f: Frame)
    requires f.Emission?
  {
    && |f.begun| < |slots|
    && slots[|f.begun|] == Node(f.placeholder, Placeholder, slots[|f.begun|].blocked)
    && (forall i :: 0 <= i < |f.begun| ==> slots[i].id == f.begun[i])
    && |f.visits| <= |f.begun|
    && f.it == slots[|f.visits|].id
    && VisitsOk(f.placeholder, f.begun, f.visits)
  }

  /** Nodes are reached in order, each once, and called when callable and not blocked at that time. */
  ghost predicate VisitsOk(placeholder: nat, begun: seq<nat>, visits: seq<Visit>) {
    && |visits| <= |begun|
    && (forall i :: 0 <= i < |begun| ==> begun[i] < placeholder)
    && (forall i :: 0 <= i < |visits| ==>
          visits[i].node.id == begun[i] &&
          (visits[i].called <==> visits[i].node.kind == Callable && !visits[i].node.blocked))
  }

  ghost predicate RecordOk(r: Record) {
    VisitsOk(r.placeholder, r.begun, r.visits) && (r.completed ==> |r.visits| == |r.begun|)
  }

  /** Guards without a placeholder are at the bottom of the stack. */
  ghost predicate FramesOk(slots: seq<Node>, frames: seq<Frame>) {
    && (forall i :: 0 < i < |frames| ==> frames[i].Emission?)
    && (forall i :: 0 <= i < |frames| && frames[i].Emission? ==> EmissionOk(slots, frames[i]))
    && (forall i, j :: 0 <= i < j < |frames| && frames[i].Emission? && frames[j].Emission? ==>
          |frames[i].begun| < |frames[j].begun|)
    && (frames != [] && frames[0].Sweeping? && frames[0].next.Some? ==>
          var k := Find(slots, frames[0].next.value);
          k < |slots| && forall i :: 0 < i < |frames| && frames[i].Emission? ==> k < |frames[i].begun|)
  }

  /** Where the sweep in progress, if any, still has to look. */
  function SweepFrom(slots: seq<Node>, frames: seq<Frame>): nat {
    if frames != [] && frames[0].Sweeping? && frames[0].next.Some? then Find(slots, frames[0].next.value) else |slots|
  }

  /** An invalidated node is still to be swept. */
  ghost predicate DeferredOk(s: State) {
    && (s.frames == [] && s.freed == 0 ==> !s.deferred)
    && (!s.deferred ==> forall i :: 0 <= i < SweepFrom(s.slots, s.frames) && i < |s.slots| ==> s.slots[i].kind != Invalidated)
  }

  ghost predicate CountsOk(s: State) {
    && s.ref_count == s.handles + |s.frames|
    && (s.freed == 0 ==> s.exec_count == |s.frames|)
    && s.freed == (if s.ref_count == 0 then 1 else 0)
  }

  ghost predicate Inv(s: State) {
    && Linked(s.slots, s.nextId)
    && CountsOk(s)
    && FramesOk(s.slots, s.frames)
    && DeferredOk(s)
    && (forall i :: 0 <= i < |s.records| ==> RecordOk(s.records[i]))
  }

  lemma FindAt(slots: seq<Node>, nextId: nat, k: nat)
    requires Linked(slots, nextId) && k < |slots|
    ensures Find(slots, slots[k].id) == k
  {
  }

  /** Appending a node, or changing nodes without touching their ids, leaves every position as it is. */
  lemma {:induction false} FindSame(a: seq<Node>, b: seq<Node>, id: nat)
    requires |a| <= |b| && (forall i :: 0 <= i < |a| ==> a[i].id == b[i].id) && Find(a, id) < |a|
    ensures Find(b, id) == Find(a, id)
  {
    assert b[Find(a, id)].id == id;
  }

  /** The list has grown at its end, or nodes have changed that are no placeholders. */
  ghost predicate Grown(a: seq<Node>, b: seq<Node>, frames: seq<Frame>) {
    && |a| <= |b|
    && (forall i :: 0 <= i < |a| ==> a[i].id == b[i].id)
    && (forall i :: 0 <= i < |a| && a[i].kind == Placeholder ==> b[i].kind == Placeholder)
  }

  lemma GrownEmission(a: seq<Node>, b: seq<Node>, frames: seq<Frame>, f: Frame)
    requires Grown(a, b, frames) && f.Emission? && EmissionOk(a, f)
    ensures EmissionOk(b, f)
  {
  }

  lemma GrownFrames(a: seq<Node>, b: seq<Node>, frames: seq<Frame>)
    requires FramesOk(a, frames) && Grown(a, b, frames)
    ensures FramesOk(b, frames)
    ensures SweepFrom(a, frames) < |a| ==> SweepFrom(b, frames) == SweepFrom(a, frames)
    ensures SweepFrom(a, frames) >= |a| ==> SweepFrom(b, frames) == |b|
  {
    forall i | 0 <= i < |frames| && frames[i].Emission?
      ensures EmissionOk(b, frames[i])
    {
      GrownEmission(a, b, frames, frames[i]);
    }
    if frames != [] && frames[0].Sweeping? && frames[0].next.Some? {
      FindSame(a, b, frames[0].next.value);
    }
  }

  lemma ConnectInv(s: State, node: Node)
    requires Inv(s) && s.freed == 0 && node.id == s.nextId && node.kind != Invalidated
    ensures Inv(s.(slots := s.slots + [node], nextId := s.nextId + 1))
  {
    hide EmissionOk, RecordOk;
    GrownFrames(s.slots, s.slots + [node], s.frames);
  }

  lemma ChangeInv(s: State, k: nat, node: Node)
    requires Inv(s) && s.freed == 0 && k < |s.slots| && node.id == s.slots[k].id
    requires (node.kind == s.slots[k].kind) || (s.slots[k].kind == Callable && node.kind == Invalidated && s.frames != [])
    ensures Inv(s.(slots := s.slots[k := node], deferred := s.deferred || node.kind != s.slots[k].kind))
  {
    GrownFrames(s.slots, s.slots[k := node], s.frames);
  }

  lemma EraseLinked(slots: seq<Node>, nextId: nat, k: nat)
    requires Linked(slots, nextId) && k < |slots|
    ensures Linked(EraseAt(slots, k), nextId)
    ensures forall i :: 0 <= i < |slots| - 1 ==> EraseAt(slots, k)[i] == if i < k then slots[i] else slots[i + 1]
  {
  }

  lemma DisconnectInv(s: State, id: nat)
    requires Inv(s) && s.freed == 0
    ensures Inv(Disconnect(s, id))
  {
    var k := Find(s.slots, id);
    if k < |s.slots| && !s.slots[k].Empty() {
      if s.exec_count == 0 {
        EraseLinked(s.slots, s.nextId, k);
      } else {
        ChangeInv(s, k, s.slots[k].(kind := Invalidated));
        assert s.deferred || Invalidated != s.slots[k].kind;
      }
    }
  }

  /** What holds just before the innermost guard is left: its own frame no longer matters. */
  ghost predicate Leaving(s: State) {
    && s.frames != [] && s.freed == 0
    && Linked(s.slots, s.nextId)
    && CountsOk(s)
    && FramesOk(s.slots, s.frames[..|s.frames| - 1])
    && (!s.deferred ==> forall i :: 0 <= i < SweepFrom(s.slots, s.frames[..|s.frames| - 1]) && i < |s.slots| ==>
                          s.slots[i].kind != Invalidated)
    && (forall i :: 0 <= i < |s.records| ==> RecordOk(s.records[i]))
  }

  lemma LeaveDeletes(s: State)
    requires Leaving(s) && s.ref_count == 1
    ensures Inv(LeaveExec(s))
  {
    hide Find, EmissionOk, RecordOk, IdAt;
    assert s.frames[..|s.frames| - 1] == [];
  }

  lemma LeaveSweeps(s: State)
    requires Leaving(s) && s.ref_count != 1 && s.exec_count == 1 && s.deferred
    ensures Inv(LeaveExec(s))
  {
    hide Find, Linked, EmissionOk, RecordOk, IdAt, FramesOk, SweepFrom;
    SweepAt(s.slots, s.nextId, 0);
    assert s.frames[..|s.frames| - 1] + [Sweeping(IdAt(s.slots, 0))] == [Sweeping(IdAt(s.slots, 0))];
  }

  lemma LeaveOnly(s: State)
    requires Leaving(s) && s.ref_count != 1 && !(s.exec_count == 1 && s.deferred)
    ensures Inv(LeaveExec(s))
  {
    hide Linked, RecordOk, IdAt, FramesOk, SweepFrom;
  }

  lemma LeaveInv(s: State)
    requires Leaving(s)
    ensures Inv(LeaveExec(s))
  {
    hide Leaving, Inv, LeaveExec;
    if s.ref_count == 1 {
      LeaveDeletes(s);
    } else if s.exec_count == 1 && s.deferred {
      LeaveSweeps(s);
    } else {
      LeaveOnly(s);
    }
  }

  /** The guards below the innermost one. */
  lemma FramesBelow(slots: seq<Node>, frames: seq<Frame>)
    requires FramesOk(slots, frames) && frames != []
    ensures FramesOk(slots, frames[..|frames| - 1])
  {
  }

  /** Another emission on top: it has more nodes in front of it than those below. */
  ghost predicate Above(slots: seq<Node>, frames: seq<Frame>, f: Frame)
    requires f.Emission?
  {
    && (forall i :: 0 <= i < |frames| && frames[i].Emission? ==> |frames[i].begun| < |f.begun|)
    && (frames != [] && frames[0].Sweeping? && frames[0].next.Some? ==> Find(slots, frames[0].next.value) < |f.begun|)
  }

  lemma FramesPush(slots: seq<Node>, frames: seq<Frame>, f: Frame)
    requires FramesOk(slots, frames) && f.Emission? && EmissionOk(slots, f) && Above(slots, frames, f)
    ensures FramesOk(slots, frames + [f])
  {
    var all := frames + [f];
    assert forall i :: 0 <= i < |frames| ==> all[i] == frames[i];
  }

  lemma TopAbove(slots: seq<Node>, frames: seq<Frame>)
    requires FramesOk(slots, frames) && frames != [] && frames[|frames| - 1].Emission?
    ensures Above(slots, frames[..|frames| - 1], frames[|frames| - 1])
  {
  }

  /** Guards that stand in front of position `k` do not see that node `k` is erased. */
  lemma EmissionErase(slots: seq<Node>, k: nat, f: Frame)
    requires f.Emission? && EmissionOk(slots, f) && |f.begun| < k < |slots|
    ensures EmissionOk(EraseAt(slots, k), f)
  {
  }

  lemma {:induction false} FindErase(slots: seq<Node>, k: nat, id: nat)
    requires Find(slots, id) < k < |slots|
    ensures Find(EraseAt(slots, k), id) == Find(slots, id)
  {
    assert EraseAt(slots, k)[Find(slots, id)].id == id;
  }

  lemma {:induction false} FramesErase(slots: seq<Node>, nextId: nat, frames: seq<Frame>, f: Frame)
    requires Linked(slots, nextId) && FramesOk(slots, frames) && f.Emission? && |f.begun| < |slots| && Above(slots, frames, f)
    ensures FramesOk(EraseAt(slots, |f.begun|), frames)
    ensures frames != [] && frames[0].Sweeping? && frames[0].next.Some? ==>
              Find(EraseAt(slots, |f.begun|), frames[0].next.value) == Find(slots, frames[0].next.value)
  {
    hide EmissionOk;
    var erased := EraseAt(slots, |f.begun|);
    forall i | 0 <= i < |frames| && frames[i].Emission?
      ensures EmissionOk(erased, frames[i])
    {
      EmissionErase(slots, |f.begun|, frames[i]);
    }
    if frames != [] && frames[0].Sweeping? && frames[0].next.Some? {
      FindErase(slots, |f.begun|, frames[0].next.value);
    }
  }

  lemma BeginFrames(s: State)
    requires Inv(s) && s.freed == 0 && s.slots != []
    ensures FramesOk(BeginEmission(s).slots, BeginEmission(s).frames)
  {
    var n := BeginEmission(s);
    GrownFrames(s.slots, n.slots, s.frames);
    var f := n.frames[|s.frames|];
    assert EmissionOk(n.slots, f);
    forall i | 0 <= i < |s.frames| && s.frames[i].Emission?
      ensures |s.frames[i].begun| < |f.begun|
    {
      assert EmissionOk(s.slots, s.frames[i]);
    }
    FramesPush(n.slots, s.frames, f);
  }

  lemma BeginInv(s: State)
    requires Inv(s) && s.freed == 0
    ensures Inv(BeginEmission(s))
  {
    if s.slots != [] {
      BeginFrames(s);
      GrownFrames(s.slots, BeginEmission(s).slots, s.frames);
    }
  }

  lemma RecordAdds(records: seq<Record>, r: Record)
    requires (forall i :: 0 <= i < |records| ==> RecordOk(records[i])) && RecordOk(r)
    ensures forall i :: 0 <= i < |records + [r]| ==> RecordOk((records + [r])[i])
  {
  }

  lemma EndFinds(slots: seq<Node>, nextId: nat, f: Frame)
    requires Linked(slots, nextId) && f.Emission? && EmissionOk(slots, f)
    ensures Find(slots, f.placeholder) == |f.begun| < |slots|
  {
    FindAt(slots, nextId, |f.begun|);
  }

  lemma EndRecord(slots: seq<Node>, f: Frame, completed: bool)
    requires f.Emission? && EmissionOk(slots, f) && (completed ==> |f.visits| == |f.begun|)
    ensures RecordOk(Record(f.placeholder, f.begun, f.visits, completed))
  {
  }

  lemma EndLeaves(s: State, completed: bool)
    requires Inv(s) && s.freed == 0 && s.frames != [] && s.frames[|s.frames| - 1].Emission?
    requires var f := s.frames[|s.frames| - 1]; completed ==> |f.visits| == |f.begun|
    ensures var f := s.frames[|s.frames| - 1];
            Find(s.slots, f.placeholder) == |f.begun| < |s.slots| &&
            Leaving(s.(slots := EraseAt(s.slots, |f.begun|), records := s.records + [Record(f.placeholder, f.begun, f.visits, completed)]))
  {
    hide Find, Linked, EmissionOk, FramesOk, RecordOk, SweepFrom, EraseAt;
    var f := s.frames[|s.frames| - 1];
    TopOk(s);
    EndFinds(s.slots, s.nextId, f);
    EndFrames(s, f);
    EndRecord(s.slots, f, completed);
    RecordAdds(s.records, Record(f.placeholder, f.begun, f.visits, completed));
  }

  lemma EndFrames(s: State, f: Frame)
    requires Inv(s) && s.freed == 0 && s.frames != [] && s.frames[|s.frames| - 1] == f && f.Emission? && |f.begun| < |s.slots|
    ensures var below := s.frames[..|s.frames| - 1];
            var slots := EraseAt(s.slots, |f.begun|);
            Linked(slots, s.nextId) && FramesOk(slots, below) &&
            (!s.deferred ==> forall i :: 0 <= i < SweepFrom(slots, below) && i < |slots| ==> slots[i].kind != Invalidated)
  {
    EraseLinked(s.slots, s.nextId, |f.begun|);
    FramesBelow(s.slots, s.frames);
    TopAbove(s.slots, s.frames);
    FramesErase(s.slots, s.nextId, s.frames[..|s.frames| - 1], f);
    EraseSweep(s, |f.begun|);
  }

  lemma EraseSweep(s: State, k: nat)
    requires Inv(s) && s.frames != [] && s.frames[|s.frames| - 1].Emission? && k < |s.slots| && s.freed == 0
    requires var below := s.frames[..|s.frames| - 1];
             below != [] && below[0].Sweeping? && below[0].next.Some? ==>
               Find(EraseAt(s.slots, k), below[0].next.value) == Find(s.slots, below[0].next.value) < k
    ensures var slots := EraseAt(s.slots, k);
            !s.deferred ==> forall i :: 0 <= i < SweepFrom(slots, s.frames[..|s.frames| - 1]) && i < |slots| ==>
                              slots[i].kind != Invalidated
  {
    EraseLinked(s.slots, s.nextId, k);
    var below := s.frames[..|s.frames| - 1];
    assert below != [] ==> below[0] == s.frames[0];
  }

  lemma AdvanceInv(s: State)
    requires Inv(s) && s.freed == 0 && s.frames != [] && s.frames[|s.frames| - 1].Emission?
    ensures Inv(Advance(s, s.frames[|s.frames| - 1]))
  {
    var top := |s.frames| - 1;
    var f := s.frames[top];
    assert EmissionOk(s.slots, f);
    var k := |f.visits|;
    FindAt(s.slots, s.nextId, k);
    if f.it == f.placeholder {
      FindAt(s.slots, s.nextId, |f.begun|);
      EndLeaves(s, true);
      LeaveInv(s.(slots := EraseAt(s.slots, |f.begun|), records := s.records + [Record(f.placeholder, f.begun, f.visits, true)]));
    } else {
      VisitInv(s, k);
    }
  }

  lemma VisitInv(s: State, k: nat)
    requires Inv(s) && s.freed == 0 && s.frames != [] && s.frames[|s.frames| - 1].Emission?
    requires var f := s.frames[|s.frames| - 1]; k == |f.visits| && f.it != f.placeholder && Find(s.slots, f.it) == k
    ensures Inv(Advance(s, s.frames[|s.frames| - 1]))
  {
    hide Inv, Find, EmissionOk;
    var f := s.frames[|s.frames| - 1];
    TopOk(s);
    var g := VisitOk(s.slots, f, k);
    assert Advance(s, f) == WithTop(s, g);
    TopInv(s, g);
  }

  lemma TopOk(s: State)
    requires Inv(s) && s.frames != [] && s.frames[|s.frames| - 1].Emission?
    ensures EmissionOk(s.slots, s.frames[|s.frames| - 1])
  {
  }

  /** The emission after it has reached the node at `k`. */
  lemma VisitOk(slots: seq<Node>, f: Frame, k: nat) returns (g: Frame)
    requires f.Emission? && EmissionOk(slots, f) && k == |f.visits| && f.it != f.placeholder
    ensures k + 1 < |slots| && g.Emission? && g.begun == f.begun && EmissionOk(slots, g)
    ensures var called := !slots[k].Empty() && !slots[k].blocked;
            g == f.(it := slots[k + 1].id, calling := called, visits := f.visits + [Visit(slots[k], called)])
  {
    var called := !slots[k].Empty() && !slots[k].blocked;
    g := f.(it := slots[k + 1].id, calling := called, visits := f.visits + [Visit(slots[k], called)]);
  }

  /** Replacing the innermost emission by one over the same nodes. */
  lemma TopInv(s: State, g: Frame)
    requires Inv(s) && s.frames != [] && s.frames[|s.frames| - 1].Emission?
    requires g.Emission? && g.begun == s.frames[|s.frames| - 1].begun && EmissionOk(s.slots, g)
    ensures Inv(WithTop(s, g))
  {
    hide EmissionOk, Find, RecordOk;
    FramesBelow(s.slots, s.frames);
    TopAbove(s.slots, s.frames);
    FramesPush(s.slots, s.frames[..|s.frames| - 1], g);
    assert SweepFrom(s.slots, WithTop(s, g).frames) == SweepFrom(s.slots, s.frames);
  }

  /** A sweep that stands at position `k`. */
  lemma SweepAt(slots: seq<Node>, nextId: nat, k: nat)
    requires Linked(slots, nextId) && k <= |slots|
    ensures SweepFrom(slots, [Sweeping(IdAt(slots, k))]) == k && FramesOk(slots, [Sweeping(IdAt(slots, k))])
  {
    if k < |slots| { FindAt(slots, nextId, k); }
  }

  lemma SweepPast(s: State, k: nat)
    requires Inv(s) && s.freed == 0 && |s.frames| == 1 && s.frames[0].Sweeping? && s.frames[0].next.Some?
    requires k == Find(s.slots, s.frames[0].next.value) && !s.slots[k].Empty()
    ensures Inv(WithTop(s, Sweeping(IdAt(s.slots, k + 1))))
  {
    assert s.frames[..0] + [Sweeping(IdAt(s.slots, k + 1))] == [Sweeping(IdAt(s.slots, k + 1))];
    SweepingInv(s, s.slots, k + 1);
  }

  /** A sweep at `k` over a list whose first `k` nodes it has already cleared. */
  lemma SweepingInv(s: State, slots: seq<Node>, k: nat)
    requires Inv(s) && s.freed == 0 && |s.frames| == 1
    requires Linked(slots, s.nextId) && k <= |slots|
    requires !s.deferred ==> forall i :: 0 <= i < k ==> slots[i].kind != Invalidated
    ensures Inv(s.(slots := slots, frames := [Sweeping(IdAt(slots, k))]))
  {
    SweepAt(slots, s.nextId, k);
  }

  lemma SweepErases(s: State, k: nat)
    requires Inv(s) && s.freed == 0 && |s.frames| == 1 && s.frames[0].Sweeping? && s.frames[0].next.Some?
    requires k == Find(s.slots, s.frames[0].next.value)
    ensures Inv(WithTop(s, Sweeping(IdAt(s.slots, k + 1))).(slots := EraseAt(s.slots, k)))
  {
    var slots := EraseAt(s.slots, k);
    EraseLinked(s.slots, s.nextId, k);
    SweepingInv(s, slots, k);
    assert IdAt(slots, k) == IdAt(s.slots, k + 1);
    assert s.frames[..0] + [Sweeping(IdAt(slots, k))] == [Sweeping(IdAt(slots, k))];
  }

  lemma SweepInv(s: State)
    requires Inv(s) && s.freed == 0 && s.frames != [] && s.frames[|s.frames| - 1].Sweeping?
    ensures Inv(SweepOne(s, s.frames[|s.frames| - 1].next))
  {
    assert |s.frames| == 1;
    var next := s.frames[0].next;
    if next.None? {
      LeaveInv(s);
    } else {
      var k := Find(s.slots, next.value);
      if s.slots[k].Empty() { SweepErases(s, k); } else { SweepPast(s, k); }
    }
  }

  lemma ApplyInv(s: State, a: Action)
    requires Inv(s)
    ensures Inv(Apply(s, a))
  {
    hide Inv, Find, Disconnect, BeginEmission, DropHandle, Advance, EndEmission, LeaveExec, SweepOne;
    if s.freed == 0 {
      if a.Return? || a.Throw? || a.Continue? {
        LibraryInv(s, a);
      } else {
        UserInv(s, a);
      }
    }
  }

  lemma UserInv(s: State, a: Action)
    requires Inv(s) && s.freed == 0 && !a.Return? && !a.Throw? && !a.Continue?
    ensures Inv(Apply(s, a))
  {
    hide Disconnect, BeginEmission, Find, EmissionOk, RecordOk, Linked;
    match a {
      case Connect(hollow, blocked) => ConnectInv(s, Node(s.nextId, if hollow then Hollow else Callable, blocked));
      case DisconnectSlot(id) => DisconnectInv(s, id);
      case Block(id, blocked) =>
        var k := Find(s.slots, id);
        if k < |s.slots| { ChangeInv(s, k, s.slots[k].(blocked := blocked)); }
      case Emit => BeginInv(s);
      case _ => HandleInv(s, a);
    }
  }

  lemma HandleInv(s: State, a: Action)
    requires Inv(s) && s.freed == 0 && (a.CopyHandle? || a.DestroyHandle?)
    ensures Inv(Apply(s, a))
  {
    hide EmissionOk, RecordOk;
  }

  lemma LibraryInv(s: State, a: Action)
    requires Inv(s) && s.freed == 0
    ensures Inv(ApplyLibrary(s, a))
  {
    hide Inv, SweepOne, LeaveExec, Advance, EndEmission, WithTop;
    if s.frames != [] {
      var top := s.frames[|s.frames| - 1];
      if top.Sweeping? {
        SweepInv(s);
      } else if top.Erasing? {
        ErasingInv(s);
      } else if a.Return? {
        TopOk(s);
        TopInv(s, top.(calling := false));
      } else if a.Throw? {
        ThrowInv(s);
      } else {
        AdvanceInv(s);
      }
    }
  }

  lemma ErasingInv(s: State)
    requires Inv(s) && s.freed == 0 && s.frames != [] && s.frames[|s.frames| - 1].Erasing?
    ensures Inv(LeaveExec(s))
  {
    hide EmissionOk, RecordOk, LeaveExec;
    assert s.frames[..0] == [];
    LeaveInv(s);
  }

  lemma ThrowInv(s: State)
    requires Inv(s) && s.freed == 0 && s.frames != [] && s.frames[|s.frames| - 1].Emission?
    ensures Inv(EndEmission(s, s.frames[|s.frames| - 1], false))
  {
    hide Inv, Leaving, LeaveExec;
    var f := s.frames[|s.frames| - 1];
    EndLeaves(s, false);
    LeaveInv(s.(slots := EraseAt(s.slots, |f.begun|), records := s.records + [Record(f.placeholder, f.begun, f.visits, false)]));
  }

  lemma InitInv()
    ensures Inv(INIT)
  {
  }

  lemma {:induction false} ExecInv(s: State, actions: seq<Action>)
    requires Inv(s)
    ensures Inv(Exec(s, actions))
    decreases actions
  {
    if actions != [] {
      ApplyInv(s, actions[0]);
      ExecInv(Apply(s, actions[0]), actions[1..]);
    }
  }

  // ----- main results -----

  /** The state after any nesting of user code and library steps. */
  ghost predicate Reachable(s: State) {
    exists actions :: s == Exec(INIT, actions)
  }

  lemma ReachableInv(s: State)
    requires Reachable(s)
    ensures Inv(s)
  {
    var actions :| s == Exec(INIT, actions);
    InitInv();
    ExecInv(INIT, actions);
  }

  /**
   An emission reaches the slots that were there when it began, in order and each once, and
   calls exactly those that are callable and not blocked when it reaches them.  One that is
   not cut short by an exception reaches them all.
   */
  lemma EmissionCallsItsSlots(s: State, r: Record, i: nat)
    requires Reachable(s) && r in s.records
    ensures |r.visits| <= |r.begun| && (r.completed ==> |r.visits| == |r.begun|)
    ensures i < |r.visits| ==>
              r.visits[i].node.id == r.begun[i] &&
              (r.visits[i].called <==> r.visits[i].node.kind == Callable && !r.visits[i].node.blocked)
  {
    ReachableInv(s);
    assert RecordOk(r);
  }

  /** A slot connected while an emission is open is behind its placeholder, so it is never reached by it. */
  lemma LaterSlotsAreNotReached(s: State, a: Action, f: Frame, i: nat)
    requires Reachable(s) && f in s.frames && f.Emission? && a.Connect?
    requires Apply(s, a).slots != s.slots && i < |f.begun|
    ensures var n := Apply(s, a).slots; |n| == |s.slots| + 1 && n[|s.slots|].id > f.placeholder > f.begun[i]
  {
    ReachableInv(s);
    assert EmissionOk(s.slots, f);
  }

  ghost predicate Present(s: State, id: nat) { Find(s.slots, id) < |s.slots| }

  ghost predicate Emitting(s: State) { exists i :: 0 <= i < |s.frames| && s.frames[i].Emission? }

  lemma EraseFinds(slots: seq<Node>, nextId: nat, k: nat, id: nat)
    requires Linked(slots, nextId) && k < |slots| && Find(slots, id) < |slots| && slots[k].id != id
    ensures var j := Find(EraseAt(slots, k), id);
            j < |slots| - 1 && EraseAt(slots, k)[j] == slots[Find(slots, id)]
  {
    var j := Find(slots, id);
    EraseLinked(slots, nextId, k);
    if j < k { FindAt(EraseAt(slots, k), nextId, j); } else { FindAt(EraseAt(slots, k), nextId, j - 1); }
  }

  /** What a step does to the list. */
  datatype Effect = Keeps | Appends(node: Node) | Changes(at: nat, node: Node) | Erases(at: nat)

  /** The step is one turn of a sweep, at the node `id`. */
  predicate SweepsAt(s: State, a: Action, id: nat) {
    a.Continue? && s.freed == 0 && s.frames != [] && s.frames[|s.frames| - 1] == Sweeping(Some(id))
  }

  /** The step connects an empty slot, as the node `id`. */
  predicate ConnectsEmpty(s: State, a: Action, id: nat) {
    a.Connect? && a.hollow && s.UserCode() && s.handles > 0 && id == s.nextId
  }

  ghost predicate HasEffect(s: State, a: Action, n: State, e: Effect) {
    match e
    case Keeps => n.slots == s.slots
    case Appends(node) =>
      n.slots == s.slots + [node] && node.id == s.nextId && node.kind != Invalidated &&
      (node.kind == Hollow ==> ConnectsEmpty(s, a, node.id)) &&
      (node.kind == Placeholder ==> |n.frames| == |s.frames| + 1 && HeldBy(n, |s.frames|, node.id))
    case Changes(k, node) =>
      k < |s.slots| && n.slots == s.slots[k := node] && node.id == s.slots[k].id &&
      (node.kind == s.slots[k].kind ||
       (a.DisconnectSlot? && a.id == node.id && s.slots[k].kind == Callable && node.kind == Invalidated))
    case Erases(k) =>
      k < |s.slots| && n.slots == EraseAt(s.slots, k) &&
      (s.slots[k].Empty() || (a.DisconnectSlot? && a.id == s.slots[k].id)) &&
      (s.slots[k].kind == Hollow ==> SweepsAt(s, a, s.slots[k].id)) &&
      (Emitting(s) ==> var top := s.frames[|s.frames| - 1];
                       top.Emission? && s.slots[k].id == top.placeholder && |n.records| == |s.records| + 1)
  }

  /** Guard `j` is the emission whose placeholder is `id`. */
  predicate HeldBy(s: State, j: nat, id: nat) {
    j < |s.frames| && s.frames[j].Emission? && s.frames[j].placeholder == id
  }

  lemma UserEffect(s: State, a: Action) returns (e: Effect)
    requires Inv(s) && s.freed == 0 && Apply(s, a).freed == 0 && !a.Return? && !a.Throw? && !a.Continue?
    ensures HasEffect(s, a, Apply(s, a), e)
  {
    e := Keeps;
    if s.UserCode() {
      match a {
        case Connect(hollow, blocked) =>
          if s.handles > 0 { e := Appends(Node(s.nextId, if hollow then Hollow else Callable, blocked)); }
        case Block(id, blocked) =>
          var k := Find(s.slots, id);
          if k < |s.slots| { e := Changes(k, s.slots[k].(blocked := blocked)); }
        case DisconnectSlot(id) =>
          var k := Find(s.slots, id);
          if k < |s.slots| && !s.slots[k].Empty() {
            e := if s.exec_count == 0 then Erases(k) else Changes(k, s.slots[k].(kind := Invalidated));
          }
        case Emit =>
          if s.handles > 0 && s.slots != [] { e := Appends(Node(s.nextId, Placeholder, false)); }
        case _ =>
      }
    }
  }

  lemma EndEffect(s: State, a: Action, completed: bool) returns (e: Effect)
    requires Inv(s) && s.freed == 0 && s.frames != [] && s.frames[|s.frames| - 1].Emission?
    requires EndEmission(s, s.frames[|s.frames| - 1], completed).freed == 0
    ensures HasEffect(s, a, EndEmission(s, s.frames[|s.frames| - 1], completed), e)
    ensures e == Erases(|s.frames[|s.frames| - 1].begun|)
  {
    hide CountsOk, DeferredOk, RecordOk;
    var top := s.frames[|s.frames| - 1];
    assert EmissionOk(s.slots, top);
    FindAt(s.slots, s.nextId, |top.begun|);
    e := Erases(|top.begun|);
  }

  /** The innermost emission ends with this step. */
  predicate Ends(s: State, a: Action) {
    s.frames != [] &&
    var top := s.frames[|s.frames| - 1];
    top.Emission? && ((a.Throw? && top.calling) || (a.Continue? && !top.calling && top.it == top.placeholder))
  }

  lemma EndIs(s: State, a: Action)
    requires s.freed == 0 && (a.Return? || a.Throw? || a.Continue?) && Ends(s, a)
    ensures Apply(s, a) == EndEmission(s, s.frames[|s.frames| - 1], a.Continue?)
  {
    hide EndEmission;
  }

  /** A step of the library that ends no emission and does not sweep leaves the list alone. */
  lemma SlotsKept(s: State, a: Action)
    requires s.freed == 0 && (a.Return? || a.Throw? || a.Continue?) && !Ends(s, a) && Apply(s, a).freed == 0
    requires s.frames != [] && s.frames[|s.frames| - 1].Sweeping? ==> !a.Continue?
    ensures Apply(s, a).slots == s.slots
  {
    hide Find;
  }

  lemma LibraryEffect(s: State, a: Action) returns (e: Effect)
    requires Inv(s) && s.freed == 0 && (a.Return? || a.Throw? || a.Continue?) && Apply(s, a).freed == 0
    ensures HasEffect(s, a, Apply(s, a), e) && (e.Keeps? || e.Erases?)
  {
    hide Inv, Apply, EndEmission;
    if Ends(s, a) {
      EndIs(s, a);
      e := EndEffect(s, a, a.Continue?);
    } else if s.frames != [] && s.frames[|s.frames| - 1].Sweeping? && a.Continue? {
      e := SweepEffect(s);
    } else {
      SlotsKept(s, a);
      e := Keeps;
    }
  }

  lemma SweepEffect(s: State) returns (e: Effect)
    requires Inv(s) && s.freed == 0 && s.frames != [] && s.frames[|s.frames| - 1].Sweeping?
    requires Apply(s, Continue).freed == 0
    ensures HasEffect(s, Continue, Apply(s, Continue), e) && (e.Keeps? || e.Erases?)
  {
    hide EmissionOk, CountsOk, DeferredOk, RecordOk;
    e := Keeps;
    var next := s.frames[|s.frames| - 1].next;
    if next.Some? {
      var k := Find(s.slots, next.value);
      if s.slots[k].Empty() { e := Erases(k); }
    }
  }

  lemma StepEffect(s: State, a: Action) returns (e: Effect)
    requires Inv(s) && s.freed == 0 && Apply(s, a).freed == 0
    ensures HasEffect(s, a, Apply(s, a), e)
  {
    if a.Return? || a.Throw? || a.Continue? {
      e := LibraryEffect(s, a);
    } else {
      e := UserEffect(s, a);
    }
  }

  /** A node is still where it was, or has been erased by the step. */
  lemma EffectOn(s: State, a: Action, n: State, e: Effect, id: nat)
    requires Linked(s.slots, s.nextId) && HasEffect(s, a, n, e) && Present(s, id)
    requires !(e.Erases? && s.slots[e.at].id == id)
    ensures Present(n, id)
    ensures !(a.DisconnectSlot? && a.id == id) ==> n.slots[Find(n.slots, id)].kind == s.slots[Find(s.slots, id)].kind
  {
    if e.Erases? {
      EraseFinds(s.slots, s.nextId, e.at, id);
    } else {
      FindSame(s.slots, n.slots, id);
    }
  }

  /** While an emission is open, no node is unlinked except the placeholder of the one that ends. */
  lemma NothingUnlinkedWhileEmitting(s: State, a: Action, id: nat)
    requires Reachable(s) && Emitting(s) && Present(s, id)
    requires Apply(s, a).freed == 0 && !Present(Apply(s, a), id)
    ensures var top := s.frames[|s.frames| - 1]; top.Emission? && id == top.placeholder
    ensures |Apply(s, a).records| == |s.records| + 1
  {
    ReachableInv(s);
    var e := StepEffect(s, a);
    if !(e.Erases? && s.slots[e.at].id == id) { EffectOn(s, a, Apply(s, a), e, id); }
  }

  // ----- which empty slots are left -----

  ghost predicate Held(s: State, id: nat) { exists j: nat :: HeldBy(s, j, id) }

  /** Each placeholder belongs to an open emission. */
  ghost predicate PlaceholdersHeld(s: State) {
    forall i :: 0 <= i < |s.slots| && s.slots[i].kind == Placeholder ==> Held(s, s.slots[i].id)
  }

  /** An open emission stays open, or it ends and its placeholder goes. */
  lemma GuardStays(s: State, a: Action, j: nat, id: nat)
    requires Inv(s) && s.freed == 0 && Apply(s, a).freed == 0 && HeldBy(s, j, id)
    ensures HeldBy(Apply(s, a), j, id) || (Present(s, id) && !Present(Apply(s, a), id))
  {
    hide RecordOk, CountsOk, DeferredOk;
    if a.Return? || a.Throw? || a.Continue? {
      GuardStaysLibrary(s, a, j, id);
    }
  }

  lemma GuardStaysLibrary(s: State, a: Action, j: nat, id: nat)
    requires Inv(s) && s.freed == 0 && (a.Return? || a.Throw? || a.Continue?) && Apply(s, a).freed == 0 && HeldBy(s, j, id)
    ensures HeldBy(Apply(s, a), j, id) || (Present(s, id) && !Present(Apply(s, a), id))
  {
    hide Inv, Apply, LeaveExec, HeldBy, Present, EndEmission;
    HeldIs(s, j, id);
    var top := s.frames[|s.frames| - 1];
    if Ends(s, a) {
      EndIs(s, a);
      if j == |s.frames| - 1 {
        PlaceholderGoes(s, a.Continue?);
      } else {
        EndKeeps(s, a.Continue?, j, id);
      }
    } else if top.Emission? {
      AdvanceKeeps(s, a, j, id);
    } else if a.Continue? {
      SweepKeeps(s, j, id);
    } else {
      NotHere(s, a);
    }
  }

  lemma NotHere(s: State, a: Action)
    requires s.frames != [] && !s.frames[|s.frames| - 1].Emission? && (a.Return? || a.Throw?)
    ensures Apply(s, a) == s
  {
  }

  lemma HeldIs(s: State, j: nat, id: nat)
    requires HeldBy(s, j, id)
    ensures j < |s.frames| && s.frames[j].Emission? && s.frames[j].placeholder == id
  {
  }

  lemma LeaveKeeps(s: State, j: nat, id: nat)
    requires HeldBy(s, j, id) && j < |s.frames| - 1
    ensures HeldBy(LeaveExec(s), j, id)
  {
  }

  lemma EndKeeps(s: State, completed: bool, j: nat, id: nat)
    requires HeldBy(s, j, id) && j < |s.frames| - 1 && s.frames[|s.frames| - 1].Emission?
    ensures HeldBy(EndEmission(s, s.frames[|s.frames| - 1], completed), j, id)
  {
    hide LeaveExec;
    var f := s.frames[|s.frames| - 1];
    var k := Find(s.slots, f.placeholder);
    if k < |s.slots| {
      LeaveKeeps(s.(slots := EraseAt(s.slots, k), records := s.records + [Record(f.placeholder, f.begun, f.visits, completed)]), j, id);
    }
  }

  /** An emission that goes on, or whose handler returns. */
  lemma AdvanceKeeps(s: State, a: Action, j: nat, id: nat)
    requires s.freed == 0 && (a.Return? || a.Throw? || a.Continue?) && HeldBy(s, j, id)
    requires s.frames[|s.frames| - 1].Emission? && !Ends(s, a)
    ensures HeldBy(Apply(s, a), j, id)
  {
    hide Advance, WithTop;
    var top := s.frames[|s.frames| - 1];
    if a.Continue? && !top.calling {
      GoesOn(s, j, id);
    } else {
      TopKeeps(s, top.(calling := false), j, id);
    }
  }

  lemma GoesOn(s: State, j: nat, id: nat)
    requires HeldBy(s, j, id) && s.frames[|s.frames| - 1].Emission?
    requires s.frames[|s.frames| - 1].it != s.frames[|s.frames| - 1].placeholder
    ensures HeldBy(Advance(s, s.frames[|s.frames| - 1]), j, id)
  {
    hide Find, WithTop;
    var f := s.frames[|s.frames| - 1];
    var k := Find(s.slots, f.it);
    if k + 1 < |s.slots| {
      var called := !s.slots[k].Empty() && !s.slots[k].blocked;
      TopKeeps(s, f.(it := s.slots[k + 1].id, calling := called, visits := f.visits + [Visit(s.slots[k], called)]), j, id);
    }
  }

  lemma TopKeeps(s: State, g: Frame, j: nat, id: nat)
    requires HeldBy(s, j, id) && s.frames[|s.frames| - 1].Emission?
    requires g.Emission? && g.placeholder == s.frames[|s.frames| - 1].placeholder
    ensures HeldBy(WithTop(s, g), j, id)
  {
  }

  lemma SweepKeeps(s: State, j: nat, id: nat)
    requires s.freed == 0 && HeldBy(s, j, id) && !s.frames[|s.frames| - 1].Emission?
    ensures HeldBy(Apply(s, Continue), j, id)
  {
    hide Find, LeaveExec;
    LeaveKeeps(s, j, id);
  }

  lemma PlaceholderGoes(s: State, completed: bool)
    requires Inv(s) && s.freed == 0 && s.frames != [] && s.frames[|s.frames| - 1].Emission?
    requires EndEmission(s, s.frames[|s.frames| - 1], completed).freed == 0
    ensures var top := s.frames[|s.frames| - 1];
            Present(s, top.placeholder) && !Present(EndEmission(s, top, completed), top.placeholder)
  {
    var top := s.frames[|s.frames| - 1];
    var e := EndEffect(s, Continue, completed);
    assert EmissionOk(s.slots, top);
    FindAt(s.slots, s.nextId, |top.begun|);
    EraseGone(s.slots, s.nextId, |top.begun|);
  }

  lemma EraseGone(slots: seq<Node>, nextId: nat, k: nat)
    requires Linked(slots, nextId) && k < |slots|
    ensures Find(EraseAt(slots, k), slots[k].id) == |slots| - 1
  {
    var rest, id := EraseAt(slots, k), slots[k].id;
    assert forall i :: 0 <= i < |rest| ==> rest[i] == slots[if i < k then i else i + 1];
    assert forall i :: 0 <= i < |rest| ==> rest[i].id != id;
  }

  /** A node that was in the list before the step and still is, or the node the step appended. */
  lemma NodeFrom(s: State, a: Action, n: State, e: Effect, i: nat)
    requires Linked(s.slots, s.nextId) && HasEffect(s, a, n, e) && i < |n.slots|
    ensures (e.Appends? && n.slots[i] == e.node) ||
            exists k :: 0 <= k < |s.slots| && s.slots[k].id == n.slots[i].id &&
                        (s.slots[k].kind == n.slots[i].kind || n.slots[i].kind == Invalidated)
  {
    var k := if e.Erases? && i >= e.at then i + 1 else i;
    assert (e.Appends? && i == |s.slots|) || (k < |s.slots| && s.slots[k].id == n.slots[i].id);
  }

  lemma StepHolds(s: State, a: Action)
    requires Inv(s) && PlaceholdersHeld(s) && s.freed == 0 && Apply(s, a).freed == 0
    ensures PlaceholdersHeld(Apply(s, a))
  {
    hide Inv;
    var n := Apply(s, a);
    assert Linked(s.slots, s.nextId) && Linked(n.slots, n.nextId) by { ListsLinked(s, a); }
    var e := StepEffect(s, a);
    forall i | 0 <= i < |n.slots| && n.slots[i].kind == Placeholder
      ensures Held(n, n.slots[i].id)
    {
      NodeFrom(s, a, n, e, i);
      if !(e.Appends? && n.slots[i] == e.node) {
        var k :| 0 <= k < |s.slots| && s.slots[k].id == n.slots[i].id && s.slots[k].kind == Placeholder;
        var j: nat :| HeldBy(s, j, s.slots[k].id);
        GuardStays(s, a, j, s.slots[k].id);
        FindAt(n.slots, n.nextId, i);
      }
    }
  }

  lemma ListsLinked(s: State, a: Action)
    requires Inv(s)
    ensures Linked(s.slots, s.nextId) && Linked(Apply(s, a).slots, Apply(s, a).nextId)
  {
    hide Apply, CountsOk, FramesOk, DeferredOk, RecordOk;
    ApplyInv(s, a);
  }

  lemma FreedStays(s: State, a: Action)
    ensures Apply(s, a).freed >= s.freed
  {
  }

  lemma {:induction false} FreedStaysLong(s: State, actions: seq<Action>)
    ensures Exec(s, actions).freed >= s.freed
    decreases actions
  {
    hide Apply;
    if actions != [] {
      FreedStays(s, actions[0]);
      FreedStaysLong(Apply(s, actions[0]), actions[1..]);
    }
  }

  lemma {:induction false} ExecHolds(s: State, actions: seq<Action>)
    requires Inv(s) && PlaceholdersHeld(s) && Exec(s, actions).freed == 0
    ensures PlaceholdersHeld(Exec(s, actions))
    decreases actions
  {
    hide Inv, Apply, PlaceholdersHeld;
    if actions != [] {
      FreedStaysLong(Apply(s, actions[0]), actions[1..]);
      FreedStays(s, actions[0]);
      StepHolds(s, actions[0]);
      ApplyInv(s, actions[0]);
      ExecHolds(Apply(s, actions[0]), actions[1..]);
    }
  }

  /**
   With no guard open, every invalidated slot has been swept and no placeholder is left, so that the
   only empty slots are those connected empty; and the slots stand in connection order.
   */
  lemma QuietMeansSwept(s: State)
    requires Reachable(s) && s.freed == 0 && s.frames == []
    ensures !s.deferred && s.exec_count == 0
    ensures forall i :: 0 <= i < |s.slots| ==> s.slots[i].kind in {Callable, Hollow}
    ensures forall i, j :: 0 <= i < j < |s.slots| ==> s.slots[i].id < s.slots[j].id
  {
    ReachableInv(s);
    var actions :| s == Exec(INIT, actions);
    InitInv();
    ExecHolds(INIT, actions);
  }

  /** A slot connected empty stays as it is, unless the step is the turn of a sweep at it. */
  lemma HollowStep(s: State, a: Action, id: nat)
    requires Inv(s) && s.freed == 0 && Apply(s, a).freed == 0
    requires Present(s, id) && s.slots[Find(s.slots, id)].kind == Hollow
    ensures SweepsAt(s, a, id) ==> !Present(Apply(s, a), id)
    ensures !SweepsAt(s, a, id) ==>
              Present(Apply(s, a), id) && Apply(s, a).slots[Find(Apply(s, a).slots, id)].kind == Hollow
  {
    hide RecordOk, CountsOk, DeferredOk, EmissionOk;
    var e := StepEffect(s, a);
    if SweepsAt(s, a, id) {
      EraseGone(s.slots, s.nextId, Find(s.slots, id));
    } else {
      if e.Erases? { FindAt(s.slots, s.nextId, e.at); }
      HollowKept(s, a, Apply(s, a), e, id);
    }
  }

  lemma HollowKept(s: State, a: Action, n: State, e: Effect, id: nat)
    requires Linked(s.slots, s.nextId) && HasEffect(s, a, n, e) && Present(s, id)
    requires s.slots[Find(s.slots, id)].kind == Hollow
    requires !(e.Erases? && s.slots[e.at].id == id)
    ensures Present(n, id) && n.slots[Find(n.slots, id)].kind == Hollow
  {
    if e.Erases? {
      EraseFinds(s.slots, s.nextId, e.at, id);
    } else {
      FindSame(s.slots, n.slots, id);
    }
  }

  /** A node that is gone does not come back. */
  lemma GoneStays(s: State, a: Action, id: nat)
    requires Inv(s) && s.freed == 0 && Apply(s, a).freed == 0 && id < s.nextId && !Present(s, id)
    ensures !Present(Apply(s, a), id) && id < Apply(s, a).nextId
  {
    hide Inv, Apply;
    var e := StepEffect(s, a);
    ListsLinked(s, a);
    IdsGrow(s, a);
    StillGone(s, a, Apply(s, a), e, id);
  }

  lemma StillGone(s: State, a: Action, n: State, e: Effect, id: nat)
    requires Linked(s.slots, s.nextId) && HasEffect(s, a, n, e) && id < s.nextId && !Present(s, id)
    ensures !Present(n, id)
  {
    var i := Find(n.slots, id);
    if i < |n.slots| { NodeFrom(s, a, n, e, i); }
  }

  /** Along a run, some step is the turn of a sweep at the node. */
  ghost predicate Passed(s: State, actions: seq<Action>, id: nat)
    decreases actions
  {
    actions != [] && (SweepsAt(s, actions[0], id) || Passed(Apply(s, actions[0]), actions[1..], id))
  }

  lemma {:induction false} GoneForGood(s: State, actions: seq<Action>, id: nat)
    requires Inv(s) && Exec(s, actions).freed == 0 && id < s.nextId && !Present(s, id)
    ensures !Present(Exec(s, actions), id)
    decreases actions
  {
    hide Inv, Apply, Present;
    if actions != [] {
      FreedStaysLong(Apply(s, actions[0]), actions[1..]);
      FreedStays(s, actions[0]);
      GoneStays(s, actions[0], id);
      ApplyInv(s, actions[0]);
      GoneForGood(Apply(s, actions[0]), actions[1..], id);
    }
  }

  /** A slot connected empty is left exactly as long as no sweep has passed it. */
  lemma {:induction false} HollowLeftIff(s: State, actions: seq<Action>, id: nat)
    requires Inv(s) && Exec(s, actions).freed == 0
    requires Present(s, id) && s.slots[Find(s.slots, id)].kind == Hollow
    ensures var n := Exec(s, actions);
            (Present(n, id) <==> !Passed(s, actions, id)) &&
            (Present(n, id) ==> n.slots[Find(n.slots, id)].kind == Hollow)
    decreases actions
  {
    hide Inv, Apply, SweepsAt;
    if actions != [] {
      FreedStaysLong(Apply(s, actions[0]), actions[1..]);
      FreedStays(s, actions[0]);
      HollowStep(s, actions[0], id);
      PresentIds(s, actions[0], id);
      if SweepsAt(s, actions[0], id) {
        GoneForGood(Apply(s, actions[0]), actions[1..], id);
      } else {
        HollowLeftIff(Apply(s, actions[0]), actions[1..], id);
      }
    }
  }

  lemma PresentIds(s: State, a: Action, id: nat)
    requires Inv(s) && Present(s, id)
    ensures Inv(Apply(s, a)) && id < Apply(s, a).nextId
  {
    hide Inv;
    ApplyInv(s, a);
    ListsLinked(s, a);
    IdsGrow(s, a);
  }

  lemma IdsGrow(s: State, a: Action)
    ensures Apply(s, a).nextId >= s.nextId
  {
    hide Find;
  }

  /** Sweeping is only due after a disconnect: a slot that was empty when connected stays. */
  lemma HollowStays()
    ensures var s := Exec(INIT, [Connect(true, false)]);
            s.frames == [] && s.freed == 0 && |s.slots| == 1 && s.slots[0].Empty()
  {
    assert Exec(INIT, [Connect(true, false)]) == Exec(Apply(INIT, Connect(true, false)), []);
  }

  lemma {:induction false} ExecLast(s: State, actions: seq<Action>, a: Action)
    ensures Exec(s, actions + [a]) == Apply(Exec(s, actions), a)
    decreases actions
  {
    hide Apply;
    if actions == [] {
      assert ([] + [a])[1..] == [];
      assert Exec(Apply(s, a), []) == Apply(s, a);
    } else {
      assert (actions + [a])[1..] == actions[1..] + [a];
      ExecLast(Apply(s, actions[0]), actions[1..], a);
    }
  }

  /** Action `i` of the run connects the node `id`, empty. */
  ghost predicate ConnectedEmpty(actions: seq<Action>, i: nat, id: nat) {
    i < |actions| && ConnectsEmpty(Exec(INIT, actions[..i]), actions[i], id)
  }

  /** Every hollow node of the list was connected empty at some step of the run. */
  lemma {:induction false} Origin(actions: seq<Action>, k: nat)
    requires var n := Exec(INIT, actions); n.freed == 0 && k < |n.slots| && n.slots[k].kind == Hollow
    ensures exists i: nat :: ConnectedEmpty(actions, i, Exec(INIT, actions).slots[k].id)
    decreases |actions|
  {
    hide Inv, Apply, ConnectsEmpty;
    if actions != [] {
      var before, a := actions[..|actions| - 1], actions[|actions| - 1];
      assert actions == before + [a];
      var s, n := Exec(INIT, before), Exec(INIT, actions);
      ExecLast(INIT, before, a);
      FreedStays(s, a);
      InitInv();
      ExecInv(INIT, before);
      var e := StepEffect(s, a);
      ListsLinked(s, a);
      NodeFrom(s, a, n, e, k);
      if e.Appends? && n.slots[k] == e.node {
        assert ConnectedEmpty(actions, |actions| - 1, n.slots[k].id);
      } else {
        var j :| 0 <= j < |s.slots| && s.slots[j].id == n.slots[k].id && s.slots[j].kind == Hollow;
        Origin(before, j);
        var i: nat :| ConnectedEmpty(before, i, s.slots[j].id);
        assert before[..i] == actions[..i];
        assert ConnectedEmpty(actions, i, n.slots[k].id);
      }
    }
  }

  /** Without connecting empty slots, no empty slot is left when the outermost guard has closed. */
  lemma NoneLeft(actions: seq<Action>, k: nat)
    requires forall i :: 0 <= i < |actions| ==> !(actions[i].Connect? && actions[i].hollow)
    requires var n := Exec(INIT, actions); n.freed == 0 && n.frames == [] && k < |n.slots|
    ensures Exec(INIT, actions).slots[k].kind == Callable
  {
    var n := Exec(INIT, actions);
    QuietMeansSwept(n);
    if n.slots[k].kind == Hollow { Origin(actions, k); }
  }

  /** The step disconnects a callable slot while a guard is open. */
  predicate Defers(s: State, a: Action) {
    && a.DisconnectSlot? && s.UserCode() && s.frames != []
    && Find(s.slots, a.id) < |s.slots| && !s.slots[Find(s.slots, a.id)].Empty()
  }

  /** A sweep is due, or under way and not yet behind the node. */
  predicate Pending(s: State, id: nat) {
    || s.deferred
    || (s.frames != [] && s.frames[0].Sweeping? && s.frames[0].next.Some? && s.frames[0].next.value <= id)
  }

  lemma LeavePending(s: State, id: nat)
    requires Linked(s.slots, s.nextId) && s.exec_count == |s.frames| > 0 && Present(s, id) && LeaveExec(s).freed == 0 == s.freed
    requires var top := s.frames[|s.frames| - 1]; top.Sweeping? ==> top.next.None?
    ensures Pending(LeaveExec(s), id) == Pending(s, id)
  {
  }

  lemma EndPending(s: State, completed: bool, id: nat)
    requires Inv(s) && s.freed == 0 && s.frames != [] && s.frames[|s.frames| - 1].Emission? && Present(s, id)
    requires EndEmission(s, s.frames[|s.frames| - 1], completed).freed == 0 && s.frames[|s.frames| - 1].placeholder != id
    ensures Pending(EndEmission(s, s.frames[|s.frames| - 1], completed), id) == Pending(s, id)
  {
    hide LeaveExec, DeferredOk, RecordOk;
    var top := s.frames[|s.frames| - 1];
    assert EmissionOk(s.slots, top);
    var k := |top.begun|;
    FindAt(s.slots, s.nextId, k);
    EraseLinked(s.slots, s.nextId, k);
    EraseFinds(s.slots, s.nextId, k, id);
    LeavePending(s.(slots := EraseAt(s.slots, k), records := s.records + [Record(top.placeholder, top.begun, top.visits, completed)]), id);
  }

  lemma SweepPending(s: State, id: nat)
    requires Inv(s) && s.freed == 0 && |s.frames| == 1 && s.frames[0].Sweeping? && Present(s, id)
    requires Apply(s, Continue).freed == 0 && s.frames[0].next != Some(id)
    ensures Pending(Apply(s, Continue), id) == Pending(s, id)
  {
    hide LeaveExec, DeferredOk, RecordOk, EmissionOk;
    var next := s.frames[0].next;
    if next.None? {
      LeavePending(s, id);
    } else {
      var k := Find(s.slots, next.value);
      assert Apply(s, Continue).frames == [Sweeping(IdAt(s.slots, k + 1))];
      NextInLine(s.slots, s.nextId, k, id);
    }
  }

  lemma NextInLine(slots: seq<Node>, nextId: nat, k: nat, id: nat)
    requires Linked(slots, nextId) && k < |slots| && Find(slots, id) < |slots| && slots[k].id != id
    ensures slots[k].id <= id <==> IdAt(slots, k + 1).Some? && IdAt(slots, k + 1).value <= id
  {
    var j := Find(slots, id);
  }

  lemma Counted(s: State)
    requires Inv(s) && s.freed == 0
    ensures s.exec_count == |s.frames| && Linked(s.slots, s.nextId)
  {
  }

  lemma LibraryPending(s: State, a: Action, id: nat)
    requires Inv(s) && s.freed == 0 && Apply(s, a).freed == 0 && (a.Return? || a.Throw? || a.Continue?)
    requires Present(s, id) && s.slots[Find(s.slots, id)].kind == Hollow && !SweepsAt(s, a, id)
    ensures Pending(Apply(s, a), id) == Pending(s, id)
  {
    hide EndEmission, LeaveExec, CountsOk, DeferredOk, RecordOk, Linked;
    if s.frames != [] {
      var top := s.frames[|s.frames| - 1];
      if Ends(s, a) {
        EndIs(s, a);
        assert EmissionOk(s.slots, top);
        FindAt(s.slots, s.nextId, |top.begun|);
        EndPending(s, a.Continue?, id);
      } else if top.Emission? {
        AdvancePending(s, a, id);
      } else if top.Sweeping? && a.Continue? {
        SweepPending(s, id);
      } else if a.Continue? {
        Counted(s);
        LeavePending(s, id);
      }
    }
  }

  lemma AdvancePending(s: State, a: Action, id: nat)
    requires s.freed == 0 && (a.Return? || a.Throw? || a.Continue?) && s.frames != []
    requires s.frames[|s.frames| - 1].Emission? && !Ends(s, a)
    ensures Pending(Apply(s, a), id) == Pending(s, id)
  {
    hide Find;
  }

  lemma UserPending(s: State, a: Action, id: nat)
    requires Inv(s) && s.freed == 0 && !a.Return? && !a.Throw? && !a.Continue?
    ensures Pending(Apply(s, a), id) == (Pending(s, id) || Defers(s, a))
  {
    hide Find, Linked, FramesOk, DeferredOk, RecordOk;
  }

  /** A node connected empty is erased by a step that finds a sweep pending at it, or stays. */
  lemma StepPending(s: State, a: Action, id: nat)
    requires Inv(s) && s.freed == 0 && Apply(s, a).freed == 0
    requires Present(s, id) && s.slots[Find(s.slots, id)].kind == Hollow
    ensures var n := Apply(s, a);
            if Present(n, id) then n.slots[Find(n.slots, id)].kind == Hollow && Pending(n, id) == (Pending(s, id) || Defers(s, a))
            else Pending(s, id)
  {
    hide Inv, Apply, Find;
    HollowStep(s, a, id);
    if SweepsAt(s, a, id) {
      SweepingAtBottom(s);
    } else if a.Return? || a.Throw? || a.Continue? {
      LibraryPending(s, a, id);
    } else {
      UserPending(s, a, id);
    }
  }

  lemma SweepingAtBottom(s: State)
    requires Inv(s)
    ensures forall i :: 0 < i < |s.frames| ==> !s.frames[i].Sweeping?
  {
  }

  /** Step `j` of the run disconnects a callable slot while a guard is open. */
  ghost predicate DefersAt(s: State, actions: seq<Action>, j: nat) {
    j < |actions| && Defers(Exec(s, actions[..j]), actions[j])
  }

  lemma DefersLater(s: State, actions: seq<Action>, j: nat)
    requires actions != []
    ensures DefersAt(s, actions, 0) == Defers(s, actions[0])
    ensures j > 0 ==> DefersAt(s, actions, j) == DefersAt(Apply(s, actions[0]), actions[1..], j - 1)
  {
    hide Apply, Defers;
    if 0 < j < |actions| { assert actions[..j][1..] == actions[1..][..j - 1]; }
  }

  lemma SomeDefers(s: State, actions: seq<Action>)
    requires actions != []
    ensures (exists j: nat :: DefersAt(s, actions, j)) <==>
            Defers(s, actions[0]) || exists j: nat :: DefersAt(Apply(s, actions[0]), actions[1..], j)
  {
    hide DefersAt, Defers, Apply;
    if j: nat :| DefersAt(s, actions, j) { DefersLater(s, actions, j); }
    if j: nat :| DefersAt(Apply(s, actions[0]), actions[1..], j) { DefersLater(s, actions, j + 1); }
    DefersLater(s, actions, 0);
  }

  lemma {:induction false} LeftAtQuiet(s: State, actions: seq<Action>, id: nat)
    requires Inv(s) && Exec(s, actions).freed == 0 && Exec(s, actions).frames == []
    requires Present(s, id) && s.slots[Find(s.slots, id)].kind == Hollow
    ensures var n := Exec(s, actions);
            (Present(n, id) <==> !Pending(s, id) && !exists j: nat :: DefersAt(s, actions, j)) &&
            (Present(n, id) ==> n.slots[Find(n.slots, id)].kind == Hollow)
    decreases actions
  {
    hide Inv, Apply, Pending, Defers, DefersAt;
    if actions == [] {
      QuietNotPending(s, id);
      NoneAtAll(s);
    } else {
      FreedStaysLong(Apply(s, actions[0]), actions[1..]);
      FreedStays(s, actions[0]);
      StepPending(s, actions[0], id);
      PresentIds(s, actions[0], id);
      SomeDefers(s, actions);
      if Present(Apply(s, actions[0]), id) {
        LeftAtQuiet(Apply(s, actions[0]), actions[1..], id);
      } else {
        GoneForGood(Apply(s, actions[0]), actions[1..], id);
      }
    }
  }

  lemma QuietNotPending(s: State, id: nat)
    requires Inv(s) && s.freed == 0 && s.frames == []
    ensures !Pending(s, id)
  {
  }

  lemma NoneAtAll(s: State)
    ensures !exists j: nat :: DefersAt(s, [], j)
  {
  }

  /** The run up to step `i`, and from then on. */
  ghost predicate LeftSince(actions: seq<Action>, i: nat, id: nat) {
    && ConnectedEmpty(actions, i, id) && !Pending(Exec(INIT, actions[..i + 1]), id)
    && forall j: nat :: i < j ==> !DefersAt(INIT, actions, j)
  }

  /**
   An empty slot is left when the outermost guard has closed exactly if it was connected empty, no
   sweep was due or under way then, and no callable slot was disconnected since while a guard was open.
   */
  lemma EmptyLeftIff(actions: seq<Action>, id: nat)
    requires var n := Exec(INIT, actions); n.freed == 0 && n.frames == []
    ensures var n := Exec(INIT, actions);
            Present(n, id) && n.slots[Find(n.slots, id)].Empty() <==> exists i: nat :: LeftSince(actions, i, id)
  {
    hide Apply, Inv, LeftSince, ConnectsEmpty;
    var n := Exec(INIT, actions);
    if Present(n, id) && n.slots[Find(n.slots, id)].Empty() {
      QuietMeansSwept(n);
      Origin(actions, Find(n.slots, id));
      var i: nat :| ConnectedEmpty(actions, i, id);
      LeftFrom(actions, i, id);
    }
    forall i: nat | LeftSince(actions, i, id)
      ensures Present(n, id) && n.slots[Find(n.slots, id)].Empty()
    {
      IsConnected(actions, i, id);
      LeftFrom(actions, i, id);
    }
  }

  lemma IsConnected(actions: seq<Action>, i: nat, id: nat)
    requires LeftSince(actions, i, id)
    ensures ConnectedEmpty(actions, i, id)
  {
  }

  lemma LeftFrom(actions: seq<Action>, i: nat, id: nat)
    requires var n := Exec(INIT, actions); n.freed == 0 && n.frames == []
    requires ConnectedEmpty(actions, i, id)
    ensures var n := Exec(INIT, actions);
            (Present(n, id) <==> LeftSince(actions, i, id)) &&
            (Present(n, id) ==> n.slots[Find(n.slots, id)].kind == Hollow)
  {
    hide Inv, Apply, Pending, Defers, DefersAt, ConnectsEmpty;
    var before, after := actions[..i], actions[i + 1..];
    assert actions[..i + 1] == before + [actions[i]];
    ExecLast(INIT, before, actions[i]);
    assert actions == actions[..i + 1] + after;
    ExecSplit(INIT, actions[..i + 1], after);
    InitInv();
    ExecInv(INIT, before);
    ExecInv(INIT, actions[..i + 1]);
    Connected(Exec(INIT, before), actions[i], id);
    LeftAtQuiet(Exec(INIT, actions[..i + 1]), after, id);
    AfterStep(actions, i + 1);
  }

  /** Steps of the rest of a run are later steps of the run. */
  lemma AfterStep(actions: seq<Action>, i: nat)
    requires i <= |actions|
    ensures (exists j: nat :: DefersAt(Exec(INIT, actions[..i]), actions[i..], j)) <==>
            exists j: nat :: i <= j && DefersAt(INIT, actions, j)
  {
    hide DefersAt;
    if j: nat :| DefersAt(Exec(INIT, actions[..i]), actions[i..], j) { SameStep(actions, i, j); }
    if j: nat :| i <= j && DefersAt(INIT, actions, j) { SameStep(actions, i, j - i); }
  }

  lemma SameStep(actions: seq<Action>, i: nat, j: nat)
    requires i <= |actions|
    ensures DefersAt(Exec(INIT, actions[..i]), actions[i..], j) <==> DefersAt(INIT, actions, i + j)
  {
    hide Apply, Defers;
    if i + j < |actions| {
      assert actions[..i + j] == actions[..i] + actions[i..][..j];
      ExecSplit(INIT, actions[..i], actions[i..][..j]);
    }
  }

  lemma Connected(s: State, a: Action, id: nat)
    requires Inv(s) && ConnectsEmpty(s, a, id)
    ensures var n := Apply(s, a); Present(n, id) && n.slots[Find(n.slots, id)].kind == Hollow
  {
    var n := Apply(s, a);
    ListsLinked(s, a);
    FindAt(n.slots, n.nextId, |s.slots|);
  }

  lemma {:induction false} ExecSplit(s: State, a: seq<Action>, b: seq<Action>)
    ensures Exec(s, a + b) == Exec(Exec(s, a), b)
    decreases a
  {
    hide Apply;
    if a == [] {
      assert a + b == b;
    } else {
      assert (a + b)[1..] == a[1..] + b;
      ExecSplit(Apply(s, a[0]), a[1..], b);
    }
  }

  /** A callable slot stays in the list, callable, until it is disconnected or the signal is deleted. */
  lemma CallableStays(s: State, a: Action, id: nat)
    requires Reachable(s) && Present(s, id) && s.slots[Find(s.slots, id)].kind == Callable
    requires Apply(s, a).freed == 0 && !(a.DisconnectSlot? && a.id == id)
    ensures Present(Apply(s, a), id) && Apply(s, a).slots[Find(Apply(s, a).slots, id)].kind == Callable
  {
    ReachableInv(s);
    var e := StepEffect(s, a);
    if e.Erases? { FindAt(s.slots, s.nextId, e.at); }
    EffectOn(s, a, Apply(s, a), e, id);
  }

  /** The counters count handles and open guards; the signal is deleted once, when the last of either goes. */
  lemma CountersAndDeletion(s: State)
    requires Reachable(s)
    ensures s.ref_count == s.handles + |s.frames|
    ensures s.freed == 0 ==> s.exec_count == |s.frames|
    ensures s.freed <= 1 && (s.freed == 1 <==> s.handles == 0 && s.frames == [])
  {
    ReachableInv(s);
  }

  // ----- a sweep on its own -----

  function NonEmpty(slots: seq<Node>): (kept: seq<Node>)
    ensures |kept| <= |slots|
  {
    if slots == [] then [] else (if slots[0].Empty() then [] else [slots[0]]) + NonEmpty(slots[1..])
  }

  function Continues(n: nat): seq<Action> { seq(n, _ => Continue) }

  lemma ContinueOnce(s: State, n: nat)
    ensures Exec(s, Continues(n + 1)) == Exec(Apply(s, Continue), Continues(n))
  {
    assert Continues(n + 1)[1..] == Continues(n);
  }

  lemma SweepLast(s: State)
    requires Inv(s) && s.freed == 0 && |s.frames| == 1 && s.frames[0] == Sweeping(None) && !s.deferred && s.handles > 0
    ensures var k := SweepFrom(s.slots, s.frames); s.slots[..k] + NonEmpty(s.slots[k..]) == s.slots
    ensures Exec(s, Continues(1)) == s.(frames := [], ref_count := s.ref_count - 1, exec_count := 0)
  {
    hide Linked, RecordOk, EmissionOk, DeferredOk;
    ContinueOnce(s, 0);
    assert s.frames[..0] == [];
    assert s.slots[..|s.slots|] + NonEmpty(s.slots[|s.slots|..]) == s.slots;
  }

  /** Left to itself a sweep ends, and it has removed every empty slot from its position on. */
  lemma {:induction false} SweepEnds(s: State) returns (n: nat)
    requires Inv(s) && s.freed == 0 && |s.frames| == 1 && s.frames[0].Sweeping? && !s.deferred && s.handles > 0
    ensures var k := SweepFrom(s.slots, s.frames);
            Exec(s, Continues(n)) == s.(slots := s.slots[..k] + NonEmpty(s.slots[k..]), frames := [],
                                        ref_count := s.ref_count - 1, exec_count := 0)
    decreases |s.slots| - SweepFrom(s.slots, s.frames), s.frames[0].next.Some?
  {
    hide Inv, Apply, NonEmpty, Exec, Continues;
    if s.frames[0].next.None? {
      n := 1;
      SweepLast(s);
    } else {
      var k := SweepFrom(s.slots, s.frames);
      ApplyInv(s, Continue);
      SweepStep(s, k);
      var m := SweepEnds(Apply(s, Continue));
      n := m + 1;
      ContinueOnce(s, m);
    }
  }

  /** One turn of a sweep leaves what it has passed and what it will keep as they are. */
  lemma SweepStep(s: State, k: nat)
    requires Inv(s) && s.freed == 0 && |s.frames| == 1 && s.frames[0].Sweeping? && s.frames[0].next.Some?
    requires k == SweepFrom(s.slots, s.frames)
    ensures var n := Apply(s, Continue);
            var k' := SweepFrom(n.slots, n.frames);
            n == s.(slots := n.slots, frames := n.frames) && |n.frames| == 1 && n.frames[0].Sweeping? &&
            |n.slots| - k' == |s.slots| - k - 1 &&
            n.slots[..k'] + NonEmpty(n.slots[k'..]) == s.slots[..k] + NonEmpty(s.slots[k..])
  {
    hide RecordOk, CountsOk, EmissionOk, NonEmpty, DeferredOk;
    var n := Apply(s, Continue);
    assert n.frames == [Sweeping(IdAt(s.slots, k + 1))];
    KeepRest(s.slots, k);
    if s.slots[k].Empty() {
      ErasedRest(s.slots, s.nextId, k);
    } else {
      SweepAt(s.slots, s.nextId, k + 1);
    }
  }

  lemma ErasedRest(slots: seq<Node>, nextId: nat, k: nat)
    requires Linked(slots, nextId) && k < |slots|
    ensures var rest := EraseAt(slots, k);
            && SweepFrom(rest, [Sweeping(IdAt(slots, k + 1))]) == k
            && rest[..k] == slots[..k] && rest[k..] == slots[k + 1..]
  {
    var rest := EraseAt(slots, k);
    EraseLinked(slots, nextId, k);
    SweepAt(rest, nextId, k);
    assert IdAt(rest, k) == IdAt(slots, k + 1);
  }

  lemma KeepRest(slots: seq<Node>, k: nat)
    requires k < |slots|
    ensures slots[..k] + NonEmpty(slots[k..]) ==
            (if slots[k].Empty() then slots[..k] else slots[..k + 1]) + NonEmpty(slots[k + 1..])
  {
    assert slots[k..][1..] == slots[k + 1..];
    assert slots[..k + 1] == slots[..k] + [slots[k]];
  }

  // ----- signal_impl itself, when the destructors of slots run no user code -----

  lemma {:induction false} NonEmptyAll(slots: seq<Node>)
    requires forall i :: 0 <= i < |slots| ==> !slots[i].Empty()
    ensures NonEmpty(slots) == slots
  {
    if slots != [] { NonEmptyAll(slots[1..]); }
  }

  /** The fields of a signal_impl. */
  datatype Fields = Fields(slots: seq<Node>, ref_count: int, exec_count: int, deferred: bool)

  /**
   What notify() does when the slot at `k` has become invalid: with no execution open its node is gone,
   and a sweep that was due is done; else it stays, invalid, and sweeping is due.
   */
  ghost predicate Notified(was: Fields, now: Fields, k: nat) {
    && k < |was.slots| && now.ref_count == was.ref_count && now.exec_count == was.exec_count
    && if was.exec_count == 0 then
         var rest := was.slots[..k] + was.slots[k + 1..];
         !now.deferred && now.slots == if was.deferred then NonEmpty(rest) else rest
       else
         && now.deferred && |now.slots| == |was.slots| && now.slots[k] == was.slots[k].(kind := Invalidated)
         && forall i :: 0 <= i < |now.slots| && i != k ==> now.slots[i] == was.slots[i]
  }

  class SignalImpl {
    var slots_: seq<Node>
    var ref_count_: int
    var exec_count_: int
    var deferred_: bool
    var deleted: bool

    function Now(): Fields
      reads this
    {
      Fields(slots_, ref_count_, exec_count_, deferred_)
    }

    constructor ()
      ensures slots_ == [] && ref_count_ == 0 && exec_count_ == 0 && !deferred_ && !deleted
    {
      slots_, ref_count_, exec_count_, deferred_, deleted := [], 0, 0, false, false;
    }

    method ReferenceExec()
      modifies this`ref_count_, this`exec_count_
      ensures ref_count_ == old(ref_count_) + 1 && exec_count_ == old(exec_count_) + 1
    {
      ref_count_ := ref_count_ + 1;
      exec_count_ := exec_count_ + 1;
    }

    method UnreferenceExec()
      requires ref_count_ >= 1 && exec_count_ >= 1 && !deleted
      modifies this
      ensures ref_count_ == old(ref_count_) - 1
      ensures deleted <==> old(ref_count_) == 1
      ensures deleted ==> slots_ == []
      ensures !deleted ==> exec_count_ == old(exec_count_) - 1
      ensures !deleted && exec_count_ == 0 && old(deferred_) ==> slots_ == NonEmpty(old(slots_)) && !deferred_
      ensures !deleted && !(exec_count_ == 0 && old(deferred_)) ==> slots_ == old(slots_) && deferred_ == old(deferred_)
      decreases deferred_, 1
    {
      ref_count_ := ref_count_ - 1;
      if ref_count_ == 0 {
        slots_, deleted := [], true;
      } else {
        exec_count_ := exec_count_ - 1;
        if exec_count_ == 0 && deferred_ { Sweep(); }
      }
    }

    method Sweep()
      requires ref_count_ >= 1 && exec_count_ == 0 && deferred_ && !deleted
      modifies this
      ensures slots_ == NonEmpty(old(slots_)) && !deferred_ && !deleted
      ensures ref_count_ == old(ref_count_) && exec_count_ == 0
      decreases deferred_, 0
    {
      ReferenceExec();
      deferred_ := false;
      var i := 0;
      while i < |slots_|
        invariant i <= |slots_| && !deferred_ && !deleted
        invariant ref_count_ == old(ref_count_) + 1 && exec_count_ == 1
        invariant slots_[..i] + NonEmpty(slots_[i..]) == NonEmpty(old(slots_))
        decreases |slots_| - i
      {
        KeepRest(slots_, i);
        if slots_[i].Empty() {
          ghost var before := slots_;
          slots_ := EraseAt(slots_, i);
          assert slots_[..i] == before[..i] && slots_[i..] == before[i + 1..];
        } else {
          i := i + 1;
        }
      }
      assert slots_[..i] + NonEmpty(slots_[i..]) == slots_;
      UnreferenceExec();
    }

    /** The slot at `k` has become invalid. */
    method Notify(k: nat)
      requires k < |slots_| && !slots_[k].Empty() && ref_count_ >= 1 && exec_count_ >= 0 && !deleted
      modifies this
      ensures Notified(old(Now()), Now(), k) && !deleted
    {
      slots_ := slots_[k := slots_[k].(kind := Invalidated)];
      if exec_count_ == 0 {
        ReferenceExec();
        slots_ := EraseAt(slots_, k);
        UnreferenceExec();
      } else {
        deferred_ := true;
      }
    }

    /** The loop of emit() from position `k` to the next slot to call, or to the placeholder at `end`. */
    method NextToCall(k: nat, end: nat) returns (j: nat)
      requires k <= end < |slots_|
      ensures k <= j <= end
      ensures forall i :: k <= i < j ==> slots_[i].Empty() || slots_[i].blocked
      ensures j < end ==> !slots_[j].Empty() && !slots_[j].blocked
    {
      j := k;
      while j < end && (slots_[j].Empty() || slots_[j].blocked)
        invariant k <= j <= end
        invariant forall i :: k <= i < j ==> slots_[i].Empty() || slots_[i].blocked
      {
        j := j + 1;
      }
    }
  }

  predicate Calls(node: Node) { !node.Empty() && !node.blocked }

  /** The visits of the nodes from `from` up to `to`. */
  function VisitsFor(slots: seq<Node>, from: nat, to: nat): seq<Visit>
    requires from <= to <= |slots|
    decreases |slots| - from
  {
    if from == to then [] else [Visit(slots[from], Calls(slots[from]))] + VisitsFor(slots, from + 1, to)
  }

  /** The innermost emission, about to look at node `k`. */
  ghost predicate At(s: State, f: Frame, k: nat) {
    Inv(s) && s.freed == 0 && s.frames != [] && s.frames[|s.frames| - 1] == f &&
    f.Emission? && !f.calling && k == |f.visits| < |f.begun|
  }

  lemma AdvanceOne(s: State, f: Frame, k: nat)
    requires At(s, f, k)
    ensures k + 1 < |s.slots|
    ensures Apply(s, Continue) == WithTop(s, f.(it := s.slots[k + 1].id, calling := Calls(s.slots[k]),
                                                visits := f.visits + [Visit(s.slots[k], Calls(s.slots[k]))]))
  {
    hide CountsOk, FramesOk, DeferredOk, RecordOk, Find;
    TopOk(s);
    FindAt(s.slots, s.nextId, k);
    FindAt(s.slots, s.nextId, |f.begun|);
  }

  lemma WithTopTwice(s: State, g: Frame, h: Frame)
    requires s.frames != []
    ensures WithTop(s, g).frames != [] && WithTop(s, g).frames[|s.frames| - 1] == g && |WithTop(s, g).frames| == |s.frames|
    ensures WithTop(WithTop(s, g), h) == WithTop(s, h)
  {
    assert WithTop(s, g).frames[..|s.frames| - 1] == s.frames[..|s.frames| - 1];
  }

  /** The frame that has just called the node at `j`. */
  function Called(slots: seq<Node>, f: Frame, k: nat, j: nat): Frame
    requires f.Emission? && k <= j && j + 1 < |slots|
  {
    f.(it := slots[j + 1].id, calling := true, visits := f.visits + VisitsFor(slots, k, j + 1))
  }

  lemma CalledNow(slots: seq<Node>, f: Frame, k: nat)
    requires f.Emission? && k + 1 < |slots| && Calls(slots[k])
    ensures Called(slots, f, k, k) == f.(it := slots[k + 1].id, calling := true, visits := f.visits + [Visit(slots[k], true)])
  {
    assert VisitsFor(slots, k, k + 1) == [Visit(slots[k], true)] + VisitsFor(slots, k + 1, k + 1);
    assert VisitsFor(slots, k, k + 1) == [Visit(slots[k], true)];
  }

  lemma CalledLater(slots: seq<Node>, f: Frame, k: nat, j: nat)
    requires f.Emission? && k < j && j + 1 < |slots| && !Calls(slots[k])
    ensures Called(slots, f.(it := slots[k + 1].id, calling := false, visits := f.visits + [Visit(slots[k], false)]), k + 1, j) ==
            Called(slots, f, k, j)
  {
    var rest := VisitsFor(slots, k + 1, j + 1);
    assert f.visits + ([Visit(slots[k], false)] + rest) == f.visits + [Visit(slots[k], false)] + rest;
  }

  /** The machine skips, like the loop, to the next node to call, and calls it. */
  lemma {:induction false} AdvancesToNext(s: State, f: Frame, k: nat, j: nat)
    requires At(s, f, k) && k <= j < |f.begun| && j + 1 < |s.slots|
    requires (forall i :: k <= i < j ==> !Calls(s.slots[i])) && Calls(s.slots[j])
    ensures Exec(s, Continues(j - k + 1)) == WithTop(s, Called(s.slots, f, k, j))
    decreases j - k
  {
    hide Inv, Apply, Called, Calls, Find;
    AdvanceOne(s, f, k);
    var s1 := Apply(s, Continue);
    ContinueOnce(s, j - k);
    if k == j {
      assert Exec(s1, Continues(0)) == s1;
      CalledNow(s.slots, f, k);
    } else {
      ApplyInv(s, Continue);
      var g := f.(it := s.slots[k + 1].id, calling := false, visits := f.visits + [Visit(s.slots[k], false)]);
      WithTopTwice(s, g, Called(s.slots, f, k, j));
      assert At(s1, g, k + 1);
      AdvancesToNext(s1, g, k + 1, j);
      CalledLater(s.slots, f, k, j);
    }
  }
}
