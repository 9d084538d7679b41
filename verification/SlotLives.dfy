/**
 What becomes of a slot in the course of a run: from the action that connects it, through those that
 block and disconnect it, to the emissions that call it or pass over it.
 */
module SlotLives {
  import opened Basics
  import opened Signal

  // ----- one step -----

  function NodeOf(s: State, id: nat): Node
    requires Present(s, id)
  {
    s.slots[Find(s.slots, id)]
  }

  /** The action is user code's, and it is `b`. */
  predicate Does(s: State, a: Action, b: Action) { a == b && s.UserCode() }

  predicate Library(a: Action) { a.Return? || a.Throw? || a.Continue? }

  lemma LibraryKeepsNode(s: State, a: Action, id: nat)
    requires Inv(s) && s.freed == 0 && Apply(s, a).freed == 0 && Library(a) && Present(s, id)
    ensures Present(Apply(s, a), id) ==> NodeOf(Apply(s, a), id) == NodeOf(s, id)
    ensures NodeOf(s, id).kind == Callable ==> Present(Apply(s, a), id)
  {
    hide Apply, FramesOk, CountsOk, DeferredOk, RecordOk;
    var e := LibraryEffect(s, a);
    if e.Erases? {
      if s.slots[e.at].id == id {
        FindAt(s.slots, s.nextId, e.at);
        EraseGone(s.slots, s.nextId, e.at);
      } else {
        EraseFinds(s.slots, s.nextId, e.at, id);
      }
    }
  }

  lemma AppendKeepsNode(slots: seq<Node>, node: Node, id: nat)
    requires Find(slots, id) < |slots|
    ensures Find(slots + [node], id) == Find(slots, id)
  {
    FindSame(slots, slots + [node], id);
  }

  lemma ChangeKeepsPlaces(slots: seq<Node>, k: nat, node: Node, id: nat)
    requires k < |slots| && node.id == slots[k].id && Find(slots, id) < |slots|
    ensures Find(slots[k := node], id) == Find(slots, id)
  {
    FindSame(slots, slots[k := node], id);
  }

  /** Disconnecting an empty slot, or one that is not there, does nothing. */
  lemma DisconnectNone(s: State, id: nat)
    requires s.UserCode() && (!Present(s, id) || NodeOf(s, id).Empty())
    ensures Apply(s, DisconnectSlot(id)) == s
  {
  }

  /** Disconnecting a slot with no guard open takes its node out of the list, and no other. */
  lemma DisconnectErases(s: State, id: nat)
    requires Inv(s) && s.UserCode() && Present(s, id) && !NodeOf(s, id).Empty() && s.frames == []
    ensures var n, k := Apply(s, DisconnectSlot(id)), Find(s.slots, id);
            n.slots == s.slots[..k] + s.slots[k + 1..] && !Present(n, id)
  {
    hide FramesOk, DeferredOk, RecordOk;
    EraseGone(s.slots, s.nextId, Find(s.slots, id));
  }

  /** While a guard is open it marks the node, and no other, and requests a sweep. */
  lemma DisconnectMarks(s: State, id: nat)
    requires Inv(s) && s.UserCode() && Present(s, id) && !NodeOf(s, id).Empty() && s.frames != []
    ensures var n, k := Apply(s, DisconnectSlot(id)), Find(s.slots, id);
            && n == s.(slots := s.slots[k := s.slots[k].(kind := Invalidated)], deferred := true)
            && Present(n, id) && NodeOf(n, id) == NodeOf(s, id).(kind := Invalidated)
  {
    hide FramesOk, DeferredOk, RecordOk;
    var k := Find(s.slots, id);
    ChangeKeepsPlaces(s.slots, k, s.slots[k].(kind := Invalidated), id);
  }

  /**
   A disconnected slot is out of the list at once when nothing is open; otherwise it is marked, and
   sweeping is due.
   */
  lemma Disconnected(s: State, id: nat)
    requires Reachable(s) && s.UserCode() && Present(s, id) && NodeOf(s, id).kind == Callable
    ensures var n := Apply(s, DisconnectSlot(id));
            if s.frames == [] then !Present(n, id)
            else Present(n, id) && NodeOf(n, id).kind == Invalidated && n.deferred && n.frames == s.frames
  {
    ReachableInv(s);
    if s.frames == [] { DisconnectErases(s, id); } else { DisconnectMarks(s, id); }
  }

  function FieldsOf(s: State): Fields { Fields(s.slots, s.ref_count, s.exec_count, s.deferred) }

  /**
   The machine does to the fields what notify() does: in one step while a guard is open, and otherwise
   with the step that leaves the guard of the erasure.
   */
  lemma DisconnectNotifies(s: State, id: nat)
    requires Reachable(s) && s.UserCode() && Present(s, id) && NodeOf(s, id).kind == Callable
    ensures var a := DisconnectSlot(id);
            Notified(FieldsOf(s), FieldsOf(Exec(s, if s.frames == [] then [a, Continue] else [a])), Find(s.slots, id))
  {
    ReachableInv(s);
    var a := DisconnectSlot(id);
    var n := Apply(s, a);
    assert [a][1..] == [] && [a, Continue][1..] == [Continue] && [Continue][1..] == [];
    if s.frames == [] {
      DisconnectErases(s, id);
      assert Exec(s, [a, Continue]) == Exec(n, [Continue]) == Exec(Apply(n, Continue), []);
      ErasureEnds(s, id);
    } else {
      DisconnectMarks(s, id);
      assert Exec(s, [a]) == Exec(n, []);
    }
  }

  lemma ErasureEnds(s: State, id: nat)
    requires Inv(s) && s.UserCode() && Present(s, id) && NodeOf(s, id).kind == Callable && s.frames == []
    ensures var n := Apply(s, DisconnectSlot(id));
            Apply(n, Continue) == s.(slots := n.slots)
  {
    hide FramesOk, RecordOk, Linked;
    var n := Apply(s, DisconnectSlot(id));
    assert n.frames == [Erasing] && n.frames[..0] == [];
  }

  lemma UserKeepsNode(s: State, a: Action, id: nat)
    requires Inv(s) && s.freed == 0 && Apply(s, a).freed == 0 && !Library(a) && !a.DisconnectSlot? && Present(s, id)
    ensures Present(Apply(s, a), id)
    ensures NodeOf(Apply(s, a), id) == if Does(s, a, Block(id, a.Block? && a.blocked)) then NodeOf(s, id).(blocked := a.blocked) else NodeOf(s, id)
  {
    hide FramesOk, CountsOk, DeferredOk, RecordOk;
    match a {
      case Connect(hollow, blocked) => AppendKeepsNode(s.slots, Node(s.nextId, if hollow then Hollow else Callable, blocked), id);
      case Emit => AppendKeepsNode(s.slots, Node(s.nextId, Placeholder, false), id);
      case Block(x, blocked) =>
        var k := Find(s.slots, x);
        if k < |s.slots| { ChangeKeepsPlaces(s.slots, k, s.slots[k].(blocked := blocked), id); }
      case _ =>
    }
  }

  lemma DisconnectKeepsNode(s: State, x: nat, id: nat)
    requires Inv(s) && s.freed == 0 && Present(s, id)
    requires x != id || !s.UserCode() || NodeOf(s, id).Empty()
    ensures var n := Apply(s, DisconnectSlot(x)); Present(n, id) && NodeOf(n, id) == NodeOf(s, id)
  {
    hide FramesOk, CountsOk, DeferredOk, RecordOk;
    var k := Find(s.slots, x);
    if s.UserCode() && k < |s.slots| && !s.slots[k].Empty() {
      if s.exec_count == 0 {
        EraseFinds(s.slots, s.nextId, k, id);
      } else {
        ChangeKeepsPlaces(s.slots, k, s.slots[k].(kind := Invalidated), id);
      }
    }
  }

  /** A node stays callable, with its flag, unless it is disconnected or blocked; it leaves no other way. */
  lemma StepNode(s: State, a: Action, id: nat)
    requires Inv(s) && s.freed == 0 && Apply(s, a).freed == 0 && Present(s, id)
    ensures var n, x := Apply(s, a), NodeOf(s, id);
            && (Present(n, id) ==>
                  && NodeOf(n, id).blocked == (if a.Block? && a.id == id && s.UserCode() then a.blocked else x.blocked)
                  && NodeOf(n, id).kind == if Does(s, a, DisconnectSlot(id)) && x.kind == Callable then Invalidated else x.kind)
            && (x.kind == Callable ==>
                  (Present(n, id) <==> !(Does(s, a, DisconnectSlot(id)) && s.frames == [])))
  {
    hide Inv, Apply, Find;
    if Library(a) {
      LibraryKeepsNode(s, a, id);
    } else if !a.DisconnectSlot? {
      UserKeepsNode(s, a, id);
    } else if a.id != id || !s.UserCode() || NodeOf(s, id).Empty() {
      DisconnectKeepsNode(s, a.id, id);
    } else if s.frames == [] {
      DisconnectErases(s, id);
    } else {
      DisconnectMarks(s, id);
    }
  }

  // ----- a slot from its connection on -----

  /** Step `j` of a run is the action `a` of user code. */
  predicate ActsAt(actions: seq<Action>, j: nat, a: Action) {
    j < |actions| && Does(Exec(INIT, actions[..j]), actions[j], a)
  }

  /** Step `i` connects a slot that can be called, as the node `id`. */
  predicate ConnectedAt(actions: seq<Action>, i: nat, id: nat) {
    && i < |actions| && actions[i].Connect? && !actions[i].hollow
    && var s := Exec(INIT, actions[..i]); s.UserCode() && s.handles > 0 && s.nextId == id
  }

  /** User code has disconnected the slot after step `i`, within the first `m` steps. */
  ghost predicate DisconnectedWithin(actions: seq<Action>, i: nat, m: nat, id: nat) {
    exists j: nat :: i < j < m && ActsAt(actions, j, DisconnectSlot(id))
  }

  /** What the last action says that blocks or unblocks the slot, or that connects it, within the first `m` steps. */
  function LastFlag(actions: seq<Action>, i: nat, m: nat, id: nat): bool
    requires i < m <= |actions| && actions[i].Connect?
  {
    if m == i + 1 then actions[i].blocked
    else if ActsAt(actions, m - 1, Block(id, true)) then true
    else if ActsAt(actions, m - 1, Block(id, false)) then false
    else LastFlag(actions, i, m - 1, id)
  }

  /** The state of a run behind its first `m` steps. */
  function After(actions: seq<Action>, m: nat): State
    requires m <= |actions|
  {
    Exec(INIT, actions[..m])
  }

  lemma AfterStep(actions: seq<Action>, m: nat)
    requires m < |actions|
    ensures After(actions, m + 1) == Apply(After(actions, m), actions[m])
  {
    assert actions[..m + 1] == actions[..m] + [actions[m]];
    ExecLast(INIT, actions[..m], actions[m]);
  }

  lemma AfterInv(actions: seq<Action>, m: nat)
    requires m <= |actions|
    ensures Inv(After(actions, m))
  {
    InitInv();
    ExecInv(INIT, actions[..m]);
  }

  lemma ConnectAdds(s: State, a: Action)
    requires Inv(s) && a.Connect? && !a.hollow && s.UserCode() && s.handles > 0
    ensures var n := Apply(s, a);
            && Present(n, s.nextId) && NodeOf(n, s.nextId) == Node(s.nextId, Callable, a.blocked) && s.nextId < n.nextId
            && n.slots == s.slots + [Node(s.nextId, Callable, a.blocked)]
  {
    ListsLinked(s, a);
    var n := Apply(s, a);
    FindAt(n.slots, n.nextId, |s.slots|);
  }

  /** What a slot is after so many steps. */
  ghost predicate LivesAt(actions: seq<Action>, i: nat, m: nat, id: nat)
    requires i < m <= |actions| && actions[i].Connect?
  {
    var n := After(actions, m);
    && id < n.nextId
    && (Present(n, id) ==> NodeOf(n, id).blocked == LastFlag(actions, i, m, id))
    && if DisconnectedWithin(actions, i, m, id) then Present(n, id) ==> NodeOf(n, id).kind == Invalidated
       else Present(n, id) && NodeOf(n, id).kind == Callable
  }

  lemma WithinNext(actions: seq<Action>, i: nat, m: nat, id: nat)
    requires i < m
    ensures DisconnectedWithin(actions, i, m + 1, id) <==>
            DisconnectedWithin(actions, i, m, id) || ActsAt(actions, m, DisconnectSlot(id))
  {
    hide ActsAt;
    if DisconnectedWithin(actions, i, m, id) {
      var j: nat :| i < j < m && ActsAt(actions, j, DisconnectSlot(id));
      assert i < j < m + 1 && ActsAt(actions, j, DisconnectSlot(id));
    }
  }

  lemma FlagNext(actions: seq<Action>, i: nat, m: nat, id: nat)
    requires i < m < |actions| && actions[i].Connect?
    ensures LastFlag(actions, i, m + 1, id) ==
            if actions[m].Block? && actions[m].id == id && After(actions, m).UserCode() then actions[m].blocked
            else LastFlag(actions, i, m, id)
  {
  }

  lemma LivesNext(actions: seq<Action>, i: nat, m: nat, id: nat)
    requires i < m < |actions| && actions[i].Connect? && LivesAt(actions, i, m, id)
    requires After(actions, m).freed == 0 && After(actions, m + 1).freed == 0
    ensures LivesAt(actions, i, m + 1, id)
  {
    hide Inv, Apply, Exec, Find, LastFlag, DisconnectedWithin;
    var s, a := After(actions, m), actions[m];
    AfterStep(actions, m);
    AfterInv(actions, m);
    IdsGrow(s, a);
    WithinNext(actions, i, m, id);
    FlagNext(actions, i, m, id);
    if Present(s, id) { StepNode(s, a, id); } else { GoneStays(s, a, id); }
  }

  lemma NotFreedBefore(actions: seq<Action>, m: nat)
    requires m <= |actions| && Exec(INIT, actions).freed == 0
    ensures After(actions, m).freed == 0
  {
    assert actions == actions[..m] + actions[m..];
    ExecSplit(INIT, actions[..m], actions[m..]);
    FreedStaysLong(After(actions, m), actions[m..]);
  }

  lemma {:induction false} LivesOn(actions: seq<Action>, i: nat, m: nat, id: nat)
    requires ConnectedAt(actions, i, id) && i < m <= |actions| && Exec(INIT, actions).freed == 0
    ensures LivesAt(actions, i, m, id)
    decreases m
  {
    hide Inv, Apply, Exec, LivesAt;
    NotFreedBefore(actions, m);
    NotFreedBefore(actions, m - 1);
    if m == i + 1 {
      LivesFirst(actions, i, id);
    } else {
      LivesOn(actions, i, m - 1, id);
      LivesNext(actions, i, m - 1, id);
    }
  }

  lemma LivesFirst(actions: seq<Action>, i: nat, id: nat)
    requires ConnectedAt(actions, i, id)
    ensures LivesAt(actions, i, i + 1, id)
  {
    hide Inv, Apply, Exec;
    AfterStep(actions, i);
    AfterInv(actions, i);
    ConnectAdds(After(actions, i), actions[i]);
  }

  /**
   From the step that connects it on: a slot is in the list and callable exactly as long as user code
   has not disconnected it, and its flag is the one that was set last.
   */
  lemma SlotLife(actions: seq<Action>, i: nat, id: nat)
    requires ConnectedAt(actions, i, id) && Exec(INIT, actions).freed == 0
    ensures var n := Exec(INIT, actions);
            && (Present(n, id) && NodeOf(n, id).kind == Callable <==> !DisconnectedWithin(actions, i, |actions|, id))
            && (Present(n, id) ==> NodeOf(n, id).blocked == LastFlag(actions, i, |actions|, id))
            && (n.frames == [] && DisconnectedWithin(actions, i, |actions|, id) ==> !Present(n, id))
  {
    hide Inv, Apply, Exec, LastFlag, DisconnectedWithin;
    LivesOn(actions, i, |actions|, id);
    assert actions[..|actions|] == actions;
    var n := Exec(INIT, actions);
    if n.frames == [] {
      assert Reachable(n);
      QuietMeansSwept(n);
    }
  }

  /** How many handles there are: one at first, one more for each copy, one less for each that is destroyed. */
  function Handles(actions: seq<Action>, m: nat): int
    requires m <= |actions|
  {
    if m == 0 then 1
    else
      var h := Handles(actions, m - 1);
      if h > 0 && ActsAt(actions, m - 1, CopyHandle) then h + 1
      else if h > 0 && ActsAt(actions, m - 1, DestroyHandle) then h - 1
      else h
  }

  lemma {:induction false} HandlesAre(actions: seq<Action>, m: nat)
    requires m <= |actions|
    ensures After(actions, m).handles == Handles(actions, m)
  {
    hide Exec, Apply;
    if m == 0 {
      assert actions[..0] == [] && Exec(INIT, []) == INIT by { NoActions(); }
    } else {
      HandlesAre(actions, m - 1);
      AfterStep(actions, m - 1);
      HandlesStep(After(actions, m - 1), actions[m - 1]);
    }
  }

  lemma NoActions()
    ensures Exec(INIT, []) == INIT
  {
  }

  lemma HandlesStep(s: State, a: Action)
    ensures Apply(s, a).handles == if s.handles > 0 && Does(s, a, CopyHandle) then s.handles + 1
                                   else if s.handles > 0 && Does(s, a, DestroyHandle) then s.handles - 1
                                   else s.handles
  {
    hide Find;
  }

  // ----- emissions -----

  /** An emission begins with all slots of that moment in front of it, in order; without slots there is none. */
  lemma EmitBegins(s: State)
    requires s.UserCode() && s.handles > 0
    ensures var n := Apply(s, Emit);
            if s.slots == [] then n == s
            else
              && |n.frames| == |s.frames| + 1 && n.frames[..|s.frames|] == s.frames
              && var f := n.frames[|s.frames|];
                 && f.Emission? && !f.calling && f.visits == [] && f.it == s.slots[0].id && f.placeholder == s.nextId
                 && |f.begun| == |s.slots| && forall i :: 0 <= i < |f.begun| ==> f.begun[i] == s.slots[i].id
  {
  }

  /** The step calls the slot `id`. */
  predicate CallsNow(s: State, a: Action, id: nat) {
    var n := Apply(s, a);
    && s.frames != [] && |n.frames| == |s.frames|
    && var f, g := s.frames[|s.frames| - 1], n.frames[|s.frames| - 1];
       && f.Emission? && g.Emission? && !f.calling && g.calling
       && g.visits != [] && g.visits[|g.visits| - 1].node.id == id
  }

  lemma AdvanceVisits(s: State)
    requires Inv(s) && s.freed == 0 && s.frames != [] && s.frames[|s.frames| - 1].Emission? && !s.frames[|s.frames| - 1].calling
    requires s.frames[|s.frames| - 1].it != s.frames[|s.frames| - 1].placeholder
    ensures At(s, s.frames[|s.frames| - 1], |s.frames[|s.frames| - 1].visits|)
  {
    hide DeferredOk, RecordOk;
    TopOk(s);
  }

  lemma NoCallWithoutAdvance(s: State, a: Action, id: nat)
    requires s.frames != [] && s.frames[|s.frames| - 1].Emission? && CallsNow(s, a, id)
    ensures a.Continue? && s.freed == 0
    ensures s.frames[|s.frames| - 1].it != s.frames[|s.frames| - 1].placeholder
  {
    hide Find;
  }

  /** Whatever is called is in the list, callable and not blocked at that moment. */
  lemma CalledIsCallable(s: State, a: Action, id: nat)
    requires Reachable(s) && CallsNow(s, a, id)
    ensures s.freed == 0 && Present(s, id) && NodeOf(s, id).kind == Callable && !NodeOf(s, id).blocked
  {
    hide Inv, Find;
    ReachableInv(s);
    NoCallWithoutAdvance(s, a, id);
    var f := s.frames[|s.frames| - 1];
    AdvanceVisits(s);
    AdvanceOne(s, f, |f.visits|);
    ListsLinked(s, a);
    FindAt(s.slots, s.nextId, |f.visits|);
  }

  lemma GoneForGood(actions: seq<Action>, i: nat, m: nat, id: nat)
    requires ConnectedAt(actions, i, id) && i < m <= |actions| && After(actions, m).freed == 0
    requires DisconnectedWithin(actions, i, m, id)
    ensures Present(After(actions, m), id) ==> NodeOf(After(actions, m), id).kind == Invalidated
  {
    hide Inv, Apply, Exec, LastFlag, DisconnectedWithin;
    var prefix := actions[..m];
    assert prefix[..i] == actions[..i];
    PrefixWithin(actions, i, m, id);
    assert prefix[..m] == prefix;
    LivesOn(prefix, i, m, id);
  }

  lemma PrefixWithin(actions: seq<Action>, i: nat, m: nat, id: nat)
    requires m <= |actions| && DisconnectedWithin(actions, i, m, id)
    ensures DisconnectedWithin(actions[..m], i, m, id)
  {
    var j: nat :| i < j < m && ActsAt(actions, j, DisconnectSlot(id));
    assert actions[..m][..j] == actions[..j];
    assert ActsAt(actions[..m], j, DisconnectSlot(id));
  }

  /** A slot that user code has disconnected is never called again, not even by an emission that is open. */
  lemma NeverCalledAgain(actions: seq<Action>, i: nat, m: nat, id: nat)
    requires ConnectedAt(actions, i, id) && i < m < |actions| && DisconnectedWithin(actions, i, m, id)
    ensures !CallsNow(After(actions, m), actions[m], id)
  {
    hide Inv, Apply, Exec, DisconnectedWithin;
    var s := After(actions, m);
    assert Reachable(s);
    if CallsNow(s, actions[m], id) {
      CalledIsCallable(s, actions[m], id);
      GoneForGood(actions, i, m, id);
    }
  }

  /** An open emission as it was, or one node further: the node it has come to, called or passed over. */
  ghost predicate Further(s: State, f: Frame, g: Frame) {
    && f.Emission? && g.Emission? && g.placeholder == f.placeholder && g.begun == f.begun
    && (|| g.visits == f.visits
        || (|f.visits| < |s.slots| && var node := s.slots[|f.visits|];
            g.visits == f.visits + [Visit(node, Calls(node))] && g.calling == Calls(node)))
  }

  /** Emissions are opened by Emit and go on one node at a time; nothing else changes what they have visited. */
  lemma EmissionsGoOn(s: State, a: Action, i: nat)
    requires Inv(s) && s.freed == 0 && Apply(s, a).freed == 0
    requires i < |Apply(s, a).frames| && Apply(s, a).frames[i].Emission?
    ensures if i < |s.frames| then Further(s, s.frames[i], Apply(s, a).frames[i]) else i == |s.frames| && Does(s, a, Emit)
    ensures i + 1 < |s.frames| ==> Apply(s, a).frames[i] == s.frames[i]
  {
    hide Inv, Linked, CountsOk, DeferredOk, RecordOk, Further;
    if !Library(a) {
      UserFrames(s, a);
      if i < |s.frames| { Same(s, s.frames[i]); }
    } else if Ends(s, a) {
      EndIs(s, a);
      EndFrames(s, a.Continue?);
      Same(s, s.frames[i]);
    } else if s.frames[|s.frames| - 1].Emission? {
      TopFrames(s, a, i);
    } else {
      SweepFrames(s, a);
      Same(s, s.frames[i]);
    }
  }

  lemma Same(s: State, f: Frame)
    ensures f.Emission? ==> Further(s, f, f)
  {
  }

  lemma UserFrames(s: State, a: Action)
    requires s.freed == 0 && !Library(a)
    ensures var n := Apply(s, a);
            || n.frames == s.frames
            || (|n.frames| == |s.frames| + 1 && n.frames[..|s.frames|] == s.frames && (n.frames[|s.frames|].Emission? ==> Does(s, a, Emit)))
  {
    hide Find;
  }

  lemma LeaveFrames(s: State)
    requires s.frames != []
    ensures var n, below := LeaveExec(s), s.frames[..|s.frames| - 1];
            n.frames == below || exists next :: n.frames == below + [Sweeping(next)]
    ensures LeaveExec(s).records == s.records
  {
  }

  lemma EndFrames(s: State, completed: bool)
    requires Inv(s) && s.freed == 0 && s.frames != [] && s.frames[|s.frames| - 1].Emission?
    requires var f := s.frames[|s.frames| - 1]; completed ==> f.it == f.placeholder
    ensures var n, f, below := EndEmission(s, s.frames[|s.frames| - 1], completed), s.frames[|s.frames| - 1], s.frames[..|s.frames| - 1];
            && (n.frames == below || exists next :: n.frames == below + [Sweeping(next)])
            && n.records == s.records + [Record(f.placeholder, f.begun, f.visits, completed)]
  {
    hide LeaveExec, Inv;
    var f := s.frames[|s.frames| - 1];
    AllVisited(s);
    EndLeaves(s, completed);
    LeaveFrames(s.(slots := EraseAt(s.slots, |f.begun|), records := s.records + [Record(f.placeholder, f.begun, f.visits, completed)]));
  }

  lemma AllVisited(s: State)
    requires Inv(s) && s.frames != [] && s.frames[|s.frames| - 1].Emission?
    ensures var f := s.frames[|s.frames| - 1]; f.it == f.placeholder ==> |f.visits| == |f.begun|
  {
    TopOk(s);
  }

  lemma TopFrames(s: State, a: Action, i: nat)
    requires Inv(s) && s.freed == 0 && Library(a) && s.frames != [] && s.frames[|s.frames| - 1].Emission? && !Ends(s, a)
    requires i < |Apply(s, a).frames|
    ensures i < |s.frames| && (s.frames[i].Emission? ==> Further(s, s.frames[i], Apply(s, a).frames[i]))
    ensures i + 1 < |s.frames| ==> Apply(s, a).frames[i] == s.frames[i]
  {
    hide Inv, Find, Calls, Advance, EndEmission;
    var f := s.frames[|s.frames| - 1];
    if a.Continue? && !f.calling {
      AdvanceVisits(s);
      AdvanceOne(s, f, |f.visits|);
    }
  }

  lemma SweepFrames(s: State, a: Action)
    requires s.freed == 0 && Library(a) && s.frames != [] && !s.frames[|s.frames| - 1].Emission?
    ensures forall i :: 0 <= i < |Apply(s, a).frames| && Apply(s, a).frames[i].Emission? ==>
              i < |s.frames| && Apply(s, a).frames[i] == s.frames[i]
  {
    hide Find;
  }

  /** An emission is recorded when it ends, at its placeholder or by an exception of a handler, and then only. */
  lemma RecordsGrow(s: State, a: Action)
    requires Inv(s) && s.freed == 0
    ensures Apply(s, a).records ==
            if s.frames != [] && var f := s.frames[|s.frames| - 1];
                 f.Emission? && if f.calling then a.Throw? else a.Continue? && f.it == f.placeholder then
              var f := s.frames[|s.frames| - 1];
              s.records + [Record(f.placeholder, f.begun, f.visits, a.Continue?)]
            else s.records
  {
    hide Inv, Apply, EndEmission;
    if Ends(s, a) {
      EndIs(s, a);
      EndFrames(s, a.Continue?);
    } else {
      RecordsKept(s, a);
    }
  }

  lemma RecordsKept(s: State, a: Action)
    requires s.freed == 0 && !Ends(s, a)
    ensures Apply(s, a).records == s.records
  {
    hide Find, EndEmission;
  }
}
