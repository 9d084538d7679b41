/**
 The list of destroy callbacks of a trackable object.  A callback may call back into the list
 while the list is being cleared: additions are ignored, removals only disarm an entry.
 */
module Trackable {
  import opened Basics

  /** An entry; it is disarmed by setting its function to null. */
  datatype Callback = Callback(data: nat, armed: bool)

  /** What a callback does to the list while it runs. */
  datatype Act = Add(data: nat) | Remove(data: nat)

  // ----- the pass, on values -----

  /** remove_callback while clearing: the first armed entry with the data is disarmed. */
  function Disarm(cs: seq<Callback>, data: nat): (r: seq<Callback>)
    ensures |r| == |cs|
  {
    if cs == [] then []
    else if cs[0].data == data && cs[0].armed then [cs[0].(armed := false)] + cs[1..]
    else [cs[0]] + Disarm(cs[1..], data)
  }

  /** remove_callback otherwise: the first armed entry with the data is erased. */
  function Erase(cs: seq<Callback>, data: nat): seq<Callback> {
    if cs == [] then []
    else if cs[0].data == data && cs[0].armed then cs[1..]
    else [cs[0]] + Erase(cs[1..], data)
  }

  function Perform(cs: seq<Callback>, acts: seq<Act>): (r: seq<Callback>)
    ensures |r| == |cs|
    decreases |acts|
  {
    if acts == [] then cs
    else Perform(if acts[0].Remove? then Disarm(cs, acts[0].data) else cs, acts[1..])
  }

  /** The calls from entry `i` on, when `k` calls were made before; `acts(k)` is what call `k` does. */
  function Pass(cs: seq<Callback>, i: nat, acts: nat -> seq<Act>, k: nat): seq<nat>
    decreases |cs| - i
  {
    if i >= |cs| then []
    else if cs[i].armed then [cs[i].data] + Pass(Perform(cs, acts(k)), i + 1, acts, k + 1)
    else Pass(cs, i + 1, acts, k)
  }

  lemma {:induction false} DisarmAt(cs: seq<Callback>, data: nat, i: nat)
    requires i < |cs| && cs[i] == Callback(data, true) && forall j :: 0 <= j < i ==> cs[j] != Callback(data, true)
    ensures Disarm(cs, data) == cs[i := Callback(data, false)]
    ensures Erase(cs, data) == cs[..i] + cs[i + 1..]
  {
    if i > 0 {
      assert cs[0] != Callback(data, true);
      DisarmAt(cs[1..], data, i - 1);
      assert cs == [cs[0]] + cs[1..];
      assert cs[..i] == [cs[0]] + cs[1..][..i - 1];
    }
  }

  lemma {:induction false} DisarmNone(cs: seq<Callback>, data: nat)
    requires Callback(data, true) !in cs
    ensures Disarm(cs, data) == cs == Erase(cs, data)
  {
    if cs != [] {
      assert cs[0] in cs;
      assert cs == [cs[0]] + cs[1..];
      DisarmNone(cs[1..], data);
    }
  }

  // ----- what the pass is for -----

  function Removed(acts: seq<Act>): set<nat> {
    set a | a in acts && a.Remove? :: a.data
  }

  /** The calls a reader expects: in order, each callback that no earlier call removed. */
  function Due(data: seq<nat>, acts: nat -> seq<Act>, k: nat, removed: set<nat>): seq<nat> {
    if data == [] then []
    else if data[0] in removed then Due(data[1..], acts, k, removed)
    else [data[0]] + Due(data[1..], acts, k + 1, removed + Removed(acts(k)))
  }

  /** The entries carry `data`, and those from `i` on are armed unless removed. */
  ghost predicate Carries(cs: seq<Callback>, data: seq<nat>, i: nat, removed: set<nat>) {
    && |cs| == |data|
    && (forall j :: 0 <= j < |cs| ==> cs[j].data == data[j])
    && (forall j :: i <= j < |cs| ==> (cs[j].armed <==> data[j] !in removed))
  }

  lemma DisarmCarries(cs: seq<Callback>, data: seq<nat>, i: nat, removed: set<nat>, d: nat)
    requires Carries(cs, data, i, removed) && Distinct(data)
    ensures Carries(Disarm(cs, d), data, i, removed + {d})
  {
    hide Disarm, Erase;
    if Callback(d, true) in cs {
      var p := DisarmsOne(cs, data, i, removed, d);
      OneCarries(cs, data, i, removed, p);
    } else {
      DisarmNone(cs, d);
      forall j | i <= j < |cs| && data[j] == d
        ensures !cs[j].armed
      {
        assert cs[j] in cs;
      }
    }
  }

  lemma DisarmsOne(cs: seq<Callback>, data: seq<nat>, i: nat, removed: set<nat>, d: nat) returns (p: nat)
    requires Carries(cs, data, i, removed) && Distinct(data) && Callback(d, true) in cs
    ensures p < |cs| && data[p] == d && Disarm(cs, d) == cs[p := Callback(d, false)]
  {
    hide Disarm, Erase;
    p :| 0 <= p < |cs| && cs[p] == Callback(d, true);
    forall j | 0 <= j < p
      ensures cs[j] != Callback(d, true)
    {
      assert data[j] != data[p];
    }
    DisarmAt(cs, d, p);
  }

  lemma OneCarries(cs: seq<Callback>, data: seq<nat>, i: nat, removed: set<nat>, p: nat)
    requires Carries(cs, data, i, removed) && Distinct(data) && p < |cs|
    ensures Carries(cs[p := Callback(data[p], false)], data, i, removed + {data[p]})
  {
    forall j | i <= j < |cs| && j != p
      ensures data[j] != data[p]
    {
    }
  }

  lemma {:induction false} PerformCarries(cs: seq<Callback>, data: seq<nat>, i: nat, removed: set<nat>, acts: seq<Act>)
    requires Carries(cs, data, i, removed) && Distinct(data)
    ensures Carries(Perform(cs, acts), data, i, removed + Removed(acts))
    decreases |acts|
  {
    if acts == [] {
      assert removed + Removed(acts) == removed;
    } else {
      RemovedStep(acts);
      if acts[0].Remove? {
        DisarmCarries(cs, data, i, removed, acts[0].data);
        PerformCarries(Disarm(cs, acts[0].data), data, i, removed + {acts[0].data}, acts[1..]);
        assert removed + {acts[0].data} + Removed(acts[1..]) == removed + Removed(acts);
      } else {
        PerformCarries(cs, data, i, removed, acts[1..]);
      }
    }
  }

  lemma RemovedStep(acts: seq<Act>)
    requires acts != []
    ensures Removed(acts) == (if acts[0].Remove? then {acts[0].data} else {}) + Removed(acts[1..])
  {
    assert forall a :: a in acts <==> a == acts[0] || a in acts[1..];
  }

  /** With distinct data, the pass calls what is due, whatever the callbacks do to the list. */
  lemma {:induction false} PassIsDue(cs: seq<Callback>, data: seq<nat>, i: nat, acts: nat -> seq<Act>, k: nat, removed: set<nat>)
    requires Carries(cs, data, i, removed) && Distinct(data) && i <= |data|
    ensures Pass(cs, i, acts, k) == Due(data[i..], acts, k, removed)
    decreases |data| - i
  {
    if i < |data| {
      assert data[i..][0] == data[i] && data[i..][1..] == data[i + 1..];
      if cs[i].armed {
        PerformCarries(cs, data, i, removed, acts(k));
        PassIsDue(Perform(cs, acts(k)), data, i + 1, acts, k + 1, removed + Removed(acts(k)));
      } else {
        PassIsDue(cs, data, i + 1, acts, k, removed);
      }
    }
  }

  function RemovedBy(acts: nat -> seq<Act>, k: nat, n: nat): set<nat>
    decreases n
  {
    if n == 0 then {} else Removed(acts(k)) + RemovedBy(acts, k + 1, n - 1)
  }

  lemma RemovedByNext(acts: nat -> seq<Act>, k: nat, n: nat, removed: set<nat>)
    ensures removed + Removed(acts(k)) + RemovedBy(acts, k + 1, n) == removed + RemovedBy(acts, k, n + 1)
  {
  }

  lemma {:induction false} DueConcat(a: seq<nat>, b: seq<nat>, acts: nat -> seq<Act>, k: nat, removed: set<nat>)
    ensures var n := |Due(a, acts, k, removed)|;
            Due(a + b, acts, k, removed) == Due(a, acts, k, removed) + Due(b, acts, k + n, removed + RemovedBy(acts, k, n))
    decreases |a|
  {
    hide Removed;
    if a == [] {
      assert a + b == b && removed + {} == removed;
    } else {
      assert (a + b)[1..] == a[1..] + b;
      if a[0] in removed {
        DueConcat(a[1..], b, acts, k, removed);
      } else {
        var next := removed + Removed(acts(k));
        var x := Due(a[1..], acts, k + 1, next);
        DueConcat(a[1..], b, acts, k + 1, next);
        RemovedByNext(acts, k, |x|, removed);
        var y := Due(b, acts, k + 1 + |x|, next + RemovedBy(acts, k + 1, |x|));
        assert [a[0]] + (x + y) == ([a[0]] + x) + y;
      }
    }
  }

  lemma {:induction false} RemovedByIs(acts: nat -> seq<Act>, k: nat, n: nat, d: nat)
    ensures d in RemovedBy(acts, k, n) <==> exists m: nat :: k <= m < k + n && Remove(d) in acts(m)
    decreases n
  {
    if n > 0 {
      RemovedByIs(acts, k + 1, n - 1, d);
      assert d in Removed(acts(k)) <==> Remove(d) in acts(k);
      if exists m: nat :: k <= m < k + n && Remove(d) in acts(m) {
        var m: nat :| k <= m < k + n && Remove(d) in acts(m);
        assert m == k || k + 1 <= m < k + 1 + (n - 1);
      }
    }
  }

  lemma {:induction false} DueOnlyFrom(data: seq<nat>, acts: nat -> seq<Act>, k: nat, removed: set<nat>, d: nat)
    requires d !in data
    ensures d !in Due(data, acts, k, removed)
    decreases |data|
  {
    if data != [] {
      DueOnlyFrom(data[1..], acts, k, removed, d);
      DueOnlyFrom(data[1..], acts, k + 1, removed + Removed(acts(k)), d);
    }
  }

  lemma NotElsewhere(data: seq<nat>, p: nat)
    requires p < |data| && Distinct(data)
    ensures data[p] !in data[..p] && data[p] !in data[p + 1..]
  {
  }

  /** The calls before the turn of callback `p`. */
  function CallsBefore(data: seq<nat>, acts: nat -> seq<Act>, p: nat): seq<nat>
    requires p <= |data|
  {
    Due(data[..p], acts, 0, {})
  }

  /**
   In a pass over distinct data, callback `p` is called right after the calls due before it, and
   only there, unless one of those calls removed it; then it is not called at all.
   */
  lemma CalledUnlessRemoved(data: seq<nat>, acts: nat -> seq<Act>, p: nat)
    requires p < |data| && Distinct(data)
    ensures var calls, before := Due(data, acts, 0, {}), CallsBefore(data, acts, p);
            && before <= calls
            && multiset(calls)[data[p]] ==
               (if exists m: nat :: 0 <= m < |before| && Remove(data[p]) in acts(m) then 0 else 1)
            && (data[p] in calls ==> |before| < |calls| && calls[|before|] == data[p])
  {
    hide Removed, RemovedBy, Distinct;
    var before := CallsBefore(data, acts, p);
    var n := |before|;
    var removed := RemovedBy(acts, 0, n);
    var rest := data[p..];
    assert data == data[..p] + rest;
    DueConcat(data[..p], rest, acts, 0, {});
    assert {} + removed == removed;
    RemovedByIs(acts, 0, n, data[p]);
    NotElsewhere(data, p);
    DueOnlyFrom(data[..p], acts, 0, {}, data[p]);
    var after := Due(rest, acts, n, removed);
    assert rest[0] == data[p] && rest[1..] == data[p + 1..];
    DueOnlyFrom(data[p + 1..], acts, n, removed, data[p]);
    DueOnlyFrom(data[p + 1..], acts, n + 1, removed + Removed(acts(n)), data[p]);
    assert Due(data, acts, 0, {}) == before + after;
  }

  // ----- data that is registered twice -----

  function Armed(data: seq<nat>): seq<Callback> {
    seq(|data|, j requires 0 <= j < |data| => Callback(data[j], true))
  }

  /** Call `p` removes the data of entry `p`, and no other call does anything. */
  function RemoveOwn(data: seq<nat>, p: nat): nat -> seq<Act>
    requires p < |data|
  {
    k => if k == p then [Remove(data[p])] else []
  }

  ghost predicate FirstRepeat(data: seq<nat>, p: nat) {
    p < |data| && data[p] !in data[..p] && data[p] in data[p + 1..]
  }

  lemma {:induction false} RepeatIn(data: seq<nat>) returns (p: nat)
    requires !Distinct(data)
    ensures FirstRepeat(data, p)
  {
    var a, b :| 0 <= a < b < |data| && data[a] == data[b];
    p := 0;
    while data[p] != data[a]
      invariant p <= a && data[a] !in data[..p]
      decreases a - p
    {
      p := p + 1;
    }
    assert data[p + 1..][b - p - 1] == data[p];
  }

  /** The entries carry `data`, and those from `i` on are armed. */
  ghost predicate RunsFrom(cs: seq<Callback>, data: seq<nat>, i: nat, p: nat) {
    && |cs| == |data|
    && forall j :: 0 <= j < |cs| ==> cs[j].data == data[j] && (j >= i || i <= p ==> cs[j].armed)
  }

  /** The removal disarms the entry that runs, so that all entries run. */
  lemma {:induction false} AllRun(cs: seq<Callback>, data: seq<nat>, i: nat, p: nat)
    requires FirstRepeat(data, p) && RunsFrom(cs, data, i, p) && i <= |data|
    ensures Pass(cs, i, RemoveOwn(data, p), i) == data[i..]
    decreases |data| - i
  {
    assert p < |data|;
    hide RunsFrom, Perform, RemoveOwn, FirstRepeat, Pass;
    OneRuns(cs, data, i, p);
    if i < |data| {
      AllRun(Perform(cs, RemoveOwn(data, p)(i)), data, i + 1, p);
      assert data[i..] == [data[i]] + data[i + 1..];
    } else {
      assert data[i..] == [];
    }
  }

  /** Entry `i` runs, and disarms itself when it is the repeated one. */
  lemma OneRuns(cs: seq<Callback>, data: seq<nat>, i: nat, p: nat)
    requires FirstRepeat(data, p) && RunsFrom(cs, data, i, p) && i <= |data|
    ensures var acts := RemoveOwn(data, p);
            if i == |data| then Pass(cs, i, acts, i) == []
            else var n := Perform(cs, acts(i));
                 RunsFrom(n, data, i + 1, p) && Pass(cs, i, acts, i) == [data[i]] + Pass(n, i + 1, acts, i + 1)
  {
    hide Disarm;
    if i < |data| { Performed(cs, data, i, p); }
  }

  lemma Performed(cs: seq<Callback>, data: seq<nat>, i: nat, p: nat)
    requires FirstRepeat(data, p) && RunsFrom(cs, data, i, p) && i < |data|
    ensures Perform(cs, RemoveOwn(data, p)(i)) == if i == p then cs[p := Callback(data[p], false)] else cs
  {
    if i == p {
      hide Disarm, Erase;
      assert forall j :: 0 <= j < p ==> data[j] == data[..p][j];
      DisarmAt(cs, data[p], p);
      RemovesOne(cs, data[p]);
    }
  }

  lemma RemovesOne(cs: seq<Callback>, d: nat)
    ensures Perform(cs, [Remove(d)]) == Disarm(cs, d)
  {
    assert [Remove(d)][1..] == [];
  }

  lemma {:induction false} QuietIsDue(data: seq<nat>, acts: nat -> seq<Act>, k: nat)
    requires forall m :: k <= m < k + |data| ==> acts(m) == []
    ensures Due(data, acts, k, {}) == data && RemovedBy(acts, k, |data|) == {}
    decreases |data|
  {
    if data != [] { QuietIsDue(data[1..], acts, k + 1); }
  }

  lemma {:induction false} DueIsShorter(data: seq<nat>, acts: nat -> seq<Act>, k: nat, removed: set<nat>)
    ensures |Due(data, acts, k, removed)| <= |data|
    ensures (exists d :: d in removed && d in data) ==> |Due(data, acts, k, removed)| < |data|
    decreases |data|
  {
    if data != [] {
      DueIsShorter(data[1..], acts, k, removed);
      DueIsShorter(data[1..], acts, k + 1, removed + Removed(acts(k)));
    }
  }

  /** The entry that carries the repeated data again is due no longer. */
  lemma RepeatIsNotDue(data: seq<nat>, p: nat)
    requires FirstRepeat(data, p)
    ensures |Due(data, RemoveOwn(data, p), 0, {})| < |data|
  {
    var acts := RemoveOwn(data, p);
    var rest := data[p..];
    QuietIsDue(data[..p], acts, 0);
    DueConcat(data[..p], rest, acts, 0, {});
    assert data == data[..p] + rest && {} + RemovedBy(acts, 0, p) == {};
    assert rest[0] == data[p] && rest[1..] == data[p + 1..];
    assert acts(p) == [Remove(data[p])] && Remove(data[p]) in acts(p);
    assert data[p] in {} + Removed(acts(p));
    DueIsShorter(data[p + 1..], acts, p + 1, {} + Removed(acts(p)));
  }

  /** The pass calls what is due whatever the callbacks do, exactly when no data is registered twice. */
  lemma {:induction false} DueIffDistinct(data: seq<nat>)
    ensures (forall acts: nat -> seq<Act> :: Pass(Armed(data), 0, acts, 0) == Due(data, acts, 0, {})) <==> Distinct(data)
  {
    if Distinct(data) {
      forall acts: nat -> seq<Act>
        ensures Pass(Armed(data), 0, acts, 0) == Due(data, acts, 0, {})
      {
        PassIsDue(Armed(data), data, 0, acts, 0, {});
        assert data[0..] == data;
      }
    } else {
      var p := RepeatIn(data);
      AllRun(Armed(data), data, 0, p);
      RepeatIsNotDue(data, p);
      assert Pass(Armed(data), 0, RemoveOwn(data, p), 0) != Due(data, RemoveOwn(data, p), 0, {});
    }
  }

  /** With the same data twice, a removal in the first call disarms the entry that has run: the second runs still. */
  lemma SameDataTwice()
    ensures var cs, acts := [Callback(7, true), Callback(7, true)], (k: nat) => [Remove(7)];
            Pass(cs, 0, acts, 0) == [7, 7] && Due([7, 7], acts, 0, {}) == [7]
  {
    var cs, acts := [Callback(7, true), Callback(7, true)], (k: nat) => [Remove(7)];
    var one := [Callback(7, false), Callback(7, true)];
    assert cs[1..] == [Callback(7, true)];
    assert Disarm(cs, 7) == one;
    assert acts(0)[1..] == [];
    assert Perform(cs, acts(0)) == one;
    assert Pass(one, 1, acts, 1) == [7] + Pass(Perform(one, acts(1)), 2, acts, 2);
    assert Removed(acts(0)) == {7} by { RemovedStep(acts(0)); assert Removed([]) == {}; }
    assert [7, 7][1..] == [7] && [7][1..] == [];
  }

  // ----- the list -----

  class CallbackList {
    var callbacks: seq<Callback>
    var clearing: bool

    constructor ()
      ensures callbacks == [] && !clearing
    {
      callbacks, clearing := [], false;
    }

    method AddCallback(data: nat)
      modifies this`callbacks
      ensures callbacks == if clearing then old(callbacks) else old(callbacks) + [Callback(data, true)]
    {
      if !clearing { callbacks := callbacks + [Callback(data, true)]; }
    }

    method RemoveCallback(data: nat)
      modifies this`callbacks
      ensures callbacks == if clearing then Disarm(old(callbacks), data) else Erase(old(callbacks), data)
    {
      var i := 0;
      while i < |callbacks|
        invariant 0 <= i <= |callbacks| && callbacks == old(callbacks)
        invariant forall j :: 0 <= j < i ==> callbacks[j] != Callback(data, true)
      {
        if callbacks[i].data == data && callbacks[i].armed {
          DisarmAt(callbacks, data, i);
          if clearing {
            callbacks := callbacks[i := callbacks[i].(armed := false)];
          } else {
            callbacks := callbacks[..i] + callbacks[i + 1..];
          }
          return;
        }
        i := i + 1;
      }
      DisarmNone(callbacks, data);
    }

    /** What a callback does to the list that is calling it. */
    method Run(acts: seq<Act>)
      requires clearing
      modifies this`callbacks
      ensures callbacks == Perform(old(callbacks), acts)
    {
      var k := 0;
      assert acts[0..] == acts;
      while k < |acts|
        invariant 0 <= k <= |acts|
        invariant Perform(callbacks, acts[k..]) == Perform(old(callbacks), acts)
      {
        assert acts[k..][1..] == acts[k + 1..];
        if acts[k].Remove? { RemoveCallback(acts[k].data); } else { AddCallback(acts[k].data); }
        k := k + 1;
      }
    }

    /** The destructor: `calls` are the callbacks it made. */
    method Destroy(acts: nat -> seq<Act>) returns (calls: seq<nat>)
      modifies this
      ensures calls == Pass(old(callbacks), 0, acts, 0)
      ensures clearing && |callbacks| == old(|callbacks|)
    {
      clearing := true;
      calls := [];
      var i := 0;
      while i < |callbacks|
        invariant clearing && 0 <= i <= |callbacks| == old(|callbacks|)
        invariant calls + Pass(callbacks, i, acts, |calls|) == Pass(old(callbacks), 0, acts, 0)
        decreases |callbacks| - i
      {
        if callbacks[i].armed {
          ghost var k := |calls|;
          ghost var before := calls;
          ghost var data := callbacks[i].data;
          ghost var later := Pass(Perform(callbacks, acts(k)), i + 1, acts, k + 1);
          assert before + ([data] + later) == before + [data] + later;
          calls := calls + [callbacks[i].data];
          Run(acts(|calls| - 1));
        }
        i := i + 1;
      }
    }

    /** clear(): a pass, after which the list is empty and takes callbacks again. */
    method Clear(acts: nat -> seq<Act>) returns (calls: seq<nat>)
      modifies this
      ensures calls == Pass(old(callbacks), 0, acts, 0)
      ensures callbacks == [] && !clearing
    {
      calls := Destroy(acts);
      callbacks := [];
      clearing := false;
    }
  }
}
