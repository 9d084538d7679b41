/** The completion callbacks: an ordered map from callback to its list of data, and the calls it stands for. */
module CallbackTable {

  datatype Entry = Entry(cb: nat, data: seq<nat>)

  datatype Call = Call(cb: nat, datum: nat)

  /** `callbacks[cb].push_back(datum)` on a map kept in key order. */
  function PushBack(table: seq<Entry>, cb: nat, datum: nat): seq<Entry> {
    if table == [] || cb < table[0].cb then [Entry(cb, [datum])] + table
    else if cb == table[0].cb then [Entry(cb, table[0].data + [datum])] + table[1..]
    else [table[0]] + PushBack(table[1..], cb, datum)
  }

  function Calls(cb: nat, data: seq<nat>): (cs: seq<Call>)
    ensures |cs| == |data|
  {
    seq(|data|, i requires 0 <= i < |data| => Call(cb, data[i]))
  }

  /** All calls of the table, callback by callback and in registration order. */
  function Flatten(table: seq<Entry>): seq<Call> {
    if table == [] then [] else Calls(table[0].cb, table[0].data) + Flatten(table[1..])
  }

  /** The calls made when the nested iterators stand at entry `it`, datum `lit`. */
  function Done(table: seq<Entry>, it: nat, lit: nat): seq<Call>
    requires it <= |table|
    requires if it < |table| then lit <= |table[it].data| else lit == 0
  {
    if it == |table| then Flatten(table)
    else Flatten(table[..it]) + Calls(table[it].cb, table[it].data[..lit])
  }

  lemma {:induction false} FlattenConcat(a: seq<Entry>, b: seq<Entry>)
    ensures Flatten(a + b) == Flatten(a) + Flatten(b)
  {
    if a == [] {
      assert a + b == b;
    } else {
      assert (a + b)[1..] == a[1..] + b;
      FlattenConcat(a[1..], b);
    }
  }

  lemma NextDatum(table: seq<Entry>, it: nat, lit: nat)
    requires it < |table| && lit < |table[it].data|
    ensures Done(table, it, lit + 1) == Done(table, it, lit) + [Call(table[it].cb, table[it].data[lit])]
  {
    var data := table[it].data;
    assert data[..lit + 1] == data[..lit] + [data[lit]];
    assert Calls(table[it].cb, data[..lit + 1]) == Calls(table[it].cb, data[..lit]) + [Call(table[it].cb, data[lit])];
  }

  lemma NextEntry(table: seq<Entry>, it: nat)
    requires it < |table|
    ensures Done(table, it + 1, 0) == Done(table, it, |table[it].data|)
  {
    assert table[..it + 1] == table[..it] + [table[it]];
    FlattenConcat(table[..it], [table[it]]);
    assert table[it].data[..|table[it].data|] == table[it].data;
    if it + 1 == |table| {
      assert table[..it + 1] == table;
    } else {
      assert table[it + 1].data[..0] == [];
    }
  }

  lemma AllDone(table: seq<Entry>)
    ensures Done(table, |table|, 0) == Flatten(table)
  {
  }

  /** A registration adds its own call to the table and moves no other. */
  lemma {:induction false} PushBackCounts(table: seq<Entry>, cb: nat, datum: nat)
    ensures multiset(Flatten(PushBack(table, cb, datum))) == multiset(Flatten(table)) + multiset{Call(cb, datum)}
  {
    if table != [] && table[0].cb < cb {
      PushBackLater(table, cb, datum);
      PushBackCounts(table[1..], cb, datum);
    } else {
      PushBackHere(table, cb, datum);
    }
  }

  lemma PushBackLater(table: seq<Entry>, cb: nat, datum: nat)
    requires table != [] && table[0].cb < cb
    ensures Flatten(PushBack(table, cb, datum)) == Calls(table[0].cb, table[0].data) + Flatten(PushBack(table[1..], cb, datum))
  {
    assert PushBack(table, cb, datum)[1..] == PushBack(table[1..], cb, datum);
  }

  lemma PushBackHere(table: seq<Entry>, cb: nat, datum: nat)
    requires table == [] || cb <= table[0].cb
    ensures multiset(Flatten(PushBack(table, cb, datum))) == multiset(Flatten(table)) + multiset{Call(cb, datum)}
  {
    var pushed := PushBack(table, cb, datum);
    if table == [] || cb < table[0].cb {
      assert pushed[1..] == table;
      assert Calls(cb, [datum]) == [Call(cb, datum)];
    } else {
      assert pushed[1..] == table[1..];
      assert Calls(cb, table[0].data + [datum]) == Calls(cb, table[0].data) + [Call(cb, datum)];
    }
  }

  /** The entries of a map, in key order. */
  ghost predicate Ascending(table: seq<Entry>) {
    forall i, j :: 0 <= i < j < |table| ==> table[i].cb < table[j].cb
  }

  lemma {:induction false} CallHasEntry(table: seq<Entry>, c: Call)
    requires c in Flatten(table)
    ensures exists i :: 0 <= i < |table| && table[i].cb == c.cb
  {
    if c in Calls(table[0].cb, table[0].data) {
      assert table[0].cb == c.cb;
    } else {
      CallHasEntry(table[1..], c);
      var i :| 0 <= i < |table[1..]| && table[1..][i].cb == c.cb;
      assert table[i + 1].cb == c.cb;
    }
  }

  /** All calls of a map whose keys are above `cb`. */
  lemma CallsAbove(table: seq<Entry>, cb: nat)
    requires forall i :: 0 <= i < |table| ==> cb < table[i].cb
    ensures forall c :: c in Flatten(table) ==> cb < c.cb
  {
    hide Flatten;
    forall c | c in Flatten(table)
      ensures exists i :: 0 <= i < |table| && table[i].cb == c.cb
    {
      CallHasEntry(table, c);
    }
  }

  lemma NewCallback(table: seq<Entry>, cb: nat, datum: nat)
    requires table == [] || cb < table[0].cb
    ensures Flatten(PushBack(table, cb, datum)) == [Call(cb, datum)] + Flatten(table)
    ensures Ascending(table) ==> forall c :: c in Flatten(table) ==> cb < c.cb
  {
    var pushed := PushBack(table, cb, datum);
    assert pushed[1..] == table;
    assert Calls(cb, [datum]) == [Call(cb, datum)];
    if Ascending(table) { CallsAbove(table, cb); }
  }

  lemma SameCallback(table: seq<Entry>, cb: nat, datum: nat)
    requires table != [] && cb == table[0].cb
    ensures Flatten(PushBack(table, cb, datum)) == Calls(cb, table[0].data) + [Call(cb, datum)] + Flatten(table[1..])
    ensures Ascending(table) ==> forall c :: c in Flatten(table[1..]) ==> cb < c.cb
  {
    var pushed := PushBack(table, cb, datum);
    assert pushed[1..] == table[1..];
    assert Calls(cb, table[0].data + [datum]) == Calls(cb, table[0].data) + [Call(cb, datum)];
    if Ascending(table) { CallsAbove(table[1..], cb); }
  }

  /**
   A registration moves no call, and puts its own behind calls of the same callback and of lower ones only;
   in a table in ascending order, behind all of these.
   */
  lemma {:induction false} PushBackKeepsOrder(table: seq<Entry>, cb: nat, datum: nat) returns (before: seq<Call>, after: seq<Call>)
    ensures Flatten(table) == before + after
    ensures Flatten(PushBack(table, cb, datum)) == before + [Call(cb, datum)] + after
    ensures forall c :: c in before ==> c.cb <= cb
    ensures Ascending(table) ==> forall c :: c in after ==> cb < c.cb
  {
    hide PushBack, Ascending, Calls;
    if table == [] || cb < table[0].cb {
      NewCallback(table, cb, datum);
      before, after := [], Flatten(table);
      assert Flatten(table) == [] + after;
      assert [Call(cb, datum)] + after == [] + [Call(cb, datum)] + after;
    } else if cb == table[0].cb {
      SameCallback(table, cb, datum);
      CallsOf(cb, table[0].data);
      before, after := Calls(cb, table[0].data), Flatten(table[1..]);
    } else {
      PushBackLater(table, cb, datum);
      var first := Calls(table[0].cb, table[0].data);
      var rest;
      rest, after := PushBackKeepsOrder(table[1..], cb, datum);
      before := first + rest;
      assert first + (rest + after) == before + after;
      assert first + (rest + [Call(cb, datum)] + after) == before + [Call(cb, datum)] + after;
      CallsOf(table[0].cb, table[0].data);
      if Ascending(table) { AscendingTail(table); }
    }
  }

  lemma CallsOf(cb: nat, data: seq<nat>)
    ensures forall c :: c in Calls(cb, data) ==> c.cb == cb
  {
  }

  lemma AscendingTail(table: seq<Entry>)
    requires table != [] && Ascending(table)
    ensures Ascending(table[1..])
  {
  }

  lemma {:induction false} PushBackKeys(table: seq<Entry>, cb: nat, datum: nat, i: nat)
    requires i < |PushBack(table, cb, datum)|
    ensures PushBack(table, cb, datum)[i].cb == cb || exists j :: 0 <= j < |table| && table[j].cb == PushBack(table, cb, datum)[i].cb
  {
    var pushed := PushBack(table, cb, datum);
    if table != [] && table[0].cb < cb {
      if i == 0 {
        assert table[0].cb == pushed[0].cb;
      } else {
        PushBackKeys(table[1..], cb, datum, i - 1);
        if pushed[i].cb != cb {
          var j :| 0 <= j < |table[1..]| && table[1..][j].cb == pushed[i].cb;
          assert table[j + 1].cb == pushed[i].cb;
        }
      }
    } else if pushed[i].cb != cb {
      var j := if table == [] || cb < table[0].cb then i - 1 else i;
      assert table[j].cb == pushed[i].cb;
    }
  }

  lemma {:induction false} PushBackAscends(table: seq<Entry>, cb: nat, datum: nat)
    requires Ascending(table)
    ensures Ascending(PushBack(table, cb, datum))
  {
    if table != [] && table[0].cb < cb {
      var rest := PushBack(table[1..], cb, datum);
      PushBackAscends(table[1..], cb, datum);
      forall i | 0 <= i < |rest|
        ensures table[0].cb < rest[i].cb
      {
        PushBackKeys(table[1..], cb, datum, i);
      }
    }
  }
}
