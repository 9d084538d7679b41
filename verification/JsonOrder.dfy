/** What the order on values means: sizes first, and then the first place in which two containers differ. */
module JsonOrder {
  import opened JsonValue

  // ----- strings -----

  /** The texts agree up to `k`, where `a` ends or has the lower character. */
  predicate LowerAt(a: string, b: string, k: nat) {
    k <= |a| && k < |b| && a[..k] == b[..k] && (k == |a| || a[k] < b[k])
  }

  lemma {:induction false} LowerFound(a: string, b: string) returns (k: nat)
    requires StrLess(a, b)
    ensures LowerAt(a, b, k)
  {
    k := 0;
    if a != "" && a[0] == b[0] {
      k := LowerFound(a[1..], b[1..]);
      assert a[..k + 1] == [a[0]] + a[1..][..k] && b[..k + 1] == [b[0]] + b[1..][..k];
      k := k + 1;
    }
  }

  lemma {:induction false} LowerIsLess(a: string, b: string, k: nat)
    requires LowerAt(a, b, k)
    ensures StrLess(a, b)
  {
    if k > 0 {
      assert a[0] == a[..k][0] == b[..k][0] == b[0];
      assert a[1..][..k - 1] == a[..k][1..] && b[1..][..k - 1] == b[..k][1..];
      LowerIsLess(a[1..], b[1..], k - 1);
    }
  }

  /** C strings are in dictionary order. */
  lemma StrLessIff(a: string, b: string)
    ensures StrLess(a, b) <==> exists k: nat :: LowerAt(a, b, k)
  {
    hide StrLess;
    if StrLess(a, b) { var k := LowerFound(a, b); }
    if k: nat :| LowerAt(a, b, k) { LowerIsLess(a, b, k); }
  }

  /** Names are in dictionary order, and indexes by size. */
  lemma KeyLessIff(a: Key, b: Key)
    ensures KeyLess(a, b) <==>
            (a.Name? && b.Name? && exists k: nat :: LowerAt(a.name, b.name, k)) || (a.Index? && b.Index? && a.index < b.index)
  {
    if a.Name? && b.Name? { StrLessIff(a.name, b.name); }
  }

  // ----- containers -----

  function Nth(ms: Members, k: nat): (Key, Value)
    requires k < Count(ms)
  {
    if k == 0 then (ms.key, ms.value) else Nth(ms.rest, k - 1)
  }

  predicate PairLess(a: (Key, Value), b: (Key, Value)) {
    KeyLess(a.0, b.0) || (a.0 == b.0 && Less(a.1, b.1))
  }

  /** The members agree up to the `k`-th, which is less in `a`. */
  ghost predicate LessAt(a: Members, b: Members, k: nat) {
    && k < Count(a) && k < Count(b) && (forall j: nat :: j < k ==> Nth(a, j) == Nth(b, j))
    && PairLess(Nth(a, k), Nth(b, k))
  }

  lemma Step(a: Members, b: Members, isArray: bool)
    requires a.Member? && b.Member? && MembersValid(a, isArray) && MembersValid(b, isArray)
    ensures MembersLess(a, b) <==>
            PairLess(Nth(a, 0), Nth(b, 0)) || (Nth(a, 0) == Nth(b, 0) && MembersLess(a.rest, b.rest))
  {
    hide Less, KeyLess;
    KeyTrichotomy(a.key, b.key, isArray);
    Trichotomy(a.value, b.value);
    Trichotomy(a.value, a.value);
    KeyTrichotomy(a.key, a.key, isArray);
  }

  lemma LessLater(a: Members, b: Members, k: nat)
    requires a.Member? && b.Member? && Nth(a, 0) == Nth(b, 0)
    ensures LessAt(a, b, k + 1) <==> LessAt(a.rest, b.rest, k)
  {
    hide PairLess;
    if LessAt(a, b, k + 1) {
      forall j: nat | j < k
        ensures Nth(a.rest, j) == Nth(b.rest, j)
      {
        assert Nth(a, j + 1) == Nth(b, j + 1);
      }
    }
    if LessAt(a.rest, b.rest, k) {
      forall j: nat | j < k + 1
        ensures Nth(a, j) == Nth(b, j)
      {
        if j > 0 { assert Nth(a.rest, j - 1) == Nth(b.rest, j - 1); }
      }
    }
  }

  lemma {:induction false} LessFound(a: Members, b: Members, isArray: bool) returns (k: nat)
    requires MembersValid(a, isArray) && MembersValid(b, isArray) && Count(a) == Count(b) && MembersLess(a, b)
    ensures LessAt(a, b, k)
    decreases a
  {
    hide PairLess, MembersLess;
    k := 0;
    assert a.Member? && b.Member? by { EmptyIsNotLess(a, b); }
    Step(a, b, isArray);
    if !PairLess(Nth(a, 0), Nth(b, 0)) {
      k := LessFound(a.rest, b.rest, isArray);
      LessLater(a, b, k);
      k := k + 1;
    }
  }

  lemma EmptyIsNotLess(a: Members, b: Members)
    requires MembersLess(a, b) && Count(a) == Count(b)
    ensures a.Member? && b.Member?
  {
  }

  lemma {:induction false} LessAtIsLess(a: Members, b: Members, isArray: bool, k: nat)
    requires MembersValid(a, isArray) && MembersValid(b, isArray) && LessAt(a, b, k)
    ensures MembersLess(a, b)
    decreases k
  {
    hide PairLess, MembersLess;
    Step(a, b, isArray);
    if k > 0 {
      assert Nth(a, 0) == Nth(b, 0);
      LessLater(a, b, k - 1);
      LessAtIsLess(a.rest, b.rest, isArray, k - 1);
    }
  }

  /** Of two arrays, or two objects, the one with fewer members is less; with equally many, the first difference decides. */
  lemma MapLessIff(a: Members, b: Members, isArray: bool)
    requires MembersValid(a, isArray) && MembersValid(b, isArray) && Count(a) <= MAX_INT && Count(b) <= MAX_INT
    ensures MapLess(a, b) <==> Count(a) < Count(b) || (Count(a) == Count(b) && exists k: nat :: LessAt(a, b, k))
  {
    hide MembersLess, LessAt;
    DeltaIsDifference(Count(a), Count(b));
    if Count(a) == Count(b) {
      if MembersLess(a, b) { var k := LessFound(a, b, isArray); }
      if k: nat :| LessAt(a, b, k) { LessAtIsLess(a, b, isArray, k); }
    }
  }

  /** A value of each kind, the lowest first. */
  const KINDS := [Null, Int(0), UInt(0), Long(0), ULong(0), Real(0.0), Str(Text("")), Bool(false), Arr(End), Obj(End)]

  /** Values of different kinds are in the order of the kinds. */
  lemma KindsAscend(a: Value, b: Value, i: nat, j: nat)
    requires i < |KINDS| && j < |KINDS| && TypeOf(a) == TypeOf(KINDS[i]) && TypeOf(b) == TypeOf(KINDS[j]) && i != j
    ensures Less(a, b) <==> i < j
  {
    hide Less;
    KindAt(i);
    KindAt(j);
    assert TypeOf(a) != TypeOf(b) ==> (Less(a, b) <==> TypeOf(a) < TypeOf(b)) by { Kinds(a, b); }
  }

  lemma KindAt(i: nat)
    requires i < |KINDS|
    ensures TypeOf(KINDS[i]) == i
  {
  }

  lemma Kinds(a: Value, b: Value)
    ensures TypeOf(a) != TypeOf(b) ==> (Less(a, b) <==> TypeOf(a) < TypeOf(b))
  {
    hide MapLess;
  }

  /** operator<, kind by kind. */
  lemma LessIff(a: Value, b: Value)
    requires Valid(a) && Valid(b)
    ensures TypeOf(a) != TypeOf(b) ==> (Less(a, b) <==> TypeOf(a) < TypeOf(b))
    ensures TypeOf(a) == TypeOf(b) && (a.Int? || a.UInt? || a.Long? || a.ULong?) ==> (Less(a, b) <==> a.i < b.i)
    ensures a.Real? && b.Real? ==> (Less(a, b) <==> a.r < b.r)
    ensures a.Bool? && b.Bool? ==> (Less(a, b) <==> !a.b && b.b)
    ensures a.Str? && b.Str? ==>
              (Less(a, b) <==> b.c.Text? && (a.c.NullPtr? || exists k: nat :: LowerAt(a.c.s, b.c.s, k)))
    ensures a.Arr? && b.Arr? ==>
              (Less(a, b) <==> Count(a.elems) < Count(b.elems) ||
                               (Count(a.elems) == Count(b.elems) && exists k: nat :: LessAt(a.elems, b.elems, k)))
    ensures a.Obj? && b.Obj? ==>
              (Less(a, b) <==> Count(a.members) < Count(b.members) ||
                               (Count(a.members) == Count(b.members) && exists k: nat :: LessAt(a.members, b.members, k)))
  {
    hide MapLess, LessAt, LowerAt, StrLess;
    if a.Str? && b.Str? && a.c.Text? && b.c.Text? { StrLessIff(a.c.s, b.c.s); }
    if a.Arr? && b.Arr? { MapLessIff(a.elems, b.elems, true); }
    if a.Obj? && b.Obj? { MapLessIff(a.members, b.members, false); }
  }
}
