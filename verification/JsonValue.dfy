/**
 Values of the JSON library and their ordering.

 Arrays and objects are both ordered maps from a CZString key to a value; a key is an
 index in an array and a C string in an object.  `Members` lists a map in key order.
 */
module JsonValue {
  import opened CText

  const MAX_INT := 0x7FFF_FFFF
  const MAX_UINT := 0xFFFF_FFFF
  const MAX_LONG := 0x7FFF_FFFF_FFFF_FFFF
  const MAX_ULONG := 0xFFFF_FFFF_FFFF_FFFF

  /** A `char *` holding a C string: a null pointer or characters without NUL. */
  datatype CStr = NullPtr | Text(s: string)

  datatype Key = Index(index: int) | Name(name: string)

  datatype Members = End | Member(key: Key, value: Value, rest: Members)

  datatype Value =
    | Null
    | Int(i: int)
    | UInt(i: int)
    | Long(i: int)
    | ULong(i: int)
    | Real(r: real)
    | Str(c: CStr)
    | Bool(b: bool)
    | Arr(elems: Members)
    | Obj(members: Members)

  function Container(ms: Members, named: bool): Value {
    if named then Obj(ms) else Arr(ms)
  }

  /** The enumeration value of type(). */
  function TypeOf(v: Value): int {
    match v
    case Null => 0
    case Int(_) => 1
    case UInt(_) => 2
    case Long(_) => 3
    case ULong(_) => 4
    case Real(_) => 5
    case Str(_) => 6
    case Bool(_) => 7
    case Arr(_) => 8
    case Obj(_) => 9
  }

  function Count(ms: Members): nat {
    match ms
    case End => 0
    case Member(_, _, rest) => 1 + Count(rest)
  }

  // ----- C strings -----

  /** strcmp(a, b) < 0 */
  predicate StrLess(a: string, b: string) {
    b != "" && (a == "" || a[0] < b[0] || (a[0] == b[0] && StrLess(a[1..], b[1..])))
  }

  lemma {:induction false} StrTrichotomy(a: string, b: string)
    ensures a == b ==> !StrLess(a, b)
    ensures a != b ==> (StrLess(a, b) <==> !StrLess(b, a))
  {
    if a != "" && b != "" && a[0] == b[0] {
      assert a == [a[0]] + a[1..] && b == [b[0]] + b[1..];
      StrTrichotomy(a[1..], b[1..]);
    }
  }

  lemma {:induction false} StrTransitive(a: string, b: string, c: string)
    requires StrLess(a, b) && StrLess(b, c)
    ensures StrLess(a, c)
  {
    if a != "" && a[0] == b[0] && b[0] == c[0] { StrTransitive(a[1..], b[1..], c[1..]); }
  }

  // ----- well-formed values -----

  /** CZString::operator< on two keys of the same map kind. */
  predicate KeyLess(a: Key, b: Key) {
    if a.Name? then b.Name? && StrLess(a.name, b.name) else b.Index? && a.index < b.index
  }

  predicate KeyValid(k: Key, isArray: bool) {
    if isArray then k.Index? && 0 <= k.index <= MAX_INT else k.Name? && NulFree(k.name)
  }

  /** The keys of an object: C strings in ascending order. */
  predicate NamesAscend(ms: Members) {
    ms.End? ||
    (KeyValid(ms.key, false) && NamesAscend(ms.rest) && (ms.rest.Member? ==> KeyLess(ms.key, ms.rest.key)))
  }

  predicate MembersValid(ms: Members, isArray: bool) {
    match ms
    case End => true
    case Member(k, v, rest) =>
      KeyValid(k, isArray) && Valid(v) && MembersValid(rest, isArray) && (rest.Member? ==> KeyLess(k, rest.key))
  }

  /** Every number fits its type, C strings hold no NUL, keys ascend and sizes fit an int. */
  predicate Valid(v: Value) {
    match v
    case Null => true
    case Int(i) => -MAX_INT - 1 <= i <= MAX_INT
    case UInt(i) => 0 <= i <= MAX_UINT
    case Long(i) => -MAX_LONG - 1 <= i <= MAX_LONG
    case ULong(i) => 0 <= i <= MAX_ULONG
    case Real(_) => true
    case Str(c) => c.Text? ==> NulFree(c.s)
    case Bool(_) => true
    case Arr(ms) => MembersValid(ms, true) && Count(ms) <= MAX_INT
    case Obj(ms) => MembersValid(ms, false) && Count(ms) <= MAX_INT
  }

  // ----- operator< and operator== -----

  /** A size difference converted to int. */
  function IntDelta(a: int, b: int): int {
    var d := (a - b) % 0x1_0000_0000;
    if d <= MAX_INT then d else d - 0x1_0000_0000
  }

  /** A measure for recursion over two values at once. */
  ghost function Size(v: Value): (n: nat)
    ensures n > 0
  {
    match v
    case Arr(ms) => 2 + SizeOf(ms)
    case Obj(ms) => 2 + SizeOf(ms)
    case _ => 1
  }

  ghost function SizeOf(ms: Members): nat {
    match ms
    case End => 0
    case Member(_, v, rest) => 1 + Size(v) + SizeOf(rest)
  }

  /** Value::operator< */
  predicate Less(a: Value, b: Value)
    decreases Size(a) + Size(b), 0
  {
    if TypeOf(a) != TypeOf(b) then TypeOf(a) < TypeOf(b)
    else match a
      case Null => false
      case Int(i) => i < b.i
      case UInt(i) => i < b.i
      case Long(i) => i < b.i
      case ULong(i) => i < b.i
      case Real(r) => r < b.r
      case Bool(x) => !x && b.b
      case Str(c) => (c.NullPtr? && b.c.Text?) || (b.c.Text? && c.Text? && StrLess(c.s, b.c.s))
      case Arr(ms) => MapLess(ms, b.elems)
      case Obj(ms) => MapLess(ms, b.members)
  }

  predicate MapLess(a: Members, b: Members)
    decreases SizeOf(a) + SizeOf(b), 2
  {
    if IntDelta(Count(a), Count(b)) != 0 then IntDelta(Count(a), Count(b)) < 0 else MembersLess(a, b)
  }

  /** std::lexicographical_compare with the operator< of std::pair. */
  predicate MembersLess(a: Members, b: Members)
    decreases SizeOf(a) + SizeOf(b), 1
  {
    if b.End? then false
    else if a.End? then true
    else if KeyLess(a.key, b.key) || (!KeyLess(b.key, a.key) && Less(a.value, b.value)) then true
    else if KeyLess(b.key, a.key) || (!KeyLess(a.key, b.key) && Less(b.value, a.value)) then false
    else MembersLess(a.rest, b.rest)
  }

  /** Value::operator== */
  predicate Equal(a: Value, b: Value) {
    if TypeOf(a) != TypeOf(b) then false
    else match a
      case Null => true
      case Int(i) => i == b.i
      case UInt(i) => i == b.i
      case Long(i) => i == b.i
      case ULong(i) => i == b.i
      case Real(r) => r == b.r
      case Bool(x) => x == b.b
      case Str(c) => (c.NullPtr? && b.c.NullPtr?) || (b.c.Text? && c.Text? && c.s == b.c.s)
      case Arr(ms) => Count(ms) == Count(b.elems) && MembersEqual(ms, b.elems)
      case Obj(ms) => Count(ms) == Count(b.members) && MembersEqual(ms, b.members)
  }

  /** std::equal with the operator== of std::pair; a key compares by strcmp or by index. */
  predicate MembersEqual(a: Members, b: Members) {
    match a
    case End => true
    case Member(k, v, rest) =>
      b.Member? && KeyEqual(k, b.key) && Equal(v, b.value) && MembersEqual(rest, b.rest)
  }

  predicate KeyEqual(a: Key, b: Key) {
    if a.Name? then b.Name? && a.name == b.name else b.Index? && a.index == b.index
  }

  // ----- main results: a strict total order whose equivalence is operator== -----

  /** operator== is structural equality. */
  lemma {:induction false} EqualIsStructural(a: Value, b: Value)
    ensures Equal(a, b) <==> a == b
  {
    match a {
      case Arr(ms) => if b.Arr? { MembersEqualIsStructural(ms, b.elems); }
      case Obj(ms) => if b.Obj? { MembersEqualIsStructural(ms, b.members); }
      case _ =>
    }
  }

  lemma {:induction false} MembersEqualIsStructural(a: Members, b: Members)
    ensures Count(a) == Count(b) && MembersEqual(a, b) <==> a == b
  {
    if a.Member? && b.Member? {
      EqualIsStructural(a.value, b.value);
      MembersEqualIsStructural(a.rest, b.rest);
    }
  }

  lemma KeyTrichotomy(a: Key, b: Key, isArray: bool)
    requires KeyValid(a, isArray) && KeyValid(b, isArray)
    ensures a == b ==> !KeyLess(a, b)
    ensures a != b ==> (KeyLess(a, b) <==> !KeyLess(b, a))
  {
    if !isArray { StrTrichotomy(a.name, b.name); }
  }

  lemma KeyTransitive(a: Key, b: Key, c: Key)
    requires KeyLess(a, b) && KeyLess(b, c)
    ensures KeyLess(a, c)
  {
    if a.Name? { StrTransitive(a.name, b.name, c.name); }
  }

  /** Exactly one of a < b, a == b and b < a holds. */
  lemma TypesTrichotomy(a: Value, b: Value)
    requires TypeOf(a) != TypeOf(b)
    ensures a != b && (Less(a, b) <==> !Less(b, a))
  {
    hide MembersLess;
  }

  function Inside(v: Value): Members
    requires v.Arr? || v.Obj?
  {
    if v.Arr? then v.elems else v.members
  }

  lemma ContainersLess(a: Value, b: Value)
    requires Valid(a) && Valid(b) && TypeOf(a) == TypeOf(b) && (a.Arr? || a.Obj?)
    ensures (b.Arr? <==> a.Arr?) && (b.Obj? <==> a.Obj?) && (a == b <==> Inside(a) == Inside(b))
    ensures Less(a, b) <==> MapLess(Inside(a), Inside(b))
    ensures MembersValid(Inside(a), a.Arr?) && Count(Inside(a)) <= MAX_INT && Size(a) == 2 + SizeOf(Inside(a))
  {
    hide MapLess;
  }

  lemma MapTrichotomy(a: Members, b: Members)
    requires Count(a) <= MAX_INT && Count(b) <= MAX_INT
    requires (a == b ==> !MembersLess(a, b)) && (a != b ==> (MembersLess(a, b) <==> !MembersLess(b, a)))
    ensures (a == b ==> !MapLess(a, b)) && (a != b ==> (MapLess(a, b) <==> !MapLess(b, a)))
  {
    hide MembersLess, Count, IntDelta;
    DeltaIsDifference(Count(a), Count(b));
    DeltaIsDifference(Count(b), Count(a));
  }

  lemma {:induction false} Trichotomy(a: Value, b: Value)
    requires Valid(a) && Valid(b)
    ensures a == b ==> !Less(a, b)
    ensures a != b ==> (Less(a, b) <==> !Less(b, a))
    decreases Size(a) + Size(b), 0
  {
    hide MembersLess, MapLess, Less, Valid, Size;
    if TypeOf(a) != TypeOf(b) {
      TypesTrichotomy(a, b);
    } else if a.Arr? || a.Obj? {
      ContainersLess(a, b);
      ContainersLess(b, a);
      MembersTrichotomy(Inside(a), Inside(b), a.Arr?);
      MapTrichotomy(Inside(a), Inside(b));
    } else {
      ScalarTrichotomy(a, b);
    }
  }

  lemma ScalarTrichotomy(a: Value, b: Value)
    requires Valid(a) && Valid(b) && TypeOf(a) == TypeOf(b) && !a.Arr? && !a.Obj?
    ensures a == b ==> !Less(a, b)
    ensures a != b ==> (Less(a, b) <==> !Less(b, a))
  {
    if a.Str? && a.c.Text? && b.c.Text? { StrTrichotomy(a.c.s, b.c.s); }
  }

  lemma {:induction false} MembersTrichotomy(a: Members, b: Members, isArray: bool)
    requires MembersValid(a, isArray) && MembersValid(b, isArray)
    ensures a == b ==> !MembersLess(a, b)
    ensures a != b ==> (MembersLess(a, b) <==> !MembersLess(b, a))
    decreases SizeOf(a) + SizeOf(b), 1
  {
    if a.Member? && b.Member? {
      KeyTrichotomy(a.key, b.key, isArray);
      Trichotomy(a.value, b.value);
      MembersTrichotomy(a.rest, b.rest, isArray);
    }
  }

  lemma {:induction false} Transitive(a: Value, b: Value, c: Value)
    requires Valid(a) && Valid(b) && Valid(c)
    requires Less(a, b) && Less(b, c)
    ensures Less(a, c)
    decreases Size(a) + Size(b) + Size(c), 0
  {
    if TypeOf(a) == TypeOf(b) == TypeOf(c) {
      match a {
        case Str(s) => if s.Text? && b.c.Text? && c.c.Text? { StrTransitive(s.s, b.c.s, c.c.s); }
        case Arr(ms) => MapTransitive(ms, b.elems, c.elems, true);
        case Obj(ms) => MapTransitive(ms, b.members, c.members, false);
        case _ =>
      }
    }
  }

  lemma DeltaIsDifference(a: nat, b: nat)
    requires a <= MAX_INT && b <= MAX_INT
    ensures IntDelta(a, b) == a - b
  {
  }

  lemma {:induction false} MapTransitive(a: Members, b: Members, c: Members, isArray: bool)
    requires MembersValid(a, isArray) && MembersValid(b, isArray) && MembersValid(c, isArray)
    requires Count(a) <= MAX_INT && Count(b) <= MAX_INT && Count(c) <= MAX_INT
    requires MapLess(a, b) && MapLess(b, c)
    ensures MapLess(a, c)
    decreases SizeOf(a) + SizeOf(b) + SizeOf(c), 2
  {
    var x, y, z := Count(a), Count(b), Count(c);
    DeltaIsDifference(x, y);
    DeltaIsDifference(y, z);
    DeltaIsDifference(x, z);
    if x == y == z { MembersTransitive(a, b, c, isArray); }
  }

  lemma {:induction false} MembersTransitive(a: Members, b: Members, c: Members, isArray: bool)
    requires MembersValid(a, isArray) && MembersValid(b, isArray) && MembersValid(c, isArray)
    requires MembersLess(a, b) && MembersLess(b, c)
    ensures MembersLess(a, c)
    decreases SizeOf(a) + SizeOf(b) + SizeOf(c), 1
  {
    if a.Member? {
      KeyTrichotomy(a.key, b.key, isArray);
      KeyTrichotomy(b.key, c.key, isArray);
      KeyTrichotomy(a.key, c.key, isArray);
      if KeyLess(a.key, b.key) && KeyLess(b.key, c.key) {
        KeyTransitive(a.key, b.key, c.key);
      } else if a.key == b.key == c.key {
        ValuesTransitive(a, b, c, isArray);
      }
    }
  }

  lemma {:induction false} ValuesTransitive(a: Members, b: Members, c: Members, isArray: bool)
    requires MembersValid(a, isArray) && MembersValid(b, isArray) && MembersValid(c, isArray)
    requires a.Member? && b.Member? && c.Member? && a.key == b.key == c.key
    requires MembersLess(a, b) && MembersLess(b, c)
    ensures MembersLess(a, c)
    decreases SizeOf(a) + SizeOf(b) + SizeOf(c), 0
  {
    KeyTrichotomy(a.key, a.key, isArray);
    Trichotomy(a.value, b.value);
    Trichotomy(b.value, c.value);
    Trichotomy(a.value, c.value);
    if Less(a.value, b.value) && Less(b.value, c.value) {
      Transitive(a.value, b.value, c.value);
    } else if a.value == b.value == c.value {
      MembersTransitive(a.rest, b.rest, c.rest, isArray);
    }
  }

  /** operator< is a strict total order on well-formed values and operator== is its equivalence. */
  lemma StrictTotalOrder(a: Value, b: Value, c: Value)
    requires Valid(a) && Valid(b) && Valid(c)
    ensures !Less(a, a)
    ensures Less(a, b) && Less(b, c) ==> Less(a, c)
    ensures !Less(a, b) && !Less(b, a) <==> Equal(a, b)
    ensures Less(a, b) ==> !Less(b, a)
  {
    Trichotomy(a, a);
    Trichotomy(a, b);
    EqualIsStructural(a, b);
    if Less(a, b) && Less(b, c) { Transitive(a, b, c); }
  }
}
