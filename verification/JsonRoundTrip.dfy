/**
 Reading back what a writer printed, for every rendering of a value, and what the reader
 guarantees on arbitrary text.
 */
module JsonRoundTrip {
  import opened Basics
  import opened CText
  import opened JsonValue
  import opened JsonNumber
  import opened JsonText
  import opened JsonReading

  /** All integers of the tree are in the range that survives. */
  predicate AllExact(v: Value) {
    match v
    case Int(i) => Exact(i)
    case UInt(i) => Exact(i)
    case Long(i) => Exact(i)
    case ULong(i) => Exact(i)
    case Arr(ms) => MembersExact(ms)
    case Obj(ms) => MembersExact(ms)
    case _ => true
  }

  predicate MembersExact(ms: Members) {
    ms.End? || (AllExact(ms.value) && MembersExact(ms.rest))
  }

  function Retyped(i: int): Value { Typed(i < 0, if i < 0 then -i else i) }

  /** The same tree with every integer in the reader's type for its magnitude. */
  function Canon(v: Value): Value {
    match v
    case Int(i) => Retyped(i)
    case UInt(i) => Retyped(i)
    case Long(i) => Retyped(i)
    case ULong(i) => Retyped(i)
    case Arr(ms) => Arr(CanonMembers(ms))
    case Obj(ms) => Obj(CanonMembers(ms))
    case _ => v
  }

  function CanonMembers(ms: Members): Members {
    if ms.End? then End else Member(ms.key, Canon(ms.value), CanonMembers(ms.rest))
  }

  // ----- reading one token of a layout -----

  predicate Follows(more: seq<string>) {
    more == [] || more[0] == "," || more[0] == "]" || more[0] == "}"
  }

  /** A layout begins, after white space, with its first token. */
  lemma LayoutHead(s: string, tokens: seq<string>) returns (r: string)
    requires Layout(s, tokens) && tokens != []
    ensures SkipSpaces(s) == tokens[0] + r && Layout(r, tokens[1..])
  {
    r := SkipSpaces(s)[|tokens[0]|..];
  }

  predicate Punctuation(token: string, kind: TokenType) {
    (token == "{" && kind == ObjectBegin) || (token == "}" && kind == ObjectEnd) ||
    (token == "[" && kind == ArrayBegin) || (token == "]" && kind == ArrayEnd) ||
    (token == "," && kind == ArraySeparator) || (token == ":" && kind == MemberSeparator)
  }

  lemma ReadPunctuation(s: string, tokens: seq<string>, kind: TokenType)
    requires tokens != [] && Punctuation(tokens[0], kind) && Layout(s, tokens)
    ensures ReadToken(s).kind == kind && Layout(ReadToken(s).rest, tokens[1..])
    ensures ReadPastComments(s) == ReadToken(s)
  {
    hide Layout;
    var r := LayoutHead(s, tokens);
    assert (tokens[0] + r)[1..] == r;
  }

  lemma ScanWord(v: Value, r: string)
    requires v.Null? || v.Bool?
    ensures var kind := if v.Null? then NullToken else if v.b then TrueToken else FalseToken;
            Scan(Scalar(v)[0], Scalar(v)[1..] + r) == (kind, (true, r))
  {
    var word := Scalar(v)[1..];
    assert word == if v.Null? then "ull" else if v.b then "rue" else "alse";
    assert word <= word + r && (word + r)[|word|..] == r;
  }

  lemma ReadKeyword(s: string, tokens: seq<string>, v: Value)
    requires tokens != [] && Layout(s, tokens) && (v.Null? || v.Bool?) && tokens[0] == Scalar(v)
    ensures var tok := ReadPastComments(s);
            tok.kind == (if v.Null? then NullToken else if v.b then TrueToken else FalseToken) &&
            Layout(tok.rest, tokens[1..])
  {
    var r := LayoutHead(s, tokens);
    assert (tokens[0] + r)[1..] == tokens[0][1..] + r;
    ScanWord(v, r);
  }

  lemma {:induction false} NumberEndAll(a: string, r: string)
    requires (forall i :: 0 <= i < |a| ==> NumberChar(a[i])) && (r == "" || !NumberChar(r[0]))
    ensures NumberEnd(a + r) == r
  {
    if a == "" {
      assert a + r == r;
    } else {
      assert (a + r)[1..] == a[1..] + r;
      NumberEndAll(a[1..], r);
    }
  }

  lemma AfterNumber(r: string, more: seq<string>)
    requires Layout(r, more) && Follows(more)
    ensures r == "" || !NumberChar(r[0])
  {
    if r != "" && !IsSpace(r[0]) { assert SkipSpaces(r) == r; }
  }

  lemma ReadNumber(s: string, tokens: seq<string>, i: int)
    requires tokens != [] && tokens[0] == Decimal(i) && Layout(s, tokens) && Follows(tokens[1..])
    ensures var tok := ReadPastComments(s);
            tok.kind == NumberToken && tok.text == Decimal(i) && Layout(tok.rest, tokens[1..])
  {
    hide Layout, Follows, Digits;
    var r := LayoutHead(s, tokens);
    var d := Decimal(i);
    DecimalIsPlain(i);
    AfterNumber(r, tokens[1..]);
    assert (d + r)[1..] == d[1..] + r;
    NumberEndAll(d[1..], r);
    assert (d + r)[..|d|] == d;
  }

  /** An escaped character is itself, or a backslash and the letter that stands for it. */
  lemma EscapeShape(c: char)
    ensures var e := EscapeChar(c);
            (e == [c] && c != '"' && c != '\\') || (|e| == 2 && e[0] == '\\' && EscapedChar(e[1]) == Some(c))
  {
  }

  lemma StringEndShape(e: string, c: char, tail: string)
    requires (e == [c] && c != '"' && c != '\\') || (|e| == 2 && e[0] == '\\' && EscapedChar(e[1]) == Some(c))
    requires tail != ""
    ensures StringEnd(e + tail) == StringEnd(tail)
  {
    assert (e + tail)[|e|..] == tail;
  }

  lemma {:induction false} StringEndEscape(x: string, r: string)
    ensures StringEnd(Escape(x) + ("\"" + r)) == (true, r)
  {
    if x == "" {
      assert Escape(x) + ("\"" + r) == "\"" + r;
      assert ("\"" + r)[1..] == r;
    } else {
      var tail := Escape(x[1..]) + ("\"" + r);
      assert Escape(x) + ("\"" + r) == EscapeChar(x[0]) + tail;
      EscapeShape(x[0]);
      StringEndShape(EscapeChar(x[0]), x[0], tail);
      StringEndEscape(x[1..], r);
    }
  }

  lemma UnescapeShape(e: string, c: char, tail: string)
    requires (e == [c] && c != '"' && c != '\\') || (|e| == 2 && e[0] == '\\' && EscapedChar(e[1]) == Some(c))
    ensures Unescape(e + tail) == Prepend(c, Unescape(tail))
  {
    assert (e + tail)[|e|..] == tail;
    if |e| == 2 {
      assert e[1] != 'u';
      assert (e + tail)[2..] == tail;
    }
  }

  lemma UnescapeChar(c: char, tail: string)
    ensures Unescape(EscapeChar(c) + tail) == Prepend(c, Unescape(tail))
  {
    EscapeShape(c);
    UnescapeShape(EscapeChar(c), c, tail);
  }

  lemma {:induction false} UnescapeEscape(x: string)
    ensures Unescape(Escape(x)) == Good(x)
  {
    if x != "" {
      UnescapeChar(x[0], Escape(x[1..]));
      UnescapeEscape(x[1..]);
      assert x == [x[0]] + x[1..];
    }
  }

  lemma ReadQuoted(s: string, tokens: seq<string>, x: string)
    requires tokens != [] && tokens[0] == Quote(x) && Layout(s, tokens)
    ensures var tok := ReadPastComments(s);
            tok.kind == StringToken && Unescape(Body(tok.text)) == Good(x) && Layout(tok.rest, tokens[1..])
  {
    var r := LayoutHead(s, tokens);
    var q := Quote(x);
    assert (q + r)[1..] == Escape(x) + ("\"" + r);
    StringEndEscape(x, r);
    assert (q + r)[..|q|] == q;
    assert Body(q) == Escape(x);
    UnescapeEscape(x);
  }

  // ----- building maps in key order -----

  function Cat(a: Members, b: Members): Members {
    if a.End? then b else Member(a.key, a.value, Cat(a.rest, b))
  }

  predicate AllBelow(ms: Members, k: Key) {
    ms.End? || (KeyLess(ms.key, k) && AllBelow(ms.rest, k))
  }

  lemma {:induction false} KeyIrreflexive(k: Key)
    ensures !KeyLess(k, k)
  {
    if k.Name? { StrTrichotomy(k.name, k.name); }
  }

  lemma KeyAsymmetric(a: Key, b: Key)
    requires KeyLess(a, b)
    ensures !KeyLess(b, a)
  {
    if a.Name? { StrTrichotomy(a.name, b.name); }
  }

  lemma {:induction false} PutLast(ms: Members, k: Key, v: Value)
    requires AllBelow(ms, k)
    ensures Put(ms, k, v) == Cat(ms, Member(k, v, End)) && Child(ms, k) == Null
  {
    if ms.Member? {
      KeyIrreflexive(k);
      KeyAsymmetric(ms.key, k);
      PutLast(ms.rest, k, v);
    }
  }

  lemma {:induction false} CatAssociates(a: Members, b: Members, c: Members)
    ensures Cat(Cat(a, b), c) == Cat(a, Cat(b, c))
  {
    if a.Member? { CatAssociates(a.rest, b, c); }
  }

  lemma {:induction false} CatBelow(ms: Members, k: Key, v: Value, next: Key)
    requires AllBelow(ms, k) && KeyLess(k, next)
    ensures AllBelow(Cat(ms, Member(k, v, End)), next)
  {
    if ms.Member? {
      KeyTransitive(ms.key, k, next);
      CatBelow(ms.rest, k, v, next);
    }
  }

  // ----- reading back a rendering -----

  ghost predicate NeverDouble(scan: DoubleParser) { forall t :: scan(t) == None }

  /** Success with the canonical tree when all integers are exact, else failure without a double parser. */
  ghost predicate ReadsAs(o: Outcome, exact: bool, v: Value, more: seq<string>, scan: DoubleParser) {
    && (exact ==> o.ok && o.value == v && o.errors == [] && Layout(o.rest, more))
    && (!exact && NeverDouble(scan) ==> !o.ok)
  }

  lemma ReadInteger(s: string, i: int, more: seq<string>, current: Value, scan: DoubleParser)
    requires Layout(s, [Decimal(i)] + more) && Follows(more)
    ensures ReadsAs(ReadValue(s, current, scan), Exact(i), Retyped(i), more, scan)
  {
    assert ([Decimal(i)] + more)[1..] == more;
    ReadNumber(s, [Decimal(i)] + more, i);
    DecodeInverts(i);
  }

  lemma ReadScalar(s: string, v: Value, more: seq<string>, current: Value, scan: DoubleParser)
    requires Writable(v) && !v.Arr? && !v.Obj? && Layout(s, [Scalar(v)] + more) && Follows(more)
    ensures ReadsAs(ReadValue(s, current, scan), AllExact(v), Canon(v), more, scan)
  {
    if v.Null? || v.Bool? {
      ReadConstant(s, v, more, current, scan);
    } else if v.Str? {
      ReadText(s, v, more, current, scan);
    } else {
      ReadInteger(s, v.i, more, current, scan);
    }
  }

  lemma ReadConstant(s: string, v: Value, more: seq<string>, current: Value, scan: DoubleParser)
    requires (v.Null? || v.Bool?) && Layout(s, [Scalar(v)] + more)
    ensures ReadsAs(ReadValue(s, current, scan), AllExact(v), Canon(v), more, scan)
  {
    hide Layout, Scalar;
    assert ([Scalar(v)] + more)[1..] == more;
    ReadKeyword(s, [Scalar(v)] + more, v);
  }

  lemma ReadText(s: string, v: Value, more: seq<string>, current: Value, scan: DoubleParser)
    requires Writable(v) && v.Str? && Layout(s, [Scalar(v)] + more)
    ensures ReadsAs(ReadValue(s, current, scan), AllExact(v), Canon(v), more, scan)
  {
    hide Layout, Quote;
    assert ([Scalar(v)] + more)[1..] == more;
    ReadQuoted(s, [Scalar(v)] + more, v.c.s);
  }

  lemma {:induction false} ReadRendered(s: string, v: Value, more: seq<string>, current: Value, scan: DoubleParser)
    requires Writable(v) && Layout(s, Tokens(v, more)) && Follows(more)
    ensures ReadsAs(ReadValue(s, current, scan), AllExact(v), Canon(v), more, scan)
    decreases v, 1
  {
    match v {
      case Arr(ms) => ReadArray(s, ms, more, current, scan);
      case Obj(ms) => ReadObject(s, ms, more, current, scan);
      case _ => ReadScalar(s, v, more, current, scan);
    }
  }

  lemma {:induction false} ReadArray(s: string, ms: Members, more: seq<string>, current: Value, scan: DoubleParser)
    requires Dense(ms, 0) && AllWritable(ms) && Follows(more)
    requires Layout(s, ["["] + ElementTokens(ms, true, ["]"] + more))
    ensures ReadsAs(ReadValue(s, current, scan), MembersExact(ms), Arr(CanonMembers(ms)), more, scan)
    decreases ms, 2
  {
    var tokens := ["["] + ElementTokens(ms, true, ["]"] + more);
    ReadPunctuation(s, tokens, ArrayBegin);
    var u := ReadPastComments(s).rest;
    assert Layout(u, ElementTokens(ms, true, ["]"] + more));
    var t := SkipSpaces(u);
    SkipTwice(u);
    assert Layout(t, ElementTokens(ms, true, ["]"] + more));
    if ms.End? {
      assert (["]"] + more)[1..] == more;
      assert t != "" && t[0] == ']' && Layout(t[1..], more);
    } else {
      var tail := ElementTokens(ms.rest, false, ["]"] + more);
      assert [] + Tokens(ms.value, tail) == Tokens(ms.value, tail);
      ValueStart(t, ms.value, ElementTokens(ms.rest, false, ["]"] + more));
      ReadElementsRendered(t, End, ms, 0, more, scan);
    }
  }

  lemma {:induction false} SkipTwice(s: string)
    ensures SkipSpaces(SkipSpaces(s)) == SkipSpaces(s)
  {
  }

  /** No value starts with a closing bracket. */
  lemma ValueStart(t: string, v: Value, more: seq<string>)
    requires Writable(v) && Layout(t, Tokens(v, more)) && SkipSpaces(t) == t
    ensures t != "" && t[0] != ']'
  {
    var r := LayoutHead(t, Tokens(v, more));
    if !v.Arr? && !v.Obj? && !v.Null? && !v.Bool? && !v.Str? { DecimalIsPlain(v.i); }
  }

  /** The loop goes on after an element that has been read as expected. */
  lemma {:induction false} AfterElementRendered(
    o: Outcome, before: Members, ms: Members, index: nat, more: seq<string>, scan: DoubleParser)
    requires ms.Member? && Dense(ms, index) && AllWritable(ms) && AllBelow(before, Index(index))
    requires ReadsAs(o, true, Canon(ms.value), ElementTokens(ms.rest, false, ["]"] + more), scan)
    ensures ReadsAs(AfterElement(o, Put(before, Index(index), o.value), index, scan),
                    MembersExact(ms.rest), Arr(Cat(before, Member(Index(index), o.value, CanonMembers(ms.rest)))), more, scan)
    decreases ms, 0
  {
    var key := Index(index);
    var tail := ElementTokens(ms.rest, false, ["]"] + more);
    PutLast(before, key, o.value);
    if ms.rest.End? {
      assert tail[1..] == more;
      ReadPunctuation(o.rest, tail, ArrayEnd);
    } else {
      assert tail[1..] == ElementTokens(ms.rest, true, ["]"] + more);
      ReadPunctuation(o.rest, tail, ArraySeparator);
      CatBelow(before, key, o.value, Index(index + 1));
      ReadElementsRendered(ReadToken(o.rest).rest, Put(before, key, o.value), ms.rest, index + 1, more, scan);
      CatAssociates(before, Member(key, o.value, End), CanonMembers(ms.rest));
    }
  }

  lemma {:induction false} ReadElementsRendered(
    s: string, before: Members, ms: Members, index: nat, more: seq<string>, scan: DoubleParser)
    requires ms.Member? && Dense(ms, index) && AllWritable(ms) && AllBelow(before, Index(index))
    requires Layout(s, ElementTokens(ms, true, ["]"] + more))
    ensures ReadsAs(ReadElements(s, before, index, scan), MembersExact(ms), Arr(Cat(before, CanonMembers(ms))), more, scan)
    decreases ms, 1
  {
    var key := Index(index);
    var tail := ElementTokens(ms.rest, false, ["]"] + more);
    assert [] + Tokens(ms.value, tail) == Tokens(ms.value, tail);
    ReadRendered(s, ms.value, tail, Child(before, key), scan);
    var o := ReadValue(s, Child(before, key), scan);
    if AllExact(ms.value) { AfterElementRendered(o, before, ms, index, more, scan); }
    assert ReadElements(s, before, index, scan) == AfterElement(o, Put(before, key, o.value), index, scan);
  }

  lemma {:induction false} ReadObject(s: string, ms: Members, more: seq<string>, current: Value, scan: DoubleParser)
    requires NamesAscend(ms) && AllWritable(ms) && Follows(more)
    requires Layout(s, ["{"] + MemberTokens(ms, true, ["}"] + more))
    ensures ReadsAs(ReadValue(s, current, scan), MembersExact(ms), Obj(CanonMembers(ms)), more, scan)
    decreases ms, 2
  {
    var tokens := ["{"] + MemberTokens(ms, true, ["}"] + more);
    ReadPunctuation(s, tokens, ObjectBegin);
    var u := ReadPastComments(s).rest;
    assert Layout(u, MemberTokens(ms, true, ["}"] + more));
    if ms.End? {
      ReadPunctuation(u, ["}"] + more, ObjectEnd);
      assert (["}"] + more)[1..] == more;
    } else {
      ReadMembersRendered(u, End, ms, "", more, scan);
    }
  }

  /** The name and the colon of a member. */
  lemma ReadMemberName(s: string, ms: Members, more: seq<string>) returns (s2: string)
    requires ms.Member? && NamesAscend(ms) && AllWritable(ms)
    requires Layout(s, MemberTokens(ms, true, more))
    ensures var tok := ReadPastComments(s);
            var colon := ReadToken(tok.rest);
            tok.kind == StringToken && Unescape(Body(tok.text)) == Good(ms.key.name) &&
            colon.kind == MemberSeparator && s2 == colon.rest &&
            Layout(s2, Tokens(ms.value, MemberTokens(ms.rest, false, more)))
  {
    var valueTokens := Tokens(ms.value, MemberTokens(ms.rest, false, more));
    var tokens := [Quote(ms.key.name)] + ([":"] + valueTokens);
    assert MemberTokens(ms, true, more) == tokens;
    ReadQuoted(s, tokens, ms.key.name);
    var s1 := ReadPastComments(s).rest;
    assert tokens[1..] == [":"] + valueTokens;
    ReadPunctuation(s1, [":"] + valueTokens, MemberSeparator);
    assert ([":"] + valueTokens)[1..] == valueTokens;
    s2 := ReadToken(s1).rest;
  }

  /** The loop goes on after a member that has been read as expected. */
  lemma {:induction false} AfterMemberRendered(
    o: Outcome, before: Members, ms: Members, more: seq<string>, scan: DoubleParser)
    requires ms.Member? && NamesAscend(ms) && AllWritable(ms) && AllBelow(before, ms.key)
    requires ReadsAs(o, true, Canon(ms.value), MemberTokens(ms.rest, false, ["}"] + more), scan)
    ensures ReadsAs(AfterMember(o, Put(before, ms.key, o.value), ms.key.name, scan),
                    MembersExact(ms.rest), Obj(Cat(before, Member(ms.key, o.value, CanonMembers(ms.rest)))), more, scan)
    decreases ms, 0
  {
    var tail := MemberTokens(ms.rest, false, ["}"] + more);
    PutLast(before, ms.key, o.value);
    if ms.rest.End? {
      assert tail[1..] == more;
      ReadPunctuation(o.rest, tail, ObjectEnd);
    } else {
      assert tail[1..] == MemberTokens(ms.rest, true, ["}"] + more);
      ReadPunctuation(o.rest, tail, ArraySeparator);
      CatBelow(before, ms.key, o.value, ms.rest.key);
      ReadMembersRendered(ReadToken(o.rest).rest, Put(before, ms.key, o.value), ms.rest, ms.key.name, more, scan);
      CatAssociates(before, Member(ms.key, o.value, End), CanonMembers(ms.rest));
    }
  }

  lemma {:induction false} ReadMembersRendered(
    s: string, before: Members, ms: Members, name: string, more: seq<string>, scan: DoubleParser)
    requires ms.Member? && NamesAscend(ms) && AllWritable(ms) && AllBelow(before, ms.key)
    requires Layout(s, MemberTokens(ms, true, ["}"] + more))
    ensures ReadsAs(ReadMembers(s, before, name, scan), MembersExact(ms), Obj(Cat(before, CanonMembers(ms))), more, scan)
    decreases ms, 1
  {
    var key := ms.key;
    var s2 := ReadMemberName(s, ms, ["}"] + more);
    ReadRendered(s2, ms.value, MemberTokens(ms.rest, false, ["}"] + more), Child(before, key), scan);
    var o := ReadValue(s2, Child(before, key), scan);
    if AllExact(ms.value) { AfterMemberRendered(o, before, ms, more, scan); }
    assert ReadMembers(s, before, name, scan) == AfterMember(o, Put(before, key, o.value), key.name, scan);
  }

  // ----- main result -----

  lemma NewlineLayout()
    ensures Layout("\n", [])
  {
    assert "\n"[1..] == "";
    assert SkipSpaces("\n") == "";
  }

  /**
   Every rendering of a writable tree reads back as the same tree with its integers in the
   reader's types, whatever was in the root before, exactly when its integers are in range.
   */
  lemma RoundTrip(text: string, v: Value, root: Value)
    requires Writable(v) && Renders(text, v)
    ensures AllExact(v) ==>
              forall scan :: var o := Parse(text + "\n", root, scan); o.ok && o.value == Canon(v) && o.errors == []
    ensures (forall scan :: Parse(text + "\n", root, scan).ok) ==> AllExact(v)
  {
    NewlineLayout();
    forall scan: DoubleParser
      ensures ReadsAs(ReadValue(text + "\n", root, scan), AllExact(v), Canon(v), [], scan)
    {
      ReadRendered(text + "\n", v, [], root, scan);
    }
    var never: DoubleParser := _ => None;
    assert ReadsAs(ReadValue(text + "\n", root, never), AllExact(v), Canon(v), [], never);
    assert !AllExact(v) ==> !Parse(text + "\n", root, never).ok;
  }

  // ----- the reader on arbitrary text -----

  /** A failing read records exactly one error and a successful one none. */
  ghost predicate OneErrorIffFailed(o: Outcome) { |o.errors| == if o.ok then 0 else 1 }

  lemma {:induction false} ValueErrors(s: string, current: Value, scan: DoubleParser)
    ensures OneErrorIffFailed(ReadValue(s, current, scan))
    decreases |s|, 0
  {
    var tok := ReadPastComments(s);
    if tok.kind == ObjectBegin {
      MembersErrors(tok.rest, End, "", scan);
    } else if tok.kind == ArrayBegin {
      ElementsErrors(SkipSpaces(tok.rest), End, 0, scan);
    }
  }

  lemma {:induction false} ElementsErrors(s: string, elems: Members, index: nat, scan: DoubleParser)
    ensures OneErrorIffFailed(ReadElements(s, elems, index, scan))
    decreases |s|, 2
  {
    ValueErrors(s, Child(elems, Index(index)), scan);
    var child := ReadValue(s, Child(elems, Index(index)), scan);
    AfterElementErrors(child, Put(elems, Index(index), child.value), index, scan);
  }

  lemma {:induction false} AfterElementErrors(child: Outcome, elems: Members, index: nat, scan: DoubleParser)
    requires OneErrorIffFailed(child)
    ensures OneErrorIffFailed(AfterElement(child, elems, index, scan))
    decreases |child.rest|, 1
  {
    var tok := ReadToken(child.rest);
    if child.ok && tok.kind == ArraySeparator { ElementsErrors(tok.rest, elems, index + 1, scan); }
  }

  lemma {:induction false} MembersErrors(s: string, ms: Members, name: string, scan: DoubleParser)
    ensures OneErrorIffFailed(ReadMembers(s, ms, name, scan))
    decreases |s|, 2
  {
    var tokName := ReadPastComments(s);
    var u := Unescape(Body(tokName.text));
    if tokName.kind == StringToken && u.Good? {
      var colon := ReadToken(tokName.rest);
      if colon.kind == MemberSeparator {
        var key := Name(Cut(u.s));
        ValueErrors(colon.rest, Child(ms, key), scan);
        var child := ReadValue(colon.rest, Child(ms, key), scan);
        AfterMemberErrors(child, Put(ms, key, child.value), u.s, scan);
      }
    }
  }

  lemma {:induction false} AfterMemberErrors(child: Outcome, ms: Members, name: string, scan: DoubleParser)
    requires OneErrorIffFailed(child)
    ensures OneErrorIffFailed(AfterMember(child, ms, name, scan))
    decreases |child.rest|, 1
  {
    if child.ok {
      var comma := ReadToken(child.rest);
      var comma' := if comma.kind == Comment then ReadPastComments(comma.rest) else comma;
      if |comma'.rest| < |child.rest| { MembersErrors(comma'.rest, ms, name, scan); }
    }
  }

  /** What the reader builds: dense arrays, ascending names, integers in their least type. */
  predicate Built(v: Value) {
    match v
    case Int(i) => Exact(i) && v == Retyped(i)
    case UInt(i) => Exact(i) && v == Retyped(i)
    case Long(i) => Exact(i) && v == Retyped(i)
    case ULong(i) => Exact(i) && v == Retyped(i)
    case Str(c) => c.Text? && NulFree(c.s)
    case Arr(ms) => Dense(ms, 0) && AllBuilt(ms)
    case Obj(ms) => NamesAscend(ms) && AllBuilt(ms)
    case _ => true
  }

  predicate AllBuilt(ms: Members) {
    ms.End? || (Built(ms.value) && AllBuilt(ms.rest))
  }

  predicate NoDoubles(v: Value) {
    match v
    case Real(_) => false
    case Arr(ms) => NoDoublesIn(ms)
    case Obj(ms) => NoDoublesIn(ms)
    case _ => true
  }

  predicate NoDoublesIn(ms: Members) {
    ms.End? || (NoDoubles(ms.value) && NoDoublesIn(ms.rest))
  }

  lemma {:induction false} ChildBuilt(ms: Members, k: Key)
    requires AllBuilt(ms)
    ensures Built(Child(ms, k))
  {
    if ms.Member? { ChildBuilt(ms.rest, k); }
  }

  lemma {:induction false} PutBuilt(ms: Members, k: Key, v: Value)
    requires AllBuilt(ms) && Built(v)
    ensures AllBuilt(Put(ms, k, v))
  {
    if ms.Member? { PutBuilt(ms.rest, k, v); }
  }

  lemma {:induction false} PutAscends(ms: Members, k: Key, v: Value)
    requires NamesAscend(ms) && KeyValid(k, false)
    ensures NamesAscend(Put(ms, k, v))
    ensures Put(ms, k, v).Member? && (Put(ms, k, v).key == k || (ms.Member? && Put(ms, k, v).key == ms.key))
  {
    if ms.Member? {
      KeyTrichotomy(ms.key, k, false);
      PutAscends(ms.rest, k, v);
    }
  }

  lemma {:induction false} PutDense(ms: Members, start: nat, index: nat, v: Value)
    requires Dense(ms, start) && start + Count(ms) == index
    ensures Dense(Put(ms, Index(index), v), start) && Count(Put(ms, Index(index), v)) == Count(ms) + 1
  {
    if ms.Member? { PutDense(ms.rest, start + 1, index, v); }
  }

  lemma {:induction false} AccumulateBound(digits: string, value: nat, threshold: nat)
    requires value < 10 * threshold
    ensures var a := Accumulate(digits, value, threshold); a.Sum? ==> a.n < 10 * threshold
  {
    if digits != "" && IsDigit(digits[0]) && value < threshold {
      AccumulateBound(digits[1..], value * 10 + DigitValue(digits[0]), threshold);
    }
  }

  lemma DecodeBuilt(token: string)
    requires token != "" && Decode(token).Integer?
    ensures Built(Decode(token).value)
  {
    var negative := token[0] == '-';
    Thresholds();
    AccumulateBound(if negative then token[1..] else token, 0, Threshold(negative));
  }

  lemma {:induction false} ValueBuilt(s: string, current: Value, scan: DoubleParser)
    requires Built(current)
    ensures Built(ReadValue(s, current, scan).value)
    decreases |s|, 0
  {
    var tok := ReadPastComments(s);
    if tok.kind == ObjectBegin {
      MembersBuilt(tok.rest, End, "", scan);
    } else if tok.kind == ArrayBegin {
      ElementsBuilt(SkipSpaces(tok.rest), End, 0, scan);
    } else if tok.kind == NumberToken && Decode(tok.text).Integer? {
      DecodeBuilt(tok.text);
    }
  }

  lemma {:induction false} ElementsBuilt(s: string, elems: Members, index: nat, scan: DoubleParser)
    requires Dense(elems, 0) && Count(elems) == index && AllBuilt(elems)
    ensures Built(ReadElements(s, elems, index, scan).value)
    decreases |s|, 2
  {
    var key := Index(index);
    ChildBuilt(elems, key);
    ValueBuilt(s, Child(elems, key), scan);
    var child := ReadValue(s, Child(elems, key), scan);
    PutBuilt(elems, key, child.value);
    PutDense(elems, 0, index, child.value);
    AfterElementBuilt(child, Put(elems, key, child.value), index, scan);
  }

  lemma {:induction false} AfterElementBuilt(child: Outcome, elems: Members, index: nat, scan: DoubleParser)
    requires Dense(elems, 0) && Count(elems) == index + 1 && AllBuilt(elems)
    ensures Built(AfterElement(child, elems, index, scan).value)
    decreases |child.rest|, 1
  {
    var tok := ReadToken(child.rest);
    if child.ok && tok.kind == ArraySeparator { ElementsBuilt(tok.rest, elems, index + 1, scan); }
  }

  lemma {:induction false} MembersBuilt(s: string, ms: Members, name: string, scan: DoubleParser)
    requires NamesAscend(ms) && AllBuilt(ms)
    ensures Built(ReadMembers(s, ms, name, scan).value)
    decreases |s|, 2
  {
    var tokName := ReadPastComments(s);
    var u := Unescape(Body(tokName.text));
    if tokName.kind == StringToken && u.Good? {
      var colon := ReadToken(tokName.rest);
      if colon.kind == MemberSeparator {
        var key := Name(Cut(u.s));
        ChildBuilt(ms, key);
        ValueBuilt(colon.rest, Child(ms, key), scan);
        var child := ReadValue(colon.rest, Child(ms, key), scan);
        PutBuilt(ms, key, child.value);
        PutAscends(ms, key, child.value);
        AfterMemberBuilt(child, Put(ms, key, child.value), u.s, scan);
      }
    }
  }

  lemma {:induction false} AfterMemberBuilt(child: Outcome, ms: Members, name: string, scan: DoubleParser)
    requires NamesAscend(ms) && AllBuilt(ms)
    ensures Built(AfterMember(child, ms, name, scan).value)
    decreases |child.rest|, 1
  {
    if child.ok {
      var comma := ReadToken(child.rest);
      var comma' := if comma.kind == Comment then ReadPastComments(comma.rest) else comma;
      if |comma'.rest| < |child.rest| { MembersBuilt(comma'.rest, ms, name, scan); }
    }
  }

  lemma {:induction false} BuiltIsCanonical(v: Value)
    requires Built(v) && NoDoubles(v)
    ensures Writable(v) && AllExact(v) && Canon(v) == v
    decreases v
  {
    match v {
      case Arr(ms) => MembersCanonical(ms);
      case Obj(ms) => MembersCanonical(ms);
      case _ =>
    }
  }

  lemma {:induction false} MembersCanonical(ms: Members)
    requires AllBuilt(ms) && NoDoublesIn(ms)
    ensures AllWritable(ms) && MembersExact(ms) && CanonMembers(ms) == ms
    decreases ms
  {
    if ms.Member? {
      BuiltIsCanonical(ms.value);
      MembersCanonical(ms.rest);
    }
  }

  /** Whatever was read, if it holds no doubles, reads back from any rendering unchanged. */
  lemma ReadWriteRead(document: string, scan: DoubleParser, text: string, root: Value)
    requires Built(root)
    requires var v := Parse(document, root, scan).value; NoDoubles(v) && Writable(v) && Renders(text, v)
    ensures var o := Parse(text + "\n", root, scan); o.ok && o.value == Parse(document, root, scan).value
  {
    ValueBuilt(document, root, scan);
    var v := Parse(document, root, scan).value;
    BuiltIsCanonical(v);
    RoundTrip(text, v, root);
  }

  /** Reading fails exactly when it records an error, and then it records one. */
  lemma ParseErrors(document: string, root: Value, scan: DoubleParser)
    ensures OneErrorIffFailed(Parse(document, root, scan))
  {
    ValueErrors(document, root, scan);
  }
}
