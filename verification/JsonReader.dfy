/**
 The JSON reader itself: a cursor into the document, a stack of the values being read and
 a list of errors.  Each method does to them what the functions of JsonReading say.
 */
module JsonReader {
  import opened Basics
  import opened CText
  import opened JsonValue
  import opened JsonNumber
  import opened JsonText
  import opened JsonReading
  import opened JsonRoundTrip

  /** A token by its place in the document. */
  datatype Span = Span(kind: TokenType, start: nat, end: nat)

  /** Putting twice at a key is putting the second value. */
  lemma {:induction false} PutTwice(ms: Members, k: Key, a: Value, b: Value)
    ensures Put(Put(ms, k, a), k, b) == Put(ms, k, b)
  {
    KeyIrreflexive(k);
    if ms.Member? { PutTwice(ms.rest, k, a, b); }
  }

  lemma PrefixedNext(decoded: string, c: char, u: Unescaped)
    ensures Prefixed(decoded, Prepend(c, u)) == Prefixed(decoded + [c], u)
  {
    if u.Good? { assert decoded + ([c] + u.s) == decoded + [c] + u.s; }
  }

  /** The loop of decodeUnicodeEscapeSequence over four characters. */
  method DecodeHexDigits(s: string) returns (ok: bool)
    requires |s| == 4
    ensures ok <==> HexDigit(s[0]) && HexDigit(s[1]) && HexDigit(s[2]) && HexDigit(s[3])
  {
    for index := 0 to 4
      invariant forall i :: 0 <= i < index ==> HexDigit(s[i])
    {
      if !HexDigit(s[index]) { return false; }
    }
    ok := true;
  }

  /** Reader::decodeString on the characters between the quotes. */
  method DecodeCharacters(s: string) returns (u: Unescaped)
    ensures u == Unescape(s)
  {
    var decoded, current := "", 0;
    assert s[0..] == s && Prefixed("", Unescape(s)) == Unescape(s);
    while current != |s|
      invariant current <= |s|
      invariant Unescape(s) == Prefixed(decoded, Unescape(s[current..]))
      decreases |s| - current
    {
      ghost var rest := s[current..];
      var c := s[current];
      current := current + 1;
      if c == '"' {
        return Good(decoded);
      } else if c == '\\' {
        if current == |s| { return Bad(EmptyEscape); }
        var escape := s[current];
        current := current + 1;
        assert rest[1] == escape && rest[2..] == s[current..];
        if escape == 'u' {
          if |s| - current < 4 { return Bad(UnicodeDigitsExpected); }
          var ok := DecodeHexDigits(s[current..current + 4]);
          if !ok { return Bad(UnicodeHexExpected); }
          assert rest[6..] == s[current + 4..];
          current := current + 4;
        } else {
          match EscapedChar(escape) {
            case None => return Bad(BadEscape);
            case Some(d) =>
              PrefixedNext(decoded, d, Unescape(s[current..]));
              decoded := decoded + [d];
          }
        }
      } else {
        assert rest[1..] == s[current..];
        PrefixedNext(decoded, c, Unescape(s[current..]));
        decoded := decoded + [c];
      }
    }
    u := Good(decoded);
  }

  class Reader {
    const scan: DoubleParser
    var document_: string
    var current_: nat
    var nodes_: seq<Value>
    var errors_: seq<Error>

    constructor (scan: DoubleParser)
      ensures this.scan == scan
    {
      this.scan := scan;
      document_, current_, nodes_, errors_ := "", 0, [], [];
    }

    ghost predicate Valid()
      reads this
    {
      current_ <= |document_|
    }

    /** The text still to be read. */
    ghost function Rest(): string
      reads this
      requires Valid()
    {
      document_[current_..]
    }

    // ----- scanning -----

    method SkipWhite()
      requires Valid()
      modifies this`current_
      ensures Valid() && Rest() == SkipSpaces(old(Rest()))
    {
      while current_ != |document_|
        invariant Valid() && SkipSpaces(Rest()) == SkipSpaces(old(Rest()))
        decreases |document_| - current_
      {
        if !IsSpace(document_[current_]) { return; }
        assert Rest()[1..] == document_[current_ + 1..];
        current_ := current_ + 1;
      }
    }

    method GetNextChar() returns (c: char)
      requires Valid()
      modifies this`current_
      ensures Valid()
      ensures if old(Rest()) == "" then c == NUL && Rest() == "" && current_ == old(current_)
              else c == old(Rest())[0] && Rest() == old(Rest())[1..] && current_ == old(current_) + 1
    {
      if current_ == |document_| { return NUL; }
      c := document_[current_];
      current_ := current_ + 1;
    }

    method Match(pattern: string) returns (ok: bool)
      requires Valid()
      modifies this`current_
      ensures Valid() && (ok, Rest()) == MatchEnd(old(Rest()), pattern)
    {
      if |document_| - current_ < |pattern| { return false; }
      var index: nat := |pattern|;
      while index > 0
        invariant 0 <= index <= |pattern|
        invariant forall i :: index <= i < |pattern| ==> document_[current_ + i] == pattern[i]
      {
        index := index - 1;
        if document_[current_ + index] != pattern[index] {
          assert Rest()[index] != pattern[index];
          return false;
        }
      }
      assert Rest()[..|pattern|] == pattern;
      assert Rest()[|pattern|..] == document_[current_ + |pattern|..];
      current_ := current_ + |pattern|;
      ok := true;
    }

    method ReadCStyleComment() returns (ok: bool)
      requires Valid()
      modifies this`current_
      ensures Valid() && (ok, Rest()) == CStyleEnd(old(Rest()))
    {
      while current_ != |document_|
        invariant Valid() && CStyleEnd(Rest()) == CStyleEnd(old(Rest()))
        decreases |document_| - current_
      {
        ghost var s := Rest();
        var c := GetNextChar();
        if c == '*' && current_ < |document_| && document_[current_] == '/' {
          assert s[1] == '/' && s[2..] == Rest()[1..];
          var slash := GetNextChar();
          return true;
        }
      }
      ok := false;
    }

    method ReadCppStyleComment()
      requires Valid()
      modifies this`current_
      ensures Valid() && Rest() == CppStyleEnd(old(Rest()))
    {
      while current_ != |document_|
        invariant Valid() && CppStyleEnd(Rest()) == CppStyleEnd(old(Rest()))
        decreases |document_| - current_
      {
        var c := GetNextChar();
        if c == '\r' || c == '\n' { return; }
      }
    }

    method ReadComment() returns (ok: bool)
      requires Valid()
      modifies this`current_
      ensures Valid() && (ok, Rest()) == CommentEnd(old(Rest()))
    {
      var c := GetNextChar();
      if c == '*' {
        ok := ReadCStyleComment();
      } else if c == '/' {
        ReadCppStyleComment();
        ok := true;
      } else {
        ok := false;
      }
    }

    method ReadNumber()
      requires Valid()
      modifies this`current_
      ensures Valid() && Rest() == NumberEnd(old(Rest()))
    {
      while current_ != |document_|
        invariant Valid() && NumberEnd(Rest()) == NumberEnd(old(Rest()))
        decreases |document_| - current_
      {
        if !NumberChar(document_[current_]) { return; }
        assert Rest()[1..] == document_[current_ + 1..];
        current_ := current_ + 1;
      }
    }

    method ReadString() returns (ok: bool)
      requires Valid()
      modifies this`current_
      ensures Valid() && (ok, Rest()) == StringEnd(old(Rest()))
    {
      var c := NUL;
      while current_ != |document_|
        invariant Valid() && c != '"'
        invariant StringEnd(Rest()) == StringEnd(old(Rest()))
        decreases |document_| - current_
      {
        ghost var s := Rest();
        c := GetNextChar();
        if c == '\\' {
          var escaped := GetNextChar();
          if |s| > 1 { assert Rest() == s[2..]; }
        } else if c == '"' {
          break;
        }
      }
      ok := c == '"';
    }

    /** The switch of readToken, after the character `c`. */
    method ScanAfter(c: char) returns (kind: TokenType, ok: bool)
      requires Valid()
      modifies this`current_
      ensures Valid() && old(current_) <= current_ && (kind, (ok, Rest())) == Scan(c, old(Rest()))
    {
      ok := true;
      if c == '"' {
        kind := StringToken;
        ok := ReadString();
      } else if c == '/' {
        kind := Comment;
        ok := ReadComment();
      } else if IsDigit(c) || c == '-' {
        kind := NumberToken;
        ReadNumber();
      } else if c == 't' {
        kind := TrueToken;
        ok := Match("rue");
      } else if c == 'f' {
        kind := FalseToken;
        ok := Match("alse");
      } else if c == 'n' {
        kind := NullToken;
        ok := Match("ull");
      } else {
        kind := SingleToken(c);
      }
    }

    /** Reader::readToken; a comment is a token like any other. */
    method NextToken() returns (tok: Span)
      requires Valid()
      modifies this`current_
      ensures Valid() && old(current_) <= current_ && tok.start <= tok.end == current_
      ensures ReadToken(old(Rest())) == Token(tok.kind, document_[tok.start..tok.end], Rest())
    {
      SkipWhite();
      var start := current_;
      ghost var t := Rest();
      var c := GetNextChar();
      var kind, ok := ScanAfter(c);
      tok := Span(if ok then kind else ErrorToken, start, current_);
      assert |t| - |Rest()| == current_ - start;
      assert t[..current_ - start] == document_[start..current_];
    }

    /** Tokens are read until one is no comment. */
    method SkipCommentTokens() returns (tok: Span)
      requires Valid()
      modifies this`current_
      ensures Valid() && old(current_) <= current_ && tok.start <= tok.end == current_
      ensures ReadPastComments(old(Rest())) == Token(tok.kind, document_[tok.start..tok.end], Rest())
    {
      tok := NextToken();
      while tok.kind == Comment
        invariant Valid() && old(current_) <= current_ && tok.start <= tok.end == current_
        invariant ReadPastComments(old(Rest())) ==
                  if tok.kind == Comment then ReadPastComments(Rest())
                  else Token(tok.kind, document_[tok.start..tok.end], Rest())
        decreases |document_| - current_, tok.kind == Comment
      {
        tok := NextToken();
      }
    }

    // ----- errors -----

    method AddError(e: Error) returns (ok: bool)
      modifies this`errors_
      ensures !ok && errors_ == old(errors_) + [e]
    {
      errors_ := errors_ + [e];
      ok := false;
    }

    method RecoverFromError(kind: TokenType) returns (ok: bool)
      requires Valid()
      modifies this`current_, this`errors_
      ensures Valid() && !ok && Rest() == Recover(old(Rest()), kind) && errors_ == old(errors_)
    {
      var errorCount := |errors_|;
      while true
        invariant Valid() && errors_ == old(errors_)
        invariant Recover(Rest(), kind) == Recover(old(Rest()), kind)
        decreases |document_| - current_
      {
        var skip := NextToken();
        if skip.kind == kind || skip.kind == EndOfStream { break; }
      }
      errors_ := errors_[..errorCount];
      ok := false;
    }

    method AddErrorAndRecover(e: Error, kind: TokenType) returns (ok: bool)
      requires Valid()
      modifies this`current_, this`errors_
      ensures Valid() && !ok && Rest() == Recover(old(Rest()), kind) && errors_ == old(errors_) + [e]
    {
      ok := AddError(e);
      ok := RecoverFromError(kind);
    }

    // ----- the stack of values -----

    ghost function Top(): Value
      reads this
      requires nodes_ != []
    {
      nodes_[|nodes_| - 1]
    }

    /** The stack under its top. */
    ghost function Below(): seq<Value>
      reads this
      requires nodes_ != []
    {
      nodes_[..|nodes_| - 1]
    }

    /** The stack with the value on top replaced. */
    ghost function WithTop(v: Value): seq<Value>
      reads this
      requires nodes_ != []
    {
      nodes_[..|nodes_| - 1] + [v]
    }

    /** `currentValue() = v` */
    method Assign(v: Value)
      requires nodes_ != []
      modifies this`nodes_
      ensures nodes_ == old(WithTop(v))
    {
      nodes_ := nodes_[..|nodes_| - 1] + [v];
    }

    /** The member of the container on top of the stack at `key`, created when missing, goes on the stack. */
    method PushChild(key: Key)
      requires nodes_ != [] && (Top().Arr? || Top().Obj?)
      modifies this`nodes_
      ensures var ms := old(if Top().Obj? then Top().members else Top().elems);
              var child := Child(ms, key);
              nodes_ == old(WithTop(Container(Put(ms, key, child), Top().Obj?))) + [child]
    {
      var parent := nodes_[|nodes_| - 1];
      var ms := if parent.Obj? then parent.members else parent.elems;
      var child := Child(ms, key);
      Assign(Container(Put(ms, key, child), parent.Obj?));
      nodes_ := nodes_ + [child];
    }

    /** The value on top leaves the stack and stays in its parent at `key`. */
    method PopChild(key: Key)
      requires |nodes_| >= 2 && (nodes_[|nodes_| - 2].Arr? || nodes_[|nodes_| - 2].Obj?)
      modifies this`nodes_
      ensures var parent := old(nodes_[|nodes_| - 2]);
              var ms := if parent.Obj? then parent.members else parent.elems;
              nodes_ == old(nodes_)[..|old(nodes_)| - 2] + [Container(Put(ms, key, old(Top())), parent.Obj?)]
    {
      var child := nodes_[|nodes_| - 1];
      var parent := nodes_[|nodes_| - 2];
      var ms := if parent.Obj? then parent.members else parent.elems;
      nodes_ := nodes_[..|nodes_| - 2] + [Container(Put(ms, key, child), parent.Obj?)];
    }

    // ----- reading values -----

    /** Since an earlier state, an outcome has come about. */
    ghost predicate Did(o: Outcome, ok: bool, below: seq<Value>, errors: seq<Error>)
      reads this
      requires Valid()
    {
      ok == o.ok && Rest() == o.rest && nodes_ == below + [o.value] && errors_ == errors + o.errors
    }

    method DecodeNumberToken(tok: Span) returns (ok: bool)
      requires Valid() && nodes_ != [] && tok.start < tok.end == current_
      modifies this`nodes_, this`errors_
      ensures Valid()
      ensures var t := Token(tok.kind, document_[tok.start..tok.end], Rest());
              Did(NumberOutcome(t, old(Top()), scan), ok, old(Below()), old(errors_))
    {
      var text := document_[tok.start..tok.end];
      var d := DecodeNumber(text);
      match d {
        case Integer(v) => Assign(v); return true;
        case NotANumber => ok := AddError(NumberError);
        case AsDouble =>
          match scan(text) {
            case Some(r) => Assign(Real(r)); return true;
            case None => ok := AddError(NumberError);
          }
      }
    }

    /** decodeString into a buffer; an error is recorded. */
    method DecodeStringToken(tok: Span) returns (ok: bool, decoded: string)
      requires tok.start <= tok.end <= |document_|
      modifies this`errors_
      ensures var u := Unescape(Body(document_[tok.start..tok.end]));
              ok == u.Good? && (if ok then decoded == u.s && errors_ == old(errors_) else errors_ == old(errors_) + [u.e])
    {
      decoded := "";
      var u := DecodeCharacters(Body(document_[tok.start..tok.end]));
      match u {
        case Bad(e) => ok := AddError(e);
        case Good(s) => ok, decoded := true, s;
      }
    }

    method DecodeStringValue(tok: Span) returns (ok: bool)
      requires Valid() && nodes_ != [] && tok.start < tok.end == current_
      modifies this`nodes_, this`errors_
      ensures Valid()
      ensures var t := Token(tok.kind, document_[tok.start..tok.end], Rest());
              Did(StringOutcome(t, old(Top())), ok, old(Below()), old(errors_))
    {
      var decoded;
      ok, decoded := DecodeStringToken(tok);
      if ok { Assign(Str(Text(Cut(decoded)))); }
    }

    /** The cases of readValue that look no further than the token's type. */
    method AssignKeyword(tok: Span) returns (ok: bool)
      requires Valid() && nodes_ != [] && tok.start <= tok.end == current_
      modifies this`nodes_, this`errors_
      ensures Valid()
      ensures var t := Token(tok.kind, document_[tok.start..tok.end], Rest());
              Did(KeywordOutcome(t, old(Top())), ok, old(Below()), old(errors_))
    {
      ok := true;
      if tok.kind == TrueToken {
        Assign(Bool(true));
      } else if tok.kind == FalseToken {
        Assign(Bool(false));
      } else if tok.kind == NullToken {
        Assign(Null);
      } else {
        ok := AddError(ValueExpected);
      }
    }

    method ReadValue() returns (ok: bool)
      requires Valid() && nodes_ != []
      modifies this`current_, this`nodes_, this`errors_
      ensures Valid()
      ensures Did(JsonReading.ReadValue(old(Rest()), old(Top()), scan), ok, old(Below()), old(errors_))
      decreases |document_| - current_, 0
    {
      hide Did;
      var tok := SkipCommentTokens();
      if tok.kind == ObjectBegin {
        ok := ReadObject();
      } else if tok.kind == ArrayBegin {
        ok := ReadArray();
      } else if tok.kind == NumberToken {
        ok := DecodeNumberToken(tok);
      } else if tok.kind == StringToken {
        ok := DecodeStringValue(tok);
      } else {
        ok := AssignKeyword(tok);
      }
    }

    /** Reads the member at `key` of the container on top of the stack. */
    method ReadChild(key: Key) returns (ok: bool)
      requires Valid() && nodes_ != [] && (Top().Arr? || Top().Obj?)
      modifies this`current_, this`nodes_, this`errors_
      ensures Valid()
      ensures var ms := old(if Top().Obj? then Top().members else Top().elems);
              var o := JsonReading.ReadValue(old(Rest()), Child(ms, key), scan);
              Did(o.(value := Container(Put(ms, key, o.value), old(Top().Obj?))), ok, old(Below()), old(errors_))
      decreases |document_| - current_, 1
    {
      ghost var ms := if Top().Obj? then Top().members else Top().elems;
      PushChild(key);
      ok := ReadValue();
      ghost var child := Top();
      PopChild(key);
      PutTwice(ms, key, Child(ms, key), child);
    }

    method ReadArray() returns (ok: bool)
      requires Valid() && nodes_ != []
      modifies this`current_, this`nodes_, this`errors_
      ensures Valid()
      ensures var t := SkipSpaces(old(Rest()));
              Did(if t != "" && t[0] == ']' then Outcome(true, Arr(End), t[1..], [])
                  else ReadElements(t, End, 0, scan), ok, old(Below()), old(errors_))
      decreases |document_| - current_, 4
    {
      Assign(Arr(End));
      SkipWhite();
      if current_ < |document_| && document_[current_] == ']' {
        ghost var t := Rest();
        assert SkipSpaces(t) == t;
        var endArray := NextToken();
        return true;
      }
      ok := ReadElementLoop();
    }

    /** What readArray does after the element at `index`; `more` asks for another one. */
    method AfterElementRead(ok: bool, ghost o: Outcome, ghost elems: Members, ghost index: nat,
                            ghost below: seq<Value>, ghost errors: seq<Error>)
      returns (more: bool, result: bool)
      requires Valid() && OneErrorIffFailed(o) && Did(o.(value := Arr(elems)), ok, below, errors)
      modifies this`current_, this`errors_
      ensures Valid() && old(current_) <= current_
      ensures var a := AfterElement(o, elems, index, scan);
              if more then o.ok && errors_ == errors && a == ReadElements(Rest(), elems, index + 1, scan)
              else Did(a, result, below, errors)
    {
      more := false;
      if !ok {
        result := RecoverFromError(ArrayEnd);
        return;
      }
      var tok := NextToken();
      if tok.kind != ArraySeparator && tok.kind != ArrayEnd {
        result := AddErrorAndRecover(MissingCommaOrBracket, ArrayEnd);
        return;
      }
      if tok.kind == ArrayEnd { return false, true; }
      ghost var next := ReadElements(Rest(), elems, index + 1, scan);
      assert [] + next.errors == next.errors;
      return true, true;
    }

    /** One turn of the loop of readArray. */
    method ReadElement(index: nat, ghost elems: Members) returns (more: bool, ok: bool)
      requires Valid() && nodes_ != [] && Top() == Arr(elems)
      modifies this`current_, this`nodes_, this`errors_
      ensures Valid()
      ensures var whole := ReadElements(old(Rest()), elems, index, scan);
              if more then
                current_ > old(current_) && nodes_ != [] && Below() == old(Below()) && Top().Arr? && errors_ == old(errors_) &&
                ReadElements(Rest(), Top().elems, index + 1, scan) == whole
              else Did(whole, ok, old(Below()), old(errors_))
      decreases |document_| - current_, 2
    {
      ghost var below, errors := Below(), errors_;
      ghost var o := JsonReading.ReadValue(Rest(), Child(elems, Index(index)), scan);
      ValueErrors(Rest(), Child(elems, Index(index)), scan);
      ok := ReadChild(Index(index));
      more, ok := AfterElementRead(ok, o, Put(elems, Index(index), o.value), index, below, errors);
    }

    /** The loop of readArray. */
    method ReadElementLoop() returns (ok: bool)
      requires Valid() && nodes_ != [] && Top() == Arr(End)
      modifies this`current_, this`nodes_, this`errors_
      ensures Valid()
      ensures Did(ReadElements(old(Rest()), End, 0, scan), ok, old(Below()), old(errors_))
      decreases |document_| - current_, 3
    {
      hide ReadElements;
      var more;
      more, ok := ReadElement(0, End);
      var index: nat := 1;
      while more
        invariant Valid() && old(current_) <= current_
        invariant more ==> current_ > old(current_) && nodes_ != [] && Below() == old(Below()) && Top().Arr? &&
                           errors_ == old(errors_) &&
                           ReadElements(Rest(), Top().elems, index, scan) == ReadElements(old(Rest()), End, 0, scan)
        invariant !more ==> Did(ReadElements(old(Rest()), End, 0, scan), ok, old(Below()), old(errors_))
        decreases more, |document_| - current_
      {
        more, ok := ReadElement(index, Top().elems);
        index := index + 1;
      }
    }

    /** The name and the colon of a member: readObject up to its readValue. */
    method ReadMemberName(previous: string, ghost ms: Members) returns (found: bool, result: bool, name: string)
      requires Valid()
      modifies this`current_, this`errors_
      ensures Valid() && old(current_) <= current_
      ensures var whole := ReadMembers(old(Rest()), ms, previous, scan);
              if found then
                |Rest()| < |old(Rest())| && errors_ == old(errors_) &&
                var child := JsonReading.ReadValue(Rest(), Child(ms, Name(Cut(name))), scan);
                whole == AfterMember(child, Put(ms, Name(Cut(name)), child.value), name, scan)
              else whole == Outcome(result, Obj(ms), Rest(), whole.errors) && errors_ == old(errors_) + whole.errors
    {
      found, result, name := false, true, "";
      var tokName := SkipCommentTokens();
      if tokName.kind == ObjectEnd && previous == "" { return; }
      if tokName.kind != StringToken {
        result := AddErrorAndRecover(MissingBraceOrName, ObjectEnd);
        return;
      }
      var ok;
      ok, name := DecodeStringToken(tokName);
      if !ok {
        result := RecoverFromError(ObjectEnd);
        return;
      }
      var colon := NextToken();
      if colon.kind != MemberSeparator {
        result := AddErrorAndRecover(MissingColon, ObjectEnd);
        return;
      }
      found := true;
    }

    /** What readObject does after the value of a member; `more` asks for another one. */
    method AfterMemberRead(ok: bool, ghost o: Outcome, ghost ms: Members, ghost name: string,
                           ghost below: seq<Value>, ghost errors: seq<Error>)
      returns (more: bool, result: bool)
      requires Valid() && OneErrorIffFailed(o) && Did(o.(value := Obj(ms)), ok, below, errors)
      modifies this`current_, this`errors_
      ensures Valid() && old(current_) <= current_
      ensures var a := AfterMember(o, ms, name, scan);
              if more then o.ok && errors_ == errors && a == ReadMembers(Rest(), ms, name, scan)
              else Did(a, result, below, errors)
    {
      more := false;
      if !ok {
        result := RecoverFromError(ObjectEnd);
        return;
      }
      var comma := NextToken();
      if comma.kind != ObjectEnd && comma.kind != ArraySeparator && comma.kind != Comment {
        result := AddErrorAndRecover(MissingCommaOrBrace, ObjectEnd);
        return;
      }
      if comma.kind == Comment { comma := SkipCommentTokens(); }
      if comma.kind == ObjectEnd { return false, true; }
      ghost var next := ReadMembers(Rest(), ms, name, scan);
      assert [] + next.errors == next.errors;
      return true, true;
    }

    /** The value of the member called `name`, and what follows it. */
    method ReadMemberValue(name: string, ghost ms: Members) returns (more: bool, ok: bool)
      requires Valid() && nodes_ != [] && Top() == Obj(ms)
      modifies this`current_, this`nodes_, this`errors_
      ensures Valid() && old(current_) <= current_
      ensures var child := JsonReading.ReadValue(old(Rest()), Child(ms, Name(Cut(name))), scan);
              var a := AfterMember(child, Put(ms, Name(Cut(name)), child.value), name, scan);
              if more then
                nodes_ != [] && Below() == old(Below()) && Top().Obj? && errors_ == old(errors_) &&
                ReadMembers(Rest(), Top().members, name, scan) == a
              else Did(a, ok, old(Below()), old(errors_))
      decreases |document_| - current_, 2
    {
      ghost var below, errors := Below(), errors_;
      var key := Name(Cut(name));
      ghost var o := JsonReading.ReadValue(Rest(), Child(ms, key), scan);
      ValueErrors(Rest(), Child(ms, key), scan);
      ok := ReadChild(key);
      more, ok := AfterMemberRead(ok, o, Put(ms, key, o.value), name, below, errors);
    }

    /** One turn of the loop of readObject. */
    method ReadMember(previous: string, ghost ms: Members) returns (more: bool, ok: bool, name: string)
      requires Valid() && nodes_ != [] && Top() == Obj(ms)
      modifies this`current_, this`nodes_, this`errors_
      ensures Valid()
      ensures var whole := ReadMembers(old(Rest()), ms, previous, scan);
              if more then
                current_ > old(current_) && nodes_ != [] && Below() == old(Below()) && Top().Obj? && errors_ == old(errors_) &&
                ReadMembers(Rest(), Top().members, name, scan) == whole
              else Did(whole, ok, old(Below()), old(errors_))
      decreases |document_| - current_, 3
    {
      hide ReadMembers, AfterMember, JsonReading.ReadValue, Put;
      more, ok, name := ReadMemberName(previous, ms);
      if more {
        more, ok := ReadMemberValue(name, ms);
      }
    }

    method ReadObject() returns (ok: bool)
      requires Valid() && nodes_ != []
      modifies this`current_, this`nodes_, this`errors_
      ensures Valid()
      ensures Did(ReadMembers(old(Rest()), End, "", scan), ok, old(Below()), old(errors_))
      decreases |document_| - current_, 4
    {
      Assign(Obj(End));
      var more, name;
      more, ok, name := ReadMember("", End);
      while more
        invariant Valid() && old(current_) <= current_
        invariant more ==> current_ > old(current_) && nodes_ != [] && Below() == old(Below()) && Top().Obj? &&
                           errors_ == old(errors_) &&
                           ReadMembers(Rest(), Top().members, name, scan) == ReadMembers(old(Rest()), End, "", scan)
        invariant !more ==> Did(ReadMembers(old(Rest()), End, "", scan), ok, old(Below()), old(errors_))
        decreases more, |document_| - current_
      {
        more, ok, name := ReadMember(name, Top().members);
      }
    }

    /** Reader::parse into `root`. */
    method Parse(document: string, root: Value) returns (ok: bool, value: Value)
      modifies this
      ensures Valid() && current_ <= |document_|
      ensures var o := JsonReading.Parse(document, root, scan);
              ok == o.ok && value == o.value && errors_ == o.errors && Rest() == o.rest
      ensures |nodes_| == 1
    {
      document_, current_, errors_ := document, 0, [];
      nodes_ := [root];
      assert Rest() == document;
      ok := ReadValue();
      value := nodes_[0];
      var tok := SkipCommentTokens();
    }
  }
}
