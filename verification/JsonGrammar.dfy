/**
 Exactly which documents the reader takes, and for what: a grammar with its texts and its values, apart
 from the reader, and the proof that the reader succeeds on the texts of the grammar and on no others.

 The texts are written with what follows them, so that joining them needs no reordering.
 */
module JsonGrammar {
  import opened Basics
  import opened CText
  import opened JsonNumber
  import opened JsonNumeral
  import opened JsonReading
  import opened JsonRoundTrip
  import opened JsonSpelling
  import opened JsonText
  import opened JsonValue

  // ----- between tokens -----

  /** Blanks and comments. */
  datatype Gap =
    | NoGap
    | Blank(c: char, rest: Gap)
    | Remark(body: string, rest: Gap)
    | LineRemark(line: string, c: char, rest: Gap)
  {
    predicate Ok() {
      match this
      case NoGap => true
      case Blank(c, rest) => c in BLANKS && rest.Ok()
      case Remark(body, rest) => Unclosed(body) && rest.Ok()
      case LineRemark(line, c, rest) => '\r' !in line && '\n' !in line && (c == '\r' || c == '\n') && rest.Ok()
    }

    /** No comments. */
    predicate Plain() {
      NoGap? || (Blank? && rest.Plain())
    }

    /** The gap, followed by `t`. */
    function Then(t: string): string {
      match this
      case NoGap => t
      case Blank(c, rest) => [c] + rest.Then(t)
      case Remark(body, rest) => CStyle(body) + rest.Then(t)
      case LineRemark(line, c, rest) => CppStyle(line, c) + rest.Then(t)
    }
  }

  // ----- documents -----

  datatype Doc =
    | Word(gap: Gap, v: Value)
    | Number(gap: Gap, text: string)
    | Quoted(gap: Gap, ps: seq<Piece>)
    | EmptyList(gap: Gap, inner: Gap)
    | Items(gap: Gap, elems: Elems)
    | Table(gap: Gap, mems: Mems)

  /** The elements of an array; `gap` is what stands behind one. */
  datatype Elems = Last(d: Doc, gap: Gap) | More(d: Doc, gap: Gap, rest: Elems)

  /** The members of an object: `colon` stands in front of the colon, `sep` behind the value. */
  datatype Mems =
    | Close(gap: Gap)
    | Final(gap: Gap, ps: seq<Piece>, colon: Gap, d: Doc, sep: Gap)
    | Entry(gap: Gap, ps: seq<Piece>, colon: Gap, d: Doc, sep: Gap, token: string, rest: Mems)

  function WordText(v: Value): string {
    if v.Null? then "null" else if v.Bool? && v.b then "true" else "false"
  }

  function DocThen(d: Doc, r: string): string
    decreases d, 1
  {
    d.gap.Then(CoreThen(d, r))
  }

  /** The document without the gap in front of it. */
  function CoreThen(d: Doc, r: string): string
    decreases d, 0
  {
    match d
    case Word(_, v) => WordText(v) + r
    case Number(_, text) => text + r
    case Quoted(_, ps) => Literal(ps) + r
    case EmptyList(_, inner) => "[" + inner.Then("]" + r)
    case Items(_, elems) => "[" + ElemsThen(elems, r)
    case Table(_, mems) => "{" + MemsThen(mems, r)
  }

  function ElemsThen(e: Elems, r: string): string
    decreases e, 0
  {
    DocThen(e.d, e.gap.Then(match e case Last(_, _) => "]" + r case More(_, _, rest) => "," + ElemsThen(rest, r)))
  }

  function MemsThen(m: Mems, r: string): string
    decreases m, 0
  {
    m.gap.Then(
      match m
      case Close(_) => "}" + r
      case Final(_, ps, colon, d, sep) => Literal(ps) + colon.Then(":" + DocThen(d, sep.Then("}" + r)))
      case Entry(_, ps, colon, d, sep, token, rest) =>
        Literal(ps) + colon.Then(":" + DocThen(d, sep.Then(token + MemsThen(rest, r)))))
  }

  // ----- what they are read as -----

  function DocValue(d: Doc, scan: DoubleParser): Value
    decreases d, 1
  {
    match d
    case Word(_, v) => v
    case Number(_, text) => (match NumberValue(text, scan) case Some(v) => v case None => Null)
    case Quoted(_, ps) => Str(Text(Cut(Meaning(ps))))
    case EmptyList(_, _) => Arr(End)
    case Items(_, elems) => Arr(ElemsValue(elems, End, 0, scan))
    case Table(_, mems) => Obj(MemsValue(mems, End, scan))
  }

  /** The elements are put at ascending indexes. */
  function ElemsValue(e: Elems, ms: Members, index: nat, scan: DoubleParser): Members
    decreases e, 0
  {
    var put := Put(ms, Index(index), DocValue(e.d, scan));
    if e.Last? then put else ElemsValue(e.rest, put, index + 1, scan)
  }

  /** The members are put by name: of two with one name the later one counts. */
  function MemsValue(m: Mems, ms: Members, scan: DoubleParser): Members
    decreases m, 0
  {
    if m.Close? then ms
    else
      var put := Put(ms, Name(Cut(Meaning(m.ps))), DocValue(m.d, scan));
      if m.Final? then put else MemsValue(m.rest, put, scan)
  }

  // ----- which are well formed, with `r` behind them -----

  predicate DocOk(d: Doc, r: string, scan: DoubleParser)
    decreases d, 1
  {
    && d.gap.Ok()
    && match d
       case Word(_, v) => v.Null? || v.Bool?
       case Number(_, text) => NumberText(text) && NumberValue(text, scan).Some? && (r == "" || !Numeral(r[0]))
       case Quoted(_, ps) => AllOk(ps)
       case EmptyList(_, inner) => inner.Ok() && inner.Plain()
       case Items(_, elems) => ElemsOk(elems, r, scan)
       case Table(_, mems) => MemsOk(mems, "", r, scan)
  }

  /** What stands behind an element. */
  function Behind(e: Elems, r: string): string
    decreases e, 1
  {
    e.gap.Then(match e case Last(_, _) => "]" + r case More(_, _, rest) => "," + ElemsThen(rest, r))
  }

  predicate ElemsOk(e: Elems, r: string, scan: DoubleParser)
    decreases e, 0
  {
    DocOk(e.d, Behind(e, r), scan) && e.gap.Ok() && e.gap.Plain() && (e.More? ==> ElemsOk(e.rest, r, scan))
  }

  /**
   The members behind one that is called `name`.  Between two members stands a comma, or, behind a comment,
   any token but a closing brace, since the reader does not look at that one again.  Behind a separator
   the object may end when the last name was empty.
   */
  predicate MemsOk(m: Mems, name: string, r: string, scan: DoubleParser)
    decreases m, 0
  {
    && m.gap.Ok()
    && match m
       case Close(_) => name == ""
       case Final(_, ps, colon, d, sep) =>
         AllOk(ps) && colon.Ok() && colon.Plain() && sep.Ok() && DocOk(d, sep.Then("}" + r), scan)
       case Entry(_, ps, colon, d, sep, token, rest) =>
         && AllOk(ps) && colon.Ok() && colon.Plain() && sep.Ok() && DocOk(d, sep.Then(token + MemsThen(rest, r)), scan)
         && MemsOk(rest, Meaning(ps), r, scan) && if sep.Plain() then token == "," else Separates(token, MemsThen(rest, r))
  }

  predicate Separates(token: string, t: string) {
    && token != "" && !IsSpace(token[0])
    && var tok := ReadToken(token + t);
       tok.text == token && tok.rest == t && tok.kind != Comment && tok.kind != ObjectEnd
  }

  // ----- tokens -----

  lemma BlankRead(c: char, t: string)
    requires c in BLANKS
    ensures ReadToken([c] + t) == ReadToken(t) && ReadPastComments([c] + t) == ReadPastComments(t) && SkipSpaces([c] + t) == SkipSpaces(t)
  {
    hide Scan;
    BlankIs(c);
    assert ([c] + t)[1..] == t;
  }

  lemma {:induction false} GapRead(g: Gap, t: string)
    requires g.Ok() && ReadToken(t).kind != Comment
    ensures ReadPastComments(g.Then(t)) == ReadToken(t)
  {
    hide ReadToken;
    match g {
      case NoGap =>
      case Blank(c, rest) => BlankRead(c, rest.Then(t)); GapRead(rest, t);
      case Remark(body, rest) => CommentIsSkipped(body, rest.Then(t)); GapRead(rest, t);
      case LineRemark(line, c, rest) => LineIsSkipped(line, c, rest.Then(t)); GapRead(rest, t);
    }
  }

  lemma {:induction false} PlainRead(g: Gap, t: string)
    requires g.Ok() && g.Plain()
    ensures ReadToken(g.Then(t)) == ReadToken(t)
  {
    hide ReadToken;
    if g.Blank? {
      BlankRead(g.c, g.rest.Then(t));
      PlainRead(g.rest, t);
    }
  }

  lemma {:induction false} RemarkFirst(g: Gap, t: string)
    requires g.Ok() && !g.Plain()
    ensures ReadToken(g.Then(t)).kind == Comment
  {
    hide ReadToken;
    match g {
      case Blank(c, rest) => BlankRead(c, rest.Then(t)); RemarkFirst(rest, t);
      case Remark(body, rest) => CommentIsSkipped(body, rest.Then(t));
      case LineRemark(line, c, rest) => LineIsSkipped(line, c, rest.Then(t));
    }
  }

  predicate Mark(c: char, kind: TokenType) {
    (c == '{' && kind == ObjectBegin) || (c == '}' && kind == ObjectEnd) || (c == '[' && kind == ArrayBegin) ||
    (c == ']' && kind == ArrayEnd) || (c == ',' && kind == ArraySeparator) || (c == ':' && kind == MemberSeparator)
  }

  lemma MarkRead(c: char, kind: TokenType, r: string)
    requires Mark(c, kind)
    ensures ReadToken([c] + r) == Token(kind, [c], r)
  {
    assert ([c] + r)[1..] == r;
    TokenIs([c], r, kind);
  }

  lemma LiteralRead(ps: seq<Piece>, r: string)
    requires AllOk(ps)
    ensures ReadToken(Literal(ps) + r) == Token(StringToken, Literal(ps), r) && Unescape(Body(Literal(ps))) == Good(Meaning(ps))
  {
    hide Spelling, Meaning, Unescape;
    var q := Literal(ps);
    assert (q + r)[1..] == Spelling(ps) + ("\"" + r);
    SpellingEnds(ps, r);
    TokenIs(q, r, StringToken);
    assert Body(q) == Spelling(ps);
    SpelledDecodes(ps, "", Spelling(ps), Meaning(ps)) by { assert Spelling(ps) + "" == Spelling(ps); }
  }

  lemma NumberRead(text: string, r: string)
    requires NumberText(text) && (r == "" || !Numeral(r[0]))
    ensures ReadToken(text + r) == Token(NumberToken, text, r)
  {
    hide Numeral, Digit;
    forall c
      ensures Numeral(c) <==> NumberChar(c)
      ensures Digit(c) <==> IsDigit(c)
    {
      NumeralIs(c);
      DigitIs(c);
    }
    assert (text + r)[1..] == text[1..] + r;
    NumberEndAll(text[1..], r);
    TokenIs(text, r, NumberToken);
  }

  lemma WordRead(v: Value, r: string)
    requires v.Null? || v.Bool?
    ensures ReadToken(WordText(v) + r) ==
            Token(if v.Null? then NullToken else if v.b then TrueToken else FalseToken, WordText(v), r)
  {
    assert WordText(v) == Scalar(v);
    assert (WordText(v) + r)[1..] == WordText(v)[1..] + r;
    ScanWord(v, r);
    TokenIs(WordText(v), r, if v.Null? then NullToken else if v.b then TrueToken else FalseToken);
  }

  // ----- the reader takes the documents of the grammar -----

  lemma Tidy(o: Outcome)
    ensures o.(errors := [] + o.errors) == o
  {
    assert [] + o.errors == o.errors;
  }

  /** White space in front of a value does not matter. */
  lemma SkippedRead(s: string, current: Value, scan: DoubleParser)
    ensures ReadValue(SkipSpaces(s), current, scan) == ReadValue(s, current, scan)
  {
    hide ReadPastComments, ReadMembers, ReadElements, NumberOutcome, StringOutcome, KeywordOutcome;
    SkippedToken(s);
  }

  lemma SkippedToken(s: string)
    ensures ReadPastComments(SkipSpaces(s)) == ReadPastComments(s)
  {
    hide Scan;
    assert SkipSpaces(SkipSpaces(s)) == SkipSpaces(s);
    assert ReadToken(SkipSpaces(s)) == ReadToken(s);
  }

  lemma DocStarts(d: Doc, r: string, scan: DoubleParser)
    requires DocOk(d, r, scan)
    ensures var t := SkipSpaces(DocThen(d, r)); t != "" && t[0] != ']'
  {
    hide CoreThen, Gap.Then, Gap.Ok;
    CoreStarts(d, r, scan);
    GapStarts(d.gap, CoreThen(d, r));
  }

  lemma CoreStarts(d: Doc, r: string, scan: DoubleParser)
    requires DocOk(d, r, scan)
    ensures var t := CoreThen(d, r); t != "" && !IsSpace(t[0]) && t[0] != ']'
  {
    hide ElemsThen, MemsThen, Gap.Then, Numeral, Digit, NumberValue;
    if d.Number? {
      DigitIs(d.text[0]);
      assert (d.text + r)[0] == d.text[0];
    }
  }

  lemma {:induction false} GapStarts(g: Gap, t: string)
    requires g.Ok() && t != "" && !IsSpace(t[0]) && t[0] != ']'
    ensures var u := SkipSpaces(g.Then(t)); u != "" && u[0] != ']'
  {
    match g {
      case NoGap =>
      case Blank(c, rest) => BlankRead(c, rest.Then(t)); GapStarts(rest, t);
      case Remark(body, rest) => assert g.Then(t)[0] == '/';
      case LineRemark(line, c, rest) => assert g.Then(t)[0] == '/';
    }
  }

  /** The token that a document begins with. */
  function FirstToken(d: Doc, r: string): Token {
    match d
    case Word(_, v) => Token(if v.Null? then NullToken else if v.Bool? && v.b then TrueToken else FalseToken, WordText(v), r)
    case Number(_, text) => Token(NumberToken, text, r)
    case Quoted(_, ps) => Token(StringToken, Literal(ps), r)
    case EmptyList(_, inner) => Token(ArrayBegin, "[", inner.Then("]" + r))
    case Items(_, elems) => Token(ArrayBegin, "[", ElemsThen(elems, r))
    case Table(_, mems) => Token(ObjectBegin, "{", MemsThen(mems, r))
  }

  lemma FirstTokenRead(d: Doc, r: string, scan: DoubleParser)
    requires DocOk(d, r, scan)
    ensures ReadPastComments(DocThen(d, r)) == FirstToken(d, r)
  {
    hide ReadToken, ReadPastComments, WordText, Literal, ElemsThen, MemsThen, Gap.Then, Gap.Ok;
    match d {
      case Word(_, v) => WordRead(v, r);
      case Number(_, text) => NumberRead(text, r);
      case Quoted(_, ps) => LiteralRead(ps, r);
      case EmptyList(_, inner) => MarkRead('[', ArrayBegin, inner.Then("]" + r));
      case Items(_, elems) => MarkRead('[', ArrayBegin, ElemsThen(elems, r));
      case Table(_, mems) => MarkRead('{', ObjectBegin, MemsThen(mems, r));
    }
    GapRead(d.gap, CoreThen(d, r));
  }

  lemma {:induction false} DocAccepted(d: Doc, r: string, current: Value, scan: DoubleParser)
    requires DocOk(d, r, scan)
    ensures ReadValue(DocThen(d, r), current, scan) == Outcome(true, DocValue(d, scan), r, [])
    decreases d, 1
  {
    hide ReadPastComments, ReadToken, DocThen, WordText, Literal, Spelling, Meaning, Unescape, ElemsOk, MemsOk;
    hide NumberValue, NumberText, NumberOutcome;
    FirstTokenRead(d, r, scan);
    match d {
      case Word(_, v) =>
      case Number(_, text) => NumberIsRead(Token(NumberToken, text, r), current, scan);
      case Quoted(_, ps) => LiteralRead(ps, r);
      case EmptyList(_, inner) => ListEnds(inner, r);
      case Items(_, elems) =>
        DocStarts(elems.d, Behind(elems, r), scan) by { FirstOk(elems, r, scan); }
        ElemsAccepted(elems, r, End, 0, scan);
        ElemsSkipped(ElemsThen(elems, r), End, 0, scan);
        ElemsBegin(elems, r);
      case Table(_, mems) => MemsAccepted(mems, "", r, End, scan);
    }
  }

  lemma ListEnds(inner: Gap, r: string)
    requires inner.Ok() && inner.Plain()
    ensures SkipSpaces(inner.Then("]" + r)) == "]" + r && ("]" + r)[1..] == r
  {
    SkipsPlain(inner, "]" + r);
  }

  lemma {:induction false} SkipsPlain(g: Gap, t: string)
    requires g.Ok() && g.Plain() && t != "" && !IsSpace(t[0])
    ensures SkipSpaces(g.Then(t)) == t
  {
    if g.Blank? {
      BlankRead(g.c, g.rest.Then(t));
      SkipsPlain(g.rest, t);
    }
  }

  lemma FirstOk(e: Elems, r: string, scan: DoubleParser)
    requires ElemsOk(e, r, scan)
    ensures DocOk(e.d, Behind(e, r), scan)
  {
    hide DocOk;
  }

  lemma ElemsBegin(e: Elems, r: string)
    ensures ElemsThen(e, r) == DocThen(e.d, Behind(e, r))
  {
    hide DocThen;
  }

  lemma ElemsSkipped(s: string, ms: Members, index: nat, scan: DoubleParser)
    ensures ReadElements(SkipSpaces(s), ms, index, scan) == ReadElements(s, ms, index, scan)
  {
    hide ReadValue, AfterElement;
    SkippedRead(s, Child(ms, Index(index)), scan);
  }

  lemma {:induction false} ElemsAccepted(e: Elems, r: string, ms: Members, index: nat, scan: DoubleParser)
    requires ElemsOk(e, r, scan)
    ensures ReadElements(ElemsThen(e, r), ms, index, scan) == Outcome(true, Arr(ElemsValue(e, ms, index, scan)), r, [])
    decreases e, 0
  {
    hide ReadValue, DocThen, DocOk, ReadToken, DocValue, Put;
    FirstOk(e, r, scan);
    ElemsBegin(e, r);
    DocAccepted(e.d, Behind(e, r), Child(ms, Index(index)), scan);
    if e.Last? {
      PlainRead(e.gap, "]" + r);
      MarkRead(']', ArrayEnd, r);
    } else {
      PlainRead(e.gap, "," + ElemsThen(e.rest, r));
      MarkRead(',', ArraySeparator, ElemsThen(e.rest, r));
      ElemsAccepted(e.rest, r, Put(ms, Index(index), DocValue(e.d, scan)), index + 1, scan);
    }
  }

  /** Behind a member: the end of the object, or on to the next one. */
  lemma AfterSep(child: Outcome, ms: Members, name: string, sep: Gap, t: string, scan: DoubleParser)
    requires sep.Ok() && child.ok && child.errors == [] && child.rest == sep.Then(t) && ReadToken(t).kind != Comment
    requires sep.Plain() ==> ReadToken(t).kind in {ObjectEnd, ArraySeparator}
    ensures AfterMember(child, ms, name, scan) ==
            if ReadToken(t).kind == ObjectEnd then Outcome(true, Obj(ms), ReadToken(t).rest, [])
            else ReadMembers(ReadToken(t).rest, ms, name, scan)
  {
    hide ReadToken, ReadMembers, Gap.Then, Gap.Ok;
    GapRead(sep, t);
    if sep.Plain() { PlainRead(sep, t); } else { RemarkFirst(sep, t); }
    Tidy(ReadMembers(ReadToken(t).rest, ms, name, scan));
  }

  lemma NameRead(gap: Gap, ps: seq<Piece>, t: string)
    requires gap.Ok() && AllOk(ps)
    ensures ReadPastComments(gap.Then(Literal(ps) + t)) == Token(StringToken, Literal(ps), t)
    ensures Unescape(Body(Literal(ps))) == Good(Meaning(ps))
  {
    hide ReadToken, ReadPastComments, Literal, Unescape, Meaning, Gap.Then;
    LiteralRead(ps, t);
    GapRead(gap, Literal(ps) + t);
  }

  /** What stands behind the colon of a member. */
  function ValueText(m: Mems, r: string): string
    requires !m.Close?
  {
    DocThen(m.d, Separated(m, r))
  }

  /** What stands behind its value. */
  function Separated(m: Mems, r: string): string
    requires !m.Close?
  {
    m.sep.Then(NextText(m, r))
  }

  function NextText(m: Mems, r: string): string
    requires !m.Close?
  {
    if m.Final? then "}" + r else m.token + MemsThen(m.rest, r)
  }

  lemma MemberText(m: Mems, r: string)
    requires !m.Close?
    ensures MemsThen(m, r) == m.gap.Then(Literal(m.ps) + m.colon.Then(":" + ValueText(m, r)))
  {
    hide DocThen, Literal;
  }

  lemma MemberIs(m: Mems, name: string, r: string, scan: DoubleParser)
    requires !m.Close? && MemsOk(m, name, r, scan)
    ensures DocOk(m.d, Separated(m, r), scan) && AllOk(m.ps) && m.gap.Ok() && m.colon.Ok() && m.colon.Plain() && m.sep.Ok()
    ensures var tok := ReadToken(NextText(m, r));
            tok.kind != Comment && (m.Final? ==> tok.kind == ObjectEnd && tok.rest == r) &&
            (m.Entry? ==> tok.kind != ObjectEnd && tok.rest == MemsThen(m.rest, r)) &&
            (m.sep.Plain() ==> tok.kind in {ObjectEnd, ArraySeparator})
  {
    hide DocOk, ReadToken, MemsThen, AllOk, Gap.Ok;
    if m.Final? { MarkRead('}', ObjectEnd, r); } else if m.sep.Plain() { MarkRead(',', ArraySeparator, MemsThen(m.rest, r)); }
  }

  /** A member up to the colon, and what follows it. */
  lemma MemberRead(gap: Gap, ps: seq<Piece>, colon: Gap, text: string, ms: Members, name: string, scan: DoubleParser)
    requires gap.Ok() && AllOk(ps) && colon.Ok() && colon.Plain()
    ensures var key := Name(Cut(Meaning(ps)));
            var child := ReadValue(text, Child(ms, key), scan);
            ReadMembers(gap.Then(Literal(ps) + colon.Then(":" + text)), ms, name, scan) ==
            AfterMember(child, Put(ms, key, child.value), Meaning(ps), scan)
  {
    hide ReadToken, ReadPastComments, ReadValue, AfterMember, Literal, Unescape, Meaning, Put, AllOk, Gap.Then, Gap.Ok, Gap.Plain, Body;
    NameRead(gap, ps, colon.Then(":" + text));
    MarkRead(':', MemberSeparator, text);
    PlainRead(colon, ":" + text);
  }

  lemma {:induction false} MemsAccepted(m: Mems, name: string, r: string, ms: Members, scan: DoubleParser)
    requires MemsOk(m, name, r, scan)
    ensures ReadMembers(MemsThen(m, r), ms, name, scan) == Outcome(true, Obj(MemsValue(m, ms, scan)), r, [])
    decreases m, 0
  {
    if m.Close? {
      EndAccepted(m.gap, name, r, ms, scan);
    } else {
      hide ReadToken, ReadValue, ReadMembers, AfterMember, DocThen, DocOk, MemsThen, Literal, Meaning, DocValue, Put, AllOk, Separated, NextText;
      hide Gap.Then, Gap.Ok, Gap.Plain;
      MemberText(m, r);
      MemberIs(m, name, r, scan);
      MemberRead(m.gap, m.ps, m.colon, ValueText(m, r), ms, name, scan);
      var key := Name(Cut(Meaning(m.ps)));
      DocAccepted(m.d, Separated(m, r), Child(ms, key), scan);
      var child := Outcome(true, DocValue(m.d, scan), Separated(m, r), []);
      var put := Put(ms, key, DocValue(m.d, scan));
      SeparatedIs(m, r);
      AfterSep(child, put, Meaning(m.ps), m.sep, NextText(m, r), scan);
      if m.Entry? { MemsAccepted(m.rest, Meaning(m.ps), r, put, scan) by { RestOk(m, name, r, scan); } }
    }
  }

  lemma SeparatedIs(m: Mems, r: string)
    requires !m.Close?
    ensures Separated(m, r) == m.sep.Then(NextText(m, r))
  {
  }

  lemma RestOk(m: Mems, name: string, r: string, scan: DoubleParser)
    requires m.Entry? && MemsOk(m, name, r, scan)
    ensures MemsOk(m.rest, Meaning(m.ps), r, scan)
  {
    hide DocOk;
  }

  lemma EndAccepted(gap: Gap, name: string, r: string, ms: Members, scan: DoubleParser)
    requires gap.Ok() && name == ""
    ensures ReadMembers(gap.Then("}" + r), ms, name, scan) == Outcome(true, Obj(ms), r, [])
  {
    hide ReadToken, ReadPastComments, Gap.Then;
    MarkRead('}', ObjectEnd, r);
    GapRead(gap, "}" + r);
  }

  // ----- every token is in the grammar -----

  predicate Suffix(r: string, u: string) { |r| <= |u| && u[|u| - |r|..] == r }

  lemma SuffixOf(r: string, u: string, n: nat)
    requires n <= |u| && Suffix(r, u[n..])
    ensures Suffix(r, u)
  {
    assert u[n..][|u[n..]| - |r|..] == u[|u| - |r|..];
  }

  lemma {:induction false} StringEndSuffix(u: string)
    ensures var (ok, r) := StringEnd(u); Suffix(r, u) && (ok ==> |r| < |u| && u[|u| - |r| - 1] == '"')
    decreases |u|
  {
    if u != "" && u[0] == '\\' {
      if |u| > 2 {
        StringEndSuffix(u[2..]);
        SuffixOf(StringEnd(u[2..]).1, u, 2);
      }
    } else if u != "" && u[0] != '"' {
      StringEndSuffix(u[1..]);
      SuffixOf(StringEnd(u[1..]).1, u, 1);
    }
  }

  lemma {:induction false} NumberEndSuffix(u: string)
    ensures var r := NumberEnd(u);
            Suffix(r, u) && (r == "" || !NumberChar(r[0])) && forall i :: 0 <= i < |u| - |r| ==> NumberChar(u[i])
  {
    if u != "" && NumberChar(u[0]) {
      NumberEndSuffix(u[1..]);
      SuffixOf(NumberEnd(u[1..]), u, 1);
    }
  }

  lemma {:induction false} CStyleForm(u: string) returns (body: string)
    ensures var (ok, r) := CStyleEnd(u); Suffix(r, u) && (ok ==> u == body + ("*/" + r) && Unclosed(body))
  {
    hide Unclosed, Suffix;
    var (ok, r) := CStyleEnd(u);
    if u == "" {
      body := "";
      WholeSuffix("");
    } else if u[0] == '*' && |u| > 1 && u[1] == '/' {
      body := "";
      CloseHere(u);
    } else {
      body := CStyleForm(u[1..]);
      SuffixOf(r, u, 1);
      if ok {
        assert u == [u[0]] + u[1..];
        assert [u[0]] + (body + ("*/" + r)) == ([u[0]] + body) + ("*/" + r);
        if body != "" { assert u[1] == body[0]; }
        UnclosedMore(u[0], body);
      }
      body := [u[0]] + body;
    }
  }

  lemma CloseHere(u: string)
    requires |u| > 1 && u[0] == '*' && u[1] == '/'
    ensures Suffix(u[2..], u) && Unclosed("") && u == "" + ("*/" + u[2..])
  {
  }

  lemma UnclosedMore(c: char, body: string)
    requires Unclosed(body) && (c == '*' && body != "" ==> body[0] != '/')
    ensures Unclosed([c] + body)
  {
    var more := [c] + body;
    forall i: nat | i < |more|
      ensures !Closes(more + "*/", i)
    {
      if i > 0 { assert !Closes(body + "*/", i - 1); }
    }
  }

  lemma {:induction false} CppStyleForm(u: string) returns (line: string, c: char)
    ensures var r := CppStyleEnd(u);
            Suffix(r, u) && (r != "" ==> u == line + ([c] + r) && '\r' !in line && '\n' !in line && (c == '\r' || c == '\n'))
  {
    hide Suffix;
    line, c := "", '\n';
    if u == "" {
      WholeSuffix("");
    } else if u[0] == '\r' || u[0] == '\n' {
      c := u[0];
      BreakHere(u);
    } else {
      var r := CppStyleEnd(u[1..]);
      line, c := CppStyleForm(u[1..]);
      SuffixOf(r, u, 1);
      assert u == [u[0]] + u[1..];
      assert [u[0]] + (line + ([c] + r)) == ([u[0]] + line) + ([c] + r);
      line := [u[0]] + line;
    }
  }

  lemma BreakHere(u: string)
    requires u != ""
    ensures Suffix(u[1..], u) && u == "" + ([u[0]] + u[1..])
  {
  }

  lemma CommentSuffix(u: string)
    ensures Suffix(CommentEnd(u).1, u)
  {
    hide CStyleEnd, CppStyleEnd, Suffix, Unclosed;
    if u == "" {
      WholeSuffix("");
    } else {
      var body := CStyleForm(u[1..]);
      var line, c := CppStyleForm(u[1..]);
      WholeSuffix(u[1..]);
      SuffixOf(CommentEnd(u).1, u, 1);
    }
  }

  lemma MatchSuffix(u: string, pattern: string)
    ensures Suffix(MatchEnd(u, pattern).1, u)
  {
  }

  lemma ScanSuffix(c: char, u: string)
    ensures Suffix(Scan(c, u).1.1, u)
  {
    hide StringEnd, NumberEnd, CommentEnd, MatchEnd, Suffix;
    StringEndSuffix(u);
    NumberEndSuffix(u);
    CommentSuffix(u);
    MatchSuffix(u, "rue");
    MatchSuffix(u, "alse");
    MatchSuffix(u, "ull");
    MatchSuffix(u, "");
    assert Suffix(u, u) by { WholeSuffix(u); }
  }

  lemma WholeSuffix(u: string)
    ensures Suffix(u, u)
  {
  }

  /** A token is what stands between the blanks in front of it and the rest. */
  lemma TokenSplits(s: string) returns (w: string)
    requires SkipSpaces(s) != ""
    ensures var tok := ReadToken(s);
            && s == w + (tok.text + tok.rest) && (forall i :: 0 <= i < |w| ==> w[i] in BLANKS)
            && tok.text != "" && !IsSpace(tok.text[0]) && ReadToken(tok.text + tok.rest) == tok
            && Scan(tok.text[0], (tok.text + tok.rest)[1..]) == (ReadKind(s), (ReadEnd(s), tok.rest))
            && tok.kind == if ReadEnd(s) then ReadKind(s) else ErrorToken
  {
    hide Scan, Suffix, SkipSpaces;
    w := SkipsBlanks(s);
    var t, tok := SkipSpaces(s), ReadToken(s);
    ScanSuffix(t[0], t[1..]);
    SuffixOf(tok.rest, t, 1);
    SplitAt(t, tok.rest);
    assert SkipSpaces(t) == t by { SkipsNothing(t); }
  }

  lemma SplitAt(t: string, r: string)
    requires Suffix(r, t)
    ensures t == t[..|t| - |r|] + r
  {
  }

  lemma SkipsNothing(t: string)
    requires t != "" && t[0] !in BLANKS
    ensures SkipSpaces(t) == t && !IsSpace(t[0])
  {
    BlankIs(t[0]);
  }

  function ReadKind(s: string): TokenType
    requires SkipSpaces(s) != ""
  {
    Scan(SkipSpaces(s)[0], SkipSpaces(s)[1..]).0
  }

  function ReadEnd(s: string): bool
    requires SkipSpaces(s) != ""
  {
    Scan(SkipSpaces(s)[0], SkipSpaces(s)[1..]).1.0
  }

  /** The blanks in front of a gap. */
  function Blanks(w: string, g: Gap): Gap {
    if w == "" then g else Blank(w[0], Blanks(w[1..], g))
  }

  lemma {:induction false} BlanksThen(w: string, g: Gap, t: string)
    requires g.Ok() && forall i :: 0 <= i < |w| ==> w[i] in BLANKS
    ensures Blanks(w, g).Ok() && Blanks(w, g).Then(t) == w + g.Then(t) && (g.Plain() ==> Blanks(w, g).Plain())
  {
    if w == "" {
      assert "" + g.Then(t) == g.Then(t);
    } else {
      BlanksThen(w[1..], g, t);
      assert [w[0]] + (w[1..] + g.Then(t)) == w + g.Then(t);
    }
  }

  lemma PlainDerived(s: string) returns (g: Gap)
    requires ReadToken(s).text != ""
    ensures var tok := ReadToken(s);
            g.Ok() && g.Plain() && s == g.Then(tok.text + tok.rest) && !IsSpace(tok.text[0]) && ReadToken(tok.text + tok.rest) == tok
  {
    var w := TokenSplits(s);
    g := Blanks(w, NoGap);
    BlanksThen(w, NoGap, ReadToken(s).text + ReadToken(s).rest);
  }

  /** A gap that is one comment. */
  predicate OneComment(g: Gap) { (g.Remark? || g.LineRemark?) && g.Ok() && g.rest == NoGap }

  function CommentText(g: Gap): string
    requires OneComment(g)
  {
    if g.Remark? then CStyle(g.body) else CppStyle(g.line, g.c)
  }

  lemma CommentBody(u: string) returns (g: Gap)
    requires CommentEnd(u).0 && CommentEnd(u).1 != ""
    ensures OneComment(g) && "/" + u == CommentText(g) + CommentEnd(u).1
  {
    hide CStyleEnd, CppStyleEnd, Unclosed;
    var r, v := CommentEnd(u).1, u[1..];
    assert u == [u[0]] + v && NoGap.Ok();
    if u[0] == '*' {
      var body := CStyleForm(v);
      g := Remark(body, NoGap);
      CStyleText(body, r);
    } else {
      var line, c := CppStyleForm(v);
      g := LineRemark(line, c, NoGap);
      CppStyleText(line, c, r);
    }
  }

  lemma CStyleText(body: string, r: string)
    ensures "/" + (['*'] + (body + ("*/" + r))) == CStyle(body) + r
  {
  }

  lemma CppStyleText(line: string, c: char, r: string)
    ensures "/" + (['/'] + (line + ([c] + r))) == CppStyle(line, c) + r
  {
  }

  lemma CommentKind(c: char, u: string)
    ensures Scan(c, u).0 == Comment <==> c == '/'
    ensures c == '/' ==> Scan(c, u).1 == CommentEnd(u)
  {
    hide StringEnd, NumberEnd, CommentEnd, MatchEnd;
  }

  /** A comment that does not run to the end of the document. */
  lemma CommentForm(s: string) returns (w: string, g: Gap)
    requires ReadToken(s).kind == Comment && ReadToken(s).rest != ""
    ensures OneComment(g) && ReadToken(s).text == CommentText(g)
    ensures (forall i :: 0 <= i < |w| ==> w[i] in BLANKS) && s == w + (ReadToken(s).text + ReadToken(s).rest)
  {
    w := TokenSplits(s);
    var tok := ReadToken(s);
    hide Scan, ReadToken, CommentEnd, CommentText, OneComment;
    var t := tok.text + tok.rest;
    CommentKind(tok.text[0], t[1..]);
    assert t == "/" + t[1..];
    g := CommentBody(t[1..]);
    assert tok.text == CommentText(g) by { SameHead(tok.text, CommentText(g), tok.rest); }
  }

  lemma SameHead(a: string, b: string, r: string)
    requires a + r == b + r
    ensures a == b
  {
    assert |a| == |b|;
    assert a == (a + r)[..|a|] == (b + r)[..|b|] == b;
  }

  /** What is skipped in front of a value or a name is a gap. */
  lemma {:induction false} GapDerived(s: string) returns (g: Gap)
    requires ReadPastComments(s).text != ""
    ensures var tok := ReadPastComments(s);
            g.Ok() && s == g.Then(tok.text + tok.rest) && !IsSpace(tok.text[0]) && ReadToken(tok.text + tok.rest) == tok
    decreases |s|
  {
    hide ReadToken;
    var tok := ReadToken(s);
    if tok.kind == Comment {
      var w, one := CommentForm(s);
      var rest := GapDerived(tok.rest);
      g := Blanks(w, if one.Remark? then Remark(one.body, rest) else LineRemark(one.line, one.c, rest));
      var past := ReadPastComments(s);
      BlanksThen(w, if one.Remark? then Remark(one.body, rest) else LineRemark(one.line, one.c, rest), past.text + past.rest);
    } else {
      g := PlainDerived(s);
    }
  }

  // ----- the forms of the tokens -----

  predicate Stands(tok: Token) {
    tok.text != "" && !IsSpace(tok.text[0]) && ReadToken(tok.text + tok.rest) == tok
  }

  /** A token at the front of a text, by its first character. */
  lemma StandsIs(tok: Token)
    requires Stands(tok)
    ensures var t := tok.text + tok.rest; var (kind, end) := Scan(t[0], t[1..]);
            t[0] == tok.text[0] && tok == Token(if end.0 then kind else ErrorToken, t[..|t| - |end.1|], end.1)
  {
    hide Scan;
    var t := tok.text + tok.rest;
    assert SkipSpaces(t) == t;
  }

  predicate MarkKind(kind: TokenType) {
    kind in {ObjectBegin, ObjectEnd, ArrayBegin, ArrayEnd, ArraySeparator, MemberSeparator}
  }

  lemma MarkForm(tok: Token)
    requires Stands(tok) && MarkKind(tok.kind)
    ensures |tok.text| == 1 && Mark(tok.text[0], tok.kind)
  {
    hide StringEnd, NumberEnd, CommentEnd, MatchEnd, ReadToken;
    StandsIs(tok);
  }

  lemma WordForm(tok: Token) returns (v: Value)
    requires Stands(tok) && tok.kind in {TrueToken, FalseToken, NullToken}
    ensures tok.text == WordText(v) && (v.Null? || v.Bool?)
    ensures v == if tok.kind == NullToken then Null else Bool(tok.kind == TrueToken)
  {
    hide StringEnd, NumberEnd, CommentEnd, ReadToken;
    StandsIs(tok);
    var t := tok.text + tok.rest;
    v := if tok.kind == NullToken then Null else Bool(tok.kind == TrueToken);
    assert t == [t[0]] + t[1..];
    var word := WordText(v);
    assert t[1..][..|word| - 1] == word[1..];
    assert t[..|word|] == word;
  }

  lemma NumberForm(tok: Token)
    requires Stands(tok) && tok.kind == NumberToken
    ensures NumberText(tok.text) && (tok.rest == "" || !Numeral(tok.rest[0]))
  {
    hide StringEnd, NumberEnd, CommentEnd, MatchEnd, ReadToken, Numeral, Digit;
    forall c
      ensures Numeral(c) <==> NumberChar(c)
      ensures Digit(c) <==> IsDigit(c)
    {
      NumeralIs(c);
      DigitIs(c);
    }
    StandsIs(tok);
    var t := tok.text + tok.rest;
    NumberEndSuffix(t[1..]);
    forall i | 0 <= i < |tok.text|
      ensures Numeral(tok.text[i])
    {
      if i > 0 { assert tok.text[i] == t[1..][i - 1]; }
    }
  }

  lemma LiteralForm(tok: Token, x: string) returns (ps: seq<Piece>)
    requires Stands(tok) && tok.kind == StringToken && Unescape(Body(tok.text)) == Good(x)
    ensures AllOk(ps) && tok.text == Literal(ps) && Meaning(ps) == x
  {
    hide Stands, Body, StringEnd, Unescape, Spelling, Meaning;
    LiteralSplits(tok);
    var body := Body(tok.text);
    var tail;
    ps, tail := Respells(body, x);
    NoBareQuote(ps, tail, body, tok.rest, body + "\"" + tok.rest);
    assert Spelling(ps) + "" == Spelling(ps);
  }

  /** A string token is quotes around its body, and the scan behind the first quote ends with it. */
  lemma LiteralSplits(tok: Token)
    requires Stands(tok) && tok.kind == StringToken
    ensures tok.text == "\"" + Body(tok.text) + "\"" && StringEnd(Body(tok.text) + "\"" + tok.rest) == (true, tok.rest)
  {
    hide NumberEnd, CommentEnd, MatchEnd, ReadToken;
    StandsIs(tok);
    var t := tok.text + tok.rest;
    StringEndSuffix(t[1..]);
    assert StringEnd(t[1..]) == (true, tok.rest);
    QuotedBody(tok.text, tok.rest, t);
    assert t[1..] == Body(tok.text) + "\"" + tok.rest;
  }

  lemma QuotedBody(text: string, r: string, t: string)
    requires t == text + r && |t| > |r| + 1 && t[0] == '"' && t[1..][|t| - 1 - |r| - 1] == '"'
    ensures text == "\"" + Body(text) + "\""
  {
    assert |text| >= 2 && text[0] == t[0] && text[|text| - 1] == t[|text| - 1];
  }

  /** A bare quote inside a literal would have ended it. */
  lemma NoBareQuote(ps: seq<Piece>, tail: string, body: string, r: string, u: string)
    requires AllOk(ps) && body == Spelling(ps) + tail && u == body + "\"" + r && StringEnd(u).1 == r
    ensures tail != "" ==> tail[0] != '"'
  {
    hide Spelling, StringEnd;
    if tail != "" && tail[0] == '"' {
      var more := tail[1..] + "\"" + r;
      assert tail == "\"" + tail[1..];
      assert u == Spelling(ps) + ("\"" + more);
      SpellingEnds(ps, more);
      assert false;
    }
  }

  lemma {:induction false} TextUnlessEnd(s: string)
    ensures ReadPastComments(s).text == "" ==> ReadPastComments(s).kind == EndOfStream && ReadPastComments(s).rest == ""
    ensures ReadToken(s).text == "" ==> ReadToken(s).kind == EndOfStream && ReadToken(s).rest == ""
    decreases |s|
  {
    hide Scan;
    if ReadToken(s).kind == Comment { TextUnlessEnd(ReadToken(s).rest); }
  }

  // ----- what the reader takes is a document of the grammar -----

  ghost predicate Derived(d: Doc, s: string, o: Outcome, scan: DoubleParser) {
    s == DocThen(d, o.rest) && DocOk(d, o.rest, scan) && o.value == DocValue(d, scan) && o.errors == []
  }

  lemma ScalarDerived(s: string, current: Value, scan: DoubleParser) returns (d: Doc)
    requires ReadValue(s, current, scan).ok && ReadPastComments(s).kind !in {ObjectBegin, ArrayBegin}
    ensures Derived(d, s, ReadValue(s, current, scan), scan)
  {
    hide ReadPastComments, ReadToken, Unescape, Meaning, Literal, Gap.Then, Gap.Ok, NumberValue, NumberText, NumberOutcome, WordText, Body;
    var tok := ReadPastComments(s);
    TextUnlessEnd(s);
    var g := GapDerived(s);
    if tok.kind == NumberToken {
      NumberForm(tok);
      NumberIsRead(tok, current, scan);
      d := Number(g, tok.text);
    } else if tok.kind == StringToken {
      var x := Unescape(Body(tok.text)).s;
      var ps := LiteralForm(tok, x);
      d := Quoted(g, ps);
    } else {
      var v := WordForm(tok);
      d := Word(g, v);
    }
    assert CoreThen(d, tok.rest) == tok.text + tok.rest;
  }

  lemma EmptyDerived(s: string, current: Value, scan: DoubleParser) returns (d: Doc)
    requires ReadValue(s, current, scan).ok && ReadPastComments(s).kind == ArrayBegin
    requires var t := SkipSpaces(ReadPastComments(s).rest); t != "" && t[0] == ']'
    ensures Derived(d, s, ReadValue(s, current, scan), scan)
  {
    hide ReadPastComments, ReadToken, ReadElements, ReadMembers, SkipSpaces, Gap.Then, Gap.Ok, Gap.Plain;
    var tok := ReadPastComments(s);
    TextUnlessEnd(s);
    var g := GapDerived(s);
    MarkForm(tok);
    var t := SkipSpaces(tok.rest);
    assert t == "]" + t[1..];
    assert tok.text == "[";
    var inner := SpacesDerived(tok.rest);
    d := EmptyList(g, inner);
    assert CoreThen(d, t[1..]) == tok.text + tok.rest;
  }

  lemma SpacesDerived(s: string) returns (g: Gap)
    ensures g.Ok() && g.Plain() && s == g.Then(SkipSpaces(s))
  {
    hide SkipSpaces;
    var w := SkipsBlanks(s);
    BlanksThen(w, NoGap, SkipSpaces(s));
    g := Blanks(w, NoGap);
  }

  lemma {:induction false} DocDerived(s: string, current: Value, scan: DoubleParser) returns (d: Doc)
    requires ReadValue(s, current, scan).ok
    ensures Derived(d, s, ReadValue(s, current, scan), scan)
    decreases |s|, 0
  {
    hide ReadPastComments, ReadToken, ReadElements, ReadMembers, ElemsThen, MemsThen, ElemsOk, MemsOk, ElemsValue, MemsValue, Gap.Then, Gap.Ok;
    var tok := ReadPastComments(s);
    if tok.kind !in {ObjectBegin, ArrayBegin} {
      d := ScalarDerived(s, current, scan);
    } else {
      TextUnlessEnd(s);
      var g := GapDerived(s);
      MarkForm(tok);
      if tok.kind == ObjectBegin {
        assert tok.text == "{";
        var m := MemsDerived(tok.rest, End, "", scan);
        d := Table(g, m);
        assert CoreThen(d, ReadValue(s, current, scan).rest) == tok.text + tok.rest;
      } else {
        var t := SkipSpaces(tok.rest);
        assert tok.text == "[";
        if t != "" && t[0] == ']' {
          d := EmptyDerived(s, current, scan);
        } else {
          ElemsSkipped(tok.rest, End, 0, scan);
          var e := ElemsDerived(tok.rest, End, 0, scan);
          d := Items(g, e);
          assert CoreThen(d, ReadValue(s, current, scan).rest) == tok.text + tok.rest;
        }
      }
    }
  }

  ghost predicate ElemsAre(e: Elems, s: string, o: Outcome, ms: Members, index: nat, scan: DoubleParser) {
    s == ElemsThen(e, o.rest) && ElemsOk(e, o.rest, scan) && o.value == Arr(ElemsValue(e, ms, index, scan)) && o.errors == []
  }

  lemma {:induction false} ElemsDerived(s: string, ms: Members, index: nat, scan: DoubleParser) returns (e: Elems)
    requires ReadElements(s, ms, index, scan).ok
    ensures ElemsAre(e, s, ReadElements(s, ms, index, scan), ms, index, scan)
    decreases |s|, 1
  {
    hide ReadValue, ReadToken, DocThen, DocOk, DocValue, Put, Gap.Then, Gap.Ok, Gap.Plain;
    var child := ReadValue(s, Child(ms, Index(index)), scan);
    var d := DocDerived(s, Child(ms, Index(index)), scan);
    var tok := ReadToken(child.rest);
    TextUnlessEnd(child.rest);
    var g := PlainDerived(child.rest);
    MarkForm(tok);
    if tok.kind == ArrayEnd {
      assert tok.text == "]";
      e := Last(d, g);
    } else {
      assert tok.text == ",";
      var rest := ElemsDerived(tok.rest, Put(ms, Index(index), child.value), index + 1, scan);
      e := More(d, g, rest);
    }
  }

  ghost predicate MemsAre(m: Mems, name: string, s: string, o: Outcome, ms: Members, scan: DoubleParser) {
    s == MemsThen(m, o.rest) && MemsOk(m, name, o.rest, scan) && o.value == Obj(MemsValue(m, ms, scan)) && o.errors == []
  }

  /** What follows the value of a member. */
  lemma {:induction false} TailDerived(child: Outcome, ms: Members, name: string, scan: DoubleParser) returns (sep: Gap, token: string, rest: Option<Mems>)
    requires AfterMember(child, ms, name, scan).ok && child.errors == []
    ensures var o := AfterMember(child, ms, name, scan);
            && sep.Ok() && o.errors == []
            && (rest.None? ==> child.rest == sep.Then("}" + o.rest) && o.value == Obj(ms))
            && (rest.Some? ==>
                  && child.rest == sep.Then(token + MemsThen(rest.value, o.rest)) && MemsOk(rest.value, name, o.rest, scan)
                  && o.value == Obj(MemsValue(rest.value, ms, scan))
                  && if sep.Plain() then token == "," else Separates(token, MemsThen(rest.value, o.rest)))
    decreases |child.rest|, 1
  {
    hide ReadToken, ReadPastComments, ReadMembers, MemsThen, MemsOk, MemsValue, Gap.Then, Gap.Ok, Gap.Plain;
    var comma := ReadToken(child.rest);
    TextUnlessEnd(child.rest);
    var tok := comma;
    if comma.kind == Comment {
      PastIs(child.rest);
      tok := ReadPastComments(child.rest);
      if tok.text == "" { NothingMore(ms, name, scan); }
      sep := GapDerived(child.rest);
      NotPlain(sep, tok, child.rest);
    } else {
      sep := PlainDerived(child.rest);
    }
    token, rest := tok.text, None;
    if tok.kind == ObjectEnd {
      MarkForm(tok);
      assert tok.text == "}";
    } else {
      if comma.kind != Comment { MarkForm(tok); assert tok.text == ","; }
      var m := MemsDerived(tok.rest, ms, name, scan);
      rest := Some(m);
    }
  }

  lemma PastIs(s: string)
    ensures ReadToken(s).kind == Comment ==> ReadPastComments(s) == ReadPastComments(ReadToken(s).rest)
  {
    hide ReadToken;
  }

  lemma NothingMore(ms: Members, name: string, scan: DoubleParser)
    ensures !ReadMembers("", ms, name, scan).ok
  {
  }

  lemma NotPlain(sep: Gap, tok: Token, s: string)
    requires sep.Ok() && s == sep.Then(tok.text + tok.rest) && ReadToken(tok.text + tok.rest) == tok
    requires tok.kind != Comment && ReadToken(s).kind == Comment
    ensures !sep.Plain()
  {
    hide ReadToken;
    if sep.Plain() { PlainRead(sep, tok.text + tok.rest); }
  }

  lemma {:induction false} MemsDerived(s: string, ms: Members, name: string, scan: DoubleParser) returns (m: Mems)
    requires ReadMembers(s, ms, name, scan).ok
    ensures MemsAre(m, name, s, ReadMembers(s, ms, name, scan), ms, scan)
    decreases |s|, 2
  {
    hide ReadToken, ReadPastComments, Gap.Then, Gap.Ok, Gap.Plain;
    var tok := ReadPastComments(s);
    TextUnlessEnd(s);
    var gap := GapDerived(s);
    if tok.kind == ObjectEnd {
      hide ReadValue, AfterMember;
      MarkForm(tok);
      assert tok.text == "}";
      m := Close(gap);
    } else {
      hide ReadValue, AfterMember, DocThen, DocOk, DocValue, MemsThen, Literal, Unescape, Meaning, Put, AllOk, Body;
      var x := Unescape(Body(tok.text)).s;
      var ps := LiteralForm(tok, x);
      var colonTok := ReadToken(tok.rest);
      TextUnlessEnd(tok.rest);
      var colon := PlainDerived(tok.rest);
      MarkForm(colonTok);
      assert colonTok.text == ":";
      var key := Name(Cut(x));
      var child := ReadValue(colonTok.rest, Child(ms, key), scan);
      var d := DocDerived(colonTok.rest, Child(ms, key), scan);
      var put := Put(ms, key, child.value);
      var sep, token, rest := TailDerived(child, put, x, scan);
      m := if rest.None? then Final(gap, ps, colon, d, sep) else Entry(gap, ps, colon, d, sep, token, rest.value);
      Assembled(m, name, s, ReadMembers(s, ms, name, scan), ms, scan);
    }
  }

  lemma Assembled(m: Mems, name: string, s: string, o: Outcome, ms: Members, scan: DoubleParser)
    requires !m.Close? && o.errors == []
    requires s == m.gap.Then(Literal(m.ps) + m.colon.Then(":" + ValueText(m, o.rest)))
    requires m.gap.Ok() && AllOk(m.ps) && m.colon.Ok() && m.colon.Plain() && m.sep.Ok() && DocOk(m.d, Separated(m, o.rest), scan)
    requires m.Entry? ==> MemsOk(m.rest, Meaning(m.ps), o.rest, scan)
    requires m.Entry? ==> if m.sep.Plain() then m.token == "," else Separates(m.token, MemsThen(m.rest, o.rest))
    requires o.value == Obj(var put := Put(ms, Name(Cut(Meaning(m.ps))), DocValue(m.d, scan)); if m.Final? then put else MemsValue(m.rest, put, scan))
    ensures MemsAre(m, name, s, o, ms, scan)
  {
    hide DocOk, DocThen, Gap.Then, Gap.Ok, Gap.Plain, Literal, Meaning, Put, DocValue;
    MemberText(m, o.rest);
  }

  // ----- main results -----

  /** `d` is written as `s` in front of `r`, and means `v`. */
  ghost predicate Writes(d: Doc, s: string, v: Value, r: string, scan: DoubleParser) {
    s == DocThen(d, r) && DocOk(d, r, scan) && DocValue(d, scan) == v
  }

  /** The reader takes exactly the texts of the grammar, each for its value, and reports no error then. */
  lemma ReadsIff(s: string, v: Value, r: string, current: Value, scan: DoubleParser)
    ensures ReadValue(s, current, scan) == Outcome(true, v, r, []) <==> exists d: Doc :: Writes(d, s, v, r, scan)
    ensures ReadValue(s, current, scan).ok ==> ReadValue(s, current, scan).errors == []
  {
    hide ReadValue, DocOk, DocThen, DocValue;
    var o := ReadValue(s, current, scan);
    if o.ok {
      var d := DocDerived(s, current, scan);
      assert Writes(d, s, o.value, o.rest, scan);
    }
    forall d: Doc | Writes(d, s, v, r, scan)
      ensures o == Outcome(true, v, r, [])
    {
      DocAccepted(d, r, current, scan);
    }
  }

  // ----- what the members come to -----

  /** The value of the last member with the name. */
  function LastNamed(m: Mems, k: Key, scan: DoubleParser): Option<Value>
    decreases m
  {
    if m.Close? then None
    else
      var later := if m.Entry? then LastNamed(m.rest, k, scan) else None;
      if later.None? && Name(Cut(Meaning(m.ps))) == k then Some(DocValue(m.d, scan)) else later
  }

  lemma {:induction false} PutLookup(ms: Members, k: Key, v: Value, j: Key)
    requires NamesAscend(ms) && k.Name? && NulFree(k.name)
    ensures Lookup(Put(ms, k, v), j) == if j == k then Some(v) else Lookup(ms, j)
  {
    hide KeyLess;
    if ms.Member? {
      PutLookup(ms.rest, k, v, j);
      if KeyLess(k, ms.key) && j == k { NotBelow(ms, k); }
    }
  }

  lemma NotBelow(ms: Members, k: Key)
    requires NamesAscend(ms) && ms.Member? && k.Name? && NulFree(k.name) && KeyLess(k, ms.key)
    ensures k != ms.key
  {
    KeyTrichotomy(k, ms.key, false);
  }

  /** Of the members with one name the last one counts. */
  lemma {:induction false} MemsLookup(m: Mems, ms: Members, k: Key, scan: DoubleParser)
    requires NamesAscend(ms)
    ensures Lookup(MemsValue(m, ms, scan), k) == match LastNamed(m, k, scan) case Some(v) => Some(v) case None => Lookup(ms, k)
    decreases m
  {
    hide DocValue, Put, Lookup;
    if !m.Close? {
      var key := Name(Cut(Meaning(m.ps)));
      PutLookup(ms, key, DocValue(m.d, scan), k);
      PutAscends(ms, key, DocValue(m.d, scan));
      if m.Entry? { MemsLookup(m.rest, Put(ms, key, DocValue(m.d, scan)), k, scan); }
    }
  }
}
