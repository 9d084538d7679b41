/**
 What the reader does with texts that are no documents: the message for each kind of fault, and where
 it goes on.
 */
module JsonErrors {
  import opened Basics
  import opened CText
  import opened JsonGrammar
  import opened JsonNumber
  import opened JsonNumeral
  import opened JsonReading
  import opened JsonRoundTrip
  import opened JsonSpelling
  import opened JsonText
  import opened JsonValue

  /** `toks` are the tokens at the front of `s`. */
  ghost predicate TokensOf(s: string, toks: seq<Token>)
    decreases |toks|
  {
    toks == [] || (toks[0] == ReadToken(s) && TokensOf(toks[0].rest, toks[1..]))
  }

  /** Recovery goes behind the first token of the kind, or behind the last one of all. */
  lemma {:induction false} RecoverSkips(s: string, kind: TokenType) returns (toks: seq<Token>)
    ensures TokensOf(s, toks) && toks != []
    ensures var last := toks[|toks| - 1]; (last.kind == kind || last.kind == EndOfStream) && Recover(s, kind) == last.rest
    ensures forall i :: 0 <= i < |toks| - 1 ==> toks[i].kind != kind && toks[i].kind != EndOfStream
    decreases |s|
  {
    hide ReadToken;
    var tok := ReadToken(s);
    if tok.kind == kind || tok.kind == EndOfStream {
      toks := [tok];
      assert toks[1..] == [];
    } else {
      var more := RecoverSkips(tok.rest, kind);
      toks := [tok] + more;
      assert toks[1..] == more;
    }
  }

  /** Where a value is wanted, a token that begins none. */
  lemma NoValue(gap: Gap, t: string, current: Value, scan: DoubleParser)
    requires gap.Ok()
    requires ReadToken(t).kind in {EndOfStream, ObjectEnd, ArrayEnd, ArraySeparator, MemberSeparator, ErrorToken}
    ensures ReadValue(gap.Then(t), current, scan) == Outcome(false, current, ReadToken(t).rest, [ValueExpected])
  {
    hide ReadToken, ReadPastComments, Gap.Then;
    GapRead(gap, t);
  }

  /** Where a name is wanted, any other token; a closing brace only behind a name that is not empty. */
  lemma NoName(gap: Gap, t: string, ms: Members, name: string, scan: DoubleParser)
    requires gap.Ok() && var kind := ReadToken(t).kind; kind != StringToken && kind != Comment && (kind == ObjectEnd ==> name != "")
    ensures ReadMembers(gap.Then(t), ms, name, scan) ==
            Outcome(false, Obj(ms), Recover(ReadToken(t).rest, ObjectEnd), [MissingBraceOrName])
  {
    hide ReadToken, ReadPastComments, Gap.Then, Recover;
    GapRead(gap, t);
  }

  /** Behind a name, anything but a colon: a comment too. */
  lemma NoColon(gap: Gap, ps: seq<Piece>, colon: Gap, t: string, ms: Members, name: string, scan: DoubleParser)
    requires gap.Ok() && AllOk(ps) && colon.Ok() && colon.Plain() && ReadToken(t).kind != MemberSeparator
    ensures ReadMembers(gap.Then(Literal(ps) + colon.Then(t)), ms, name, scan) ==
            Outcome(false, Obj(ms), Recover(ReadToken(t).rest, ObjectEnd), [MissingColon])
  {
    hide ReadToken, ReadPastComments, Gap.Then, Recover, Literal, Unescape, Meaning, Body, ReadValue, AfterMember;
    NameRead(gap, ps, colon.Then(t));
    PlainRead(colon, t);
  }

  /** Behind a member, a token that is neither a comma nor a brace nor a comment; the member is kept. */
  lemma NoBrace(gap: Gap, ps: seq<Piece>, colon: Gap, d: Doc, sep: Gap, t: string, ms: Members, name: string, scan: DoubleParser)
    requires gap.Ok() && AllOk(ps) && colon.Ok() && colon.Plain() && sep.Ok() && sep.Plain() && DocOk(d, sep.Then(t), scan)
    requires ReadToken(t).kind !in {ObjectEnd, ArraySeparator, Comment}
    ensures ReadMembers(gap.Then(Literal(ps) + colon.Then(":" + DocThen(d, sep.Then(t)))), ms, name, scan) ==
            Outcome(false, Obj(Put(ms, Name(Cut(Meaning(ps))), DocValue(d, scan))), Recover(ReadToken(t).rest, ObjectEnd),
                    [MissingCommaOrBrace])
  {
    hide ReadToken, Gap.Then, Recover, Literal, Meaning, ReadValue, ReadMembers, DocThen, DocOk, DocValue, Put;
    MemberRead(gap, ps, colon, DocThen(d, sep.Then(t)), ms, name, scan);
    DocAccepted(d, sep.Then(t), Child(ms, Name(Cut(Meaning(ps)))), scan);
    PlainRead(sep, t);
  }

  /** Behind an element, a token that is neither a comma nor a bracket: a comment too; the element is kept. */
  lemma NoBracket(d: Doc, gap: Gap, t: string, ms: Members, index: nat, scan: DoubleParser)
    requires gap.Ok() && gap.Plain() && DocOk(d, gap.Then(t), scan)
    requires ReadToken(t).kind !in {ArrayEnd, ArraySeparator}
    ensures ReadElements(DocThen(d, gap.Then(t)), ms, index, scan) ==
            Outcome(false, Arr(Put(ms, Index(index), DocValue(d, scan))), Recover(ReadToken(t).rest, ArrayEnd),
                    [MissingCommaOrBracket])
  {
    hide ReadToken, Gap.Then, Recover, ReadValue, DocThen, DocOk, DocValue, Put;
    DocAccepted(d, gap.Then(t), Child(ms, Index(index)), scan);
    PlainRead(gap, t);
  }

  // ----- tokens that are none -----

  lemma WrongTokenIs(text: string, r: string, kind: TokenType)
    requires text != "" && !IsSpace(text[0]) && Scan(text[0], (text + r)[1..]) == (kind, (false, r))
    ensures ReadToken(text + r) == Token(ErrorToken, text, r)
  {
    hide Scan;
    var t := text + r;
    assert SkipSpaces(t) == t && t[0] == text[0] && t[..|t| - |r|] == text;
  }

  /** The first letter of a word that is not the whole word is an error of its own. */
  lemma WrongWord(c: char, rest: string, r: string)
    requires (c == 't' && rest == "rue") || (c == 'f' && rest == "alse") || (c == 'n' && rest == "ull")
    requires !(rest <= r)
    ensures ReadToken([c] + r) == Token(ErrorToken, [c], r)
  {
    assert ([c] + r)[1..] == r;
    WrongTokenIs([c], r, if c == 't' then TrueToken else if c == 'f' then FalseToken else NullToken);
  }

  /** A slash that begins no comment takes the next character with it. */
  lemma WrongSlash(c: char, r: string)
    requires c != '*' && c != '/'
    ensures ReadToken("/" + [c] + r) == Token(ErrorToken, "/" + [c], r) && ReadToken("/") == Token(ErrorToken, "/", "")
  {
    var t := "/" + [c] + r;
    assert t[1..] == [c] + r && ([c] + r)[1..] == r;
    WrongTokenIs("/" + [c], r, Comment);
    assert "/" + "" == "/" && ("/" + "")[1..] == "";
    WrongTokenIs("/", "", Comment);
  }

  /** A comment that is not closed reaches to the end of the document. */
  lemma OpenComment(body: string)
    requires Unclosed(body)
    ensures ReadToken("/*" + body) == Token(ErrorToken, "/*" + body, "")
  {
    var t := "/*" + body;
    assert t + "" == t && t[1..][1..] == body;
    NeverClosed(body);
    WrongTokenIs(t, "", Comment);
  }

  lemma {:induction false} NeverClosed(body: string)
    requires Unclosed(body)
    ensures CStyleEnd(body) == (false, "")
  {
    if body != "" {
      assert !Closes(body + "*/", 0);
      forall i: nat | i < |body[1..]|
        ensures !Closes(body[1..] + "*/", i)
      {
        assert !Closes(body + "*/", i + 1);
      }
      NeverClosed(body[1..]);
    }
  }

  /** So does a string that is not closed. */
  lemma OpenString(ps: seq<Piece>)
    requires AllOk(ps)
    ensures ReadToken("\"" + Spelling(ps)) == Token(ErrorToken, "\"" + Spelling(ps), "")
  {
    hide Spelling;
    var t := "\"" + Spelling(ps);
    assert t + "" == t && t[1..] == Spelling(ps);
    NeverEnds(ps);
    WrongTokenIs(t, "", StringToken);
  }

  lemma {:induction false} NeverEnds(ps: seq<Piece>)
    requires AllOk(ps)
    ensures StringEnd(Spelling(ps)) == (false, "")
  {
    hide Piece.Spelling;
    if ps != [] {
      NeverEnds(ps[1..]);
      var front, tail := ps[0].Spelling(), Spelling(ps[1..]);
      if tail == "" { assert front + tail == front; AloneInside(ps[0]); } else { PieceIsInside(ps[0], tail); }
    }
  }

  lemma AloneInside(p: Piece)
    requires p.Ok()
    ensures StringEnd(p.Spelling()) == (false, "")
  {
    hide Hex;
    var s := p.Spelling();
    match p {
      case Plain(c) => assert s[1..] == "";
      case Short(letter, c) =>
      case Unicode(digits) =>
        assert s[2..] == digits + "";
        DigitsAreInside(digits, "");
    }
  }

  /** Any other character stands alone. */
  lemma WrongChar(c: char, r: string)
    requires !Digit(c) && c !in "\"/-tfn{}[],: \t\r\n"
    ensures ReadToken([c] + r) == Token(if c == NUL then EndOfStream else ErrorToken, [c], r)
  {
    hide Digit;
    NoStart(c);
    assert ([c] + r)[1..] == r;
    TokenIs([c], r, SingleToken(c));
  }

  lemma NoStart(c: char)
    requires !Digit(c) && c !in "\"/-tfn{}[],: \t\r\n"
    ensures !IsDigit(c) && !IsSpace(c) && c != '"' && c != '/' && c != '-' && c != 't' && c != 'f' && c != 'n'
    ensures c != '{' && c != '}' && c != '[' && c != ']' && c != ',' && c != ':'
  {
    hide Digit;
    DigitIs(c);
    var starts := "\"/-tfn{}[],: \t\r\n";
    assert starts[0] == '"' && starts[1] == '/' && starts[2] == '-' && starts[3] == 't' && starts[4] == 'f' && starts[5] == 'n';
    assert starts[6] == '{' && starts[7] == '}' && starts[8] == '[' && starts[9] == ']' && starts[10] == ',' && starts[11] == ':';
    assert starts[12] == ' ' && starts[13] == '\t' && starts[14] == '\r' && starts[15] == '\n';
  }
}
