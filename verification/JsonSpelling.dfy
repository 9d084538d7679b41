/**
 All the ways in which a document may spell a string, and what may stand between tokens: the grammar
 of JSON on one side, the functions of JsonReading on the other.
 */
module JsonSpelling {
  import opened Basics
  import opened CText
  import opened JsonReading
  import opened JsonRoundTrip
  import opened JsonText
  import opened JsonValue

  /** The escapes of one letter that JSON has (ECMA-404, section 9), each with its character. */
  predicate ShortEscape(letter: char, c: char) {
    || (letter in "\"\\/" && c == letter)
    || (letter == 'b' && c as int == 8)
    || (letter == 't' && c as int == 9)
    || (letter == 'n' && c as int == 10)
    || (letter == 'f' && c as int == 12)
    || (letter == 'r' && c as int == 13)
  }

  predicate Hex(c: char) { c in "0123456789abcdefABCDEF" }

  /** A piece of a string literal. */
  datatype Piece = Plain(c: char) | Short(letter: char, c: char) | Unicode(digits: string)
  {
    predicate Ok() {
      match this
      case Plain(c) => c != '"' && c != '\\'
      case Short(letter, c) => ShortEscape(letter, c)
      case Unicode(digits) => |digits| == 4 && forall i :: 0 <= i < 4 ==> Hex(digits[i])
    }

    function Spelling(): string {
      match this
      case Plain(c) => [c]
      case Short(letter, _) => ['\\', letter]
      case Unicode(digits) => "\\u" + digits
    }

    /** What the reader takes it for: an escape by code point is dropped. */
    function Meaning(): string {
      match this
      case Plain(c) => [c]
      case Short(_, c) => [c]
      case Unicode(_) => ""
    }
  }

  predicate AllOk(ps: seq<Piece>) {
    forall i :: 0 <= i < |ps| ==> ps[i].Ok()
  }

  function Spelling(ps: seq<Piece>): string {
    if ps == [] then "" else ps[0].Spelling() + Spelling(ps[1..])
  }

  function Meaning(ps: seq<Piece>): string {
    if ps == [] then "" else ps[0].Meaning() + Meaning(ps[1..])
  }

  // ----- decoding -----

  lemma HexIs(c: char)
    ensures Hex(c) <==> HexDigit(c)
  {
    var hex := "0123456789abcdefABCDEF";
    assert hex[0] == '0' && hex[1] == '1' && hex[2] == '2' && hex[3] == '3' && hex[4] == '4' && hex[5] == '5';
    assert hex[6] == '6' && hex[7] == '7' && hex[8] == '8' && hex[9] == '9';
    assert hex[10] == 'a' && hex[11] == 'b' && hex[12] == 'c' && hex[13] == 'd' && hex[14] == 'e' && hex[15] == 'f';
    assert hex[16] == 'A' && hex[17] == 'B' && hex[18] == 'C' && hex[19] == 'D' && hex[20] == 'E' && hex[21] == 'F';
  }

  lemma EscapeIs(letter: char, c: char)
    ensures EscapedChar(letter) == Some(c) <==> ShortEscape(letter, c)
    ensures ShortEscape(letter, c) ==> letter != 'u'
  {
    var marks := "\"\\/";
    assert marks[0] == '"' && marks[1] == '\\' && marks[2] == '/';
  }

  lemma PieceDecodes(p: Piece, tail: string)
    requires p.Ok()
    ensures Unescape(p.Spelling() + tail) == Prefixed(p.Meaning(), Unescape(tail))
  {
    hide Hex, HexDigit, EscapedChar, ShortEscape;
    var s := p.Spelling() + tail;
    assert s[|p.Spelling()|..] == tail;
    match p {
      case Plain(c) =>
      case Short(letter, c) => EscapeIs(letter, c);
      case Unicode(digits) => UnicodeDecodes(digits, tail);
    }
  }

  lemma UnicodeDecodes(digits: string, tail: string)
    requires Unicode(digits).Ok()
    ensures Unescape("\\u" + digits + tail) == Prefixed("", Unescape(tail))
  {
    hide Hex, HexDigit;
    var s := "\\u" + digits + tail;
    HexIs(digits[0]); HexIs(digits[1]); HexIs(digits[2]); HexIs(digits[3]);
    assert s[2] == digits[0] && s[3] == digits[1] && s[4] == digits[2] && s[5] == digits[3];
    assert s[6..] == tail;
  }

  /** A legal spelling in front of a text decodes to its meaning, whatever follows. */
  lemma {:induction false} SpellingDecodes(ps: seq<Piece>, tail: string)
    requires AllOk(ps)
    ensures Unescape(Spelling(ps) + tail) == Prefixed(Meaning(ps), Unescape(tail))
  {
    hide Unescape, Piece.Spelling, Piece.Meaning;
    if ps == [] {
      assert "" + tail == tail;
    } else {
      assert Spelling(ps) + tail == ps[0].Spelling() + (Spelling(ps[1..]) + tail);
      PieceDecodes(ps[0], Spelling(ps[1..]) + tail);
      SpellingDecodes(ps[1..], tail);
      PrefixedTwice(ps[0].Meaning(), Meaning(ps[1..]), Unescape(tail));
    }
  }

  lemma PrefixedTwice(a: string, b: string, u: Unescaped)
    ensures Prefixed(a, Prefixed(b, u)) == Prefixed(a + b, u)
  {
    if u.Good? { assert a + (b + u.s) == a + b + u.s; }
  }

  /** No piece of a literal starts the text. */
  ghost predicate NoPiece(s: string) {
    forall p: Piece :: p.Ok() ==> !(p.Spelling() <= s)
  }

  lemma ShortStarts(s: string)
    requires |s| >= 2 && s[0] == '\\' && EscapedChar(s[1]).Some?
    ensures !NoPiece(s)
  {
    EscapeIs(s[1], EscapedChar(s[1]).value);
    var p := Short(s[1], EscapedChar(s[1]).value);
    assert p.Ok() && p.Spelling() == s[..2];
  }

  lemma UnicodeStarts(s: string)
    requires |s| >= 6 && s[0] == '\\' && s[1] == 'u'
    requires HexDigit(s[2]) && HexDigit(s[3]) && HexDigit(s[4]) && HexDigit(s[5])
    ensures !NoPiece(s)
  {
    hide Hex, HexDigit, NoPiece;
    var p := Unicode(s[2..6]);
    HexIs(s[2]); HexIs(s[3]); HexIs(s[4]); HexIs(s[5]);
    assert p.Ok();
    assert p.Spelling() <= s by { UnicodeText(s); }
    StartsPiece(s, p);
  }

  lemma UnicodeText(s: string)
    requires |s| >= 6 && s[0] == '\\' && s[1] == 'u'
    ensures "\\u" + s[2..6] == s[..6] <= s
  {
  }

  lemma StartsPiece(s: string, p: Piece)
    requires p.Ok() && p.Spelling() <= s
    ensures !NoPiece(s)
  {
    hide Piece.Ok, Piece.Spelling;
  }

  /** What stops the decoder: the end, a bare quote, or the first piece that is none, with the error it gives. */
  lemma Stops(s: string)
    requires s == "" || s[0] == '"' || (s[0] == '\\' && NoPiece(s))
    ensures Unescape(s) ==
            if s == "" || s[0] == '"' then Good("")
            else if |s| == 1 then Bad(EmptyEscape)
            else if s[1] != 'u' then Bad(BadEscape)
            else if |s| < 6 then Bad(UnicodeDigitsExpected)
            else Bad(UnicodeHexExpected)
  {
    hide NoPiece, EscapedChar, HexDigit;
    if s != "" && s[0] == '\\' && |s| >= 2 {
      if s[1] != 'u' && EscapedChar(s[1]).Some? { ShortStarts(s); }
      if s[1] == 'u' && |s| >= 6 && HexDigit(s[2]) && HexDigit(s[3]) && HexDigit(s[4]) && HexDigit(s[5]) { UnicodeStarts(s); }
    }
  }

  /** Every text starts with a longest spelling; behind it the decoder stops. */
  lemma {:induction false} SplitsOff(s: string) returns (ps: seq<Piece>, tail: string)
    ensures AllOk(ps) && s == Spelling(ps) + tail
    ensures tail == "" || tail[0] == '"' || (tail[0] == '\\' && NoPiece(tail))
    decreases |s|
  {
    if s == "" || s[0] == '"' {
      ps, tail := [], s;
    } else if s[0] != '\\' {
      ps, tail := SplitsOff(s[1..]);
      ps := Joined(Plain(s[0]), ps, s, tail);
    } else if p: Piece :| p.Ok() && p.Spelling() <= s {
      ps, tail := SplitsOff(s[|p.Spelling()|..]);
      ps := Joined(p, ps, s, tail);
    } else {
      ps, tail := [], s;
    }
  }

  lemma Joined(p: Piece, ps: seq<Piece>, s: string, tail: string) returns (all: seq<Piece>)
    requires p.Ok() && AllOk(ps) && p.Spelling() <= s && s[|p.Spelling()|..] == Spelling(ps) + tail
    ensures AllOk(all) && s == Spelling(all) + tail
  {
    hide Piece.Ok, Piece.Spelling;
    all := [p] + ps;
    assert all[1..] == ps;
    var front := p.Spelling();
    assert s == front + s[|front|..];
    assert front + (Spelling(ps) + tail) == (front + Spelling(ps)) + tail;
  }

  /** `ps` is a legal spelling of `t`, and `s` is that up to its end or to a bare quote. */
  ghost predicate Spells(ps: seq<Piece>, tail: string, s: string, t: string) {
    AllOk(ps) && s == Spelling(ps) + tail && Meaning(ps) == t && (tail == "" || tail[0] == '"')
  }

  /** The decoder succeeds with `t` exactly on the legal spellings of `t`. */
  lemma DecodesIffSpelled(s: string, t: string)
    ensures Unescape(s) == Good(t) <==> exists ps: seq<Piece>, tail: string :: Spells(ps, tail, s, t)
  {
    hide Unescape, Spelling, Meaning, AllOk, NoPiece, Spells;
    if Unescape(s) == Good(t) {
      var ps, tail := Respells(s, t);
    }
    forall ps: seq<Piece>, tail: string | Spells(ps, tail, s, t)
      ensures Unescape(s) == Good(t)
    {
      SpelledDecodes(ps, tail, s, t);
    }
  }

  lemma Respells(s: string, t: string) returns (ps: seq<Piece>, tail: string)
    requires Unescape(s) == Good(t)
    ensures Spells(ps, tail, s, t)
  {
    hide Unescape, Spelling, Meaning, AllOk, NoPiece;
    ps, tail := SplitsOff(s);
    SpellingDecodes(ps, tail);
    Stops(tail);
    assert Meaning(ps) + "" == Meaning(ps);
  }

  lemma SpelledDecodes(ps: seq<Piece>, tail: string, s: string, t: string)
    requires Spells(ps, tail, s, t)
    ensures Unescape(s) == Good(t)
  {
    hide Unescape, Spelling, Meaning, AllOk, NoPiece;
    SpellingDecodes(ps, tail);
    Stops(tail);
    assert Meaning(ps) + "" == Meaning(ps);
  }

  // ----- the spelling that the writers use -----

  /** The characters that the writers escape. */
  predicate Special(c: char) { c == '"' || c == '\\' || c as int in {8, 9, 10, 12, 13} }

  lemma PieceWritten(c: char) returns (p: Piece)
    ensures p.Ok() && p.Spelling() == EscapeChar(c) && p.Meaning() == [c]
    ensures if Special(c) then p.Short? else p == Plain(c)
  {
    if Special(c) {
      p := Short(EscapeChar(c)[1], c);
      var marks := "\"\\/";
      assert marks[0] == '"' && marks[1] == '\\';
    } else {
      p := Plain(c);
    }
  }

  /** The writers spell a text character by character, and escape just the seven that need it. */
  lemma {:induction false} EscapeSpells(x: string) returns (ps: seq<Piece>)
    ensures AllOk(ps) && Spelling(ps) == Escape(x) && Meaning(ps) == x && |ps| == |x|
    ensures forall i :: 0 <= i < |x| ==> if Special(x[i]) then ps[i].Short? else ps[i] == Plain(x[i])
  {
    hide EscapeChar, Piece.Spelling, Piece.Meaning, Special;
    ps := [];
    if x != "" {
      var p := PieceWritten(x[0]);
      ps := EscapeSpells(x[1..]);
      ps := [p] + ps;
      assert ps[1..] == ps[1..|ps|];
      assert x == [x[0]] + x[1..];
    }
  }

  // ----- the literal in a document -----

  lemma PieceIsInside(p: Piece, tail: string)
    requires p.Ok() && tail != ""
    ensures StringEnd(p.Spelling() + tail) == StringEnd(tail)
  {
    hide Hex;
    var s := p.Spelling() + tail;
    assert s[|p.Spelling()|..] == tail;
    match p {
      case Plain(c) =>
      case Short(letter, c) =>
      case Unicode(digits) =>
        assert s[2..] == digits + tail;
        DigitsAreInside(digits, tail);
    }
  }

  lemma {:induction false} DigitsAreInside(digits: string, tail: string)
    requires forall i :: 0 <= i < |digits| ==> Hex(digits[i])
    ensures StringEnd(digits + tail) == StringEnd(tail)
  {
    hide Hex;
    if digits == "" {
      assert "" + tail == tail;
    } else {
      HexIs(digits[0]);
      assert (digits + tail)[1..] == digits[1..] + tail;
      DigitsAreInside(digits[1..], tail);
    }
  }

  /** The scan of a literal stops at its closing quote, however its text is spelled. */
  lemma {:induction false} SpellingEnds(ps: seq<Piece>, r: string)
    requires AllOk(ps)
    ensures StringEnd(Spelling(ps) + ("\"" + r)) == (true, r)
  {
    hide Piece.Spelling;
    if ps == [] {
      assert "" + ("\"" + r) == "\"" + r && ("\"" + r)[1..] == r;
    } else {
      var tail := Spelling(ps[1..]) + ("\"" + r);
      assert Spelling(ps) + ("\"" + r) == ps[0].Spelling() + tail;
      PieceIsInside(ps[0], tail);
      SpellingEnds(ps[1..], r);
    }
  }

  function Literal(ps: seq<Piece>): string { "\"" + Spelling(ps) + "\"" }

  /** A string in a document is read as its meaning, in every spelling. */
  lemma StringIsRead(ps: seq<Piece>, s: string, more: seq<string>, current: Value, scan: DoubleParser)
    requires AllOk(ps) && Layout(s, [Literal(ps)] + more)
    ensures var o := ReadValue(s, current, scan);
            o.ok && o.value == Str(Text(Cut(Meaning(ps)))) && o.errors == [] && Layout(o.rest, more)
  {
    hide Literal, Meaning, Layout, ReadPastComments, Unescape, Body, ReadMembers, ReadElements, AllOk;
    NameIsRead(ps, s, more);
  }

  /** The token of a literal, which may also be the name of a member. */
  lemma NameIsRead(ps: seq<Piece>, s: string, more: seq<string>)
    requires AllOk(ps) && Layout(s, [Literal(ps)] + more)
    ensures var tok := ReadPastComments(s);
            tok.kind == StringToken && Unescape(Body(tok.text)) == Good(Meaning(ps)) && Layout(tok.rest, more)
  {
    hide Spelling, Meaning;
    var tokens := [Literal(ps)] + more;
    assert tokens[1..] == more;
    var r := LayoutHead(s, tokens);
    var q := Literal(ps);
    assert (q + r)[1..] == Spelling(ps) + ("\"" + r);
    SpellingEnds(ps, r);
    assert (q + r)[..|q|] == q;
    assert Body(q) == Spelling(ps);
    SpellingDecodes(ps, "");
    assert Spelling(ps) + "" == Spelling(ps) && Meaning(ps) + "" == Meaning(ps);
  }

  // ----- between tokens -----

  const BLANKS := " \t\r\n"

  lemma BlankIs(c: char)
    ensures c in BLANKS <==> IsSpace(c)
  {
    assert BLANKS[0] == ' ' && BLANKS[1] == '\t' && BLANKS[2] == '\r' && BLANKS[3] == '\n';
  }

  /** Exactly the blanks in front of a text are skipped. */
  lemma {:induction false} SkipsBlanks(s: string) returns (w: string)
    ensures s == w + SkipSpaces(s) && forall i :: 0 <= i < |w| ==> w[i] in BLANKS
    ensures SkipSpaces(s) == "" || SkipSpaces(s)[0] !in BLANKS
  {
    w := "";
    if s != "" {
      BlankIs(s[0]);
      if IsSpace(s[0]) {
        w := SkipsBlanks(s[1..]);
        w := [s[0]] + w;
      }
    }
  }

  predicate Closes(s: string, i: nat) {
    i + 1 < |s| && s[i] == '*' && s[i + 1] == '/'
  }

  /** With an end mark behind `body`, that is the first one. */
  predicate Unclosed(body: string) {
    forall i: nat :: i < |body| ==> !Closes(body + "*/", i)
  }

  lemma {:induction false} CStyleEnds(body: string, r: string)
    requires Unclosed(body)
    ensures CStyleEnd(body + "*/" + r) == (true, r)
  {
    var s := body + "*/" + r;
    if body == "" {
      assert s[2..] == r;
    } else {
      assert s[1..] == body[1..] + "*/" + r;
      assert !Closes(body + "*/", 0);
      forall i: nat | i < |body[1..]|
        ensures !Closes(body[1..] + "*/", i)
      {
        assert !Closes(body + "*/", i + 1);
      }
      CStyleEnds(body[1..], r);
    }
  }

  lemma {:induction false} CppStyleEnds(line: string, c: char, r: string)
    requires '\r' !in line && '\n' !in line && (c == '\r' || c == '\n')
    ensures CppStyleEnd(line + [c] + r) == r
  {
    var s := line + [c] + r;
    if line == "" {
      assert s[1..] == r;
    } else {
      assert s[1..] == line[1..] + [c] + r;
      CppStyleEnds(line[1..], c, r);
    }
  }

  function CStyle(body: string): string { "/*" + body + "*/" }

  function CppStyle(line: string, c: char): string { "//" + line + [c] }

  /** In front of a value or a name comments are skipped. */
  lemma CommentIsSkipped(body: string, r: string)
    requires Unclosed(body)
    ensures ReadToken(CStyle(body) + r) == Token(Comment, CStyle(body), r)
    ensures ReadPastComments(CStyle(body) + r) == ReadPastComments(r)
  {
    var s := CStyle(body) + r;
    CStyleEnds(body, r);
    assert s[1..][1..] == body + "*/" + r;
    TokenIs(CStyle(body), r, Comment);
  }

  lemma LineIsSkipped(line: string, c: char, r: string)
    requires '\r' !in line && '\n' !in line && (c == '\r' || c == '\n')
    ensures ReadToken(CppStyle(line, c) + r) == Token(Comment, CppStyle(line, c), r)
    ensures ReadPastComments(CppStyle(line, c) + r) == ReadPastComments(r)
  {
    var s := CppStyle(line, c) + r;
    CppStyleEnds(line, c, r);
    assert s[1..][1..] == line + [c] + r;
    TokenIs(CppStyle(line, c), r, Comment);
  }

  /** A comment in front of a value changes nothing. */
  lemma CommentedValue(body: string, r: string, current: Value, scan: DoubleParser)
    requires Unclosed(body)
    ensures ReadValue(CStyle(body) + r, current, scan) == ReadValue(r, current, scan)
  {
    CommentIsSkipped(body, r);
  }

  /** A comment behind a member of an object changes nothing either. */
  lemma CommentedMember(child: Outcome, body: string, r: string, ms: Members, name: string, scan: DoubleParser)
    requires Unclosed(body) && child.ok && child.rest == CStyle(body) + r && ReadToken(r).kind in {ObjectEnd, ArraySeparator}
    ensures AfterMember(child, ms, name, scan) == AfterMember(child.(rest := r), ms, name, scan)
  {
    CommentIsSkipped(body, r);
    assert ReadPastComments(r) == ReadToken(r);
  }

  /** But behind an element of an array it is an error. */
  lemma CommentedElement(child: Outcome, body: string, r: string, elems: Members, index: nat, scan: DoubleParser)
    requires Unclosed(body) && child.ok && child.rest == CStyle(body) + r
    ensures var o := AfterElement(child, elems, index, scan); !o.ok && o.errors == child.errors + [MissingCommaOrBracket]
  {
    CommentIsSkipped(body, r);
  }

  lemma TokenIs(text: string, r: string, kind: TokenType)
    requires text != "" && !IsSpace(text[0]) && Scan(text[0], (text + r)[1..]) == (kind, (true, r))
    ensures ReadToken(text + r) == Token(kind, text, r)
  {
    hide Scan;
    var s := text + r;
    assert SkipSpaces(s) == s && s[0] == text[0] && s[..|s| - |r|] == text;
  }
}
