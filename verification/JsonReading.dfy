/**
 What the JSON reader does, as functions of the text that is still to be read.

 Comments are skipped, never attached to values.  The double parser (sscanf) is a
 parameter: it either recognises a token or does not.
 */
module JsonReading {
  import opened Basics
  import opened CText
  import opened JsonValue
  import opened JsonNumber
  import opened JsonText

  datatype TokenType =
    | EndOfStream | ObjectBegin | ObjectEnd | ArrayBegin | ArrayEnd | StringToken | NumberToken
    | TrueToken | FalseToken | NullToken | ArraySeparator | MemberSeparator | Comment | ErrorToken

  /** A token's type and text, and what is left to read after it. */
  datatype Token = Token(kind: TokenType, text: string, rest: string)

  datatype Error =
    | ValueExpected | MissingColon | MissingCommaOrBrace | MissingBraceOrName | MissingCommaOrBracket
    | NumberError | EmptyEscape | BadEscape | UnicodeDigitsExpected | UnicodeHexExpected

  // ----- tokens -----

  /** After an opening quote: whether the string ends, and the text after its closing quote. */
  function StringEnd(s: string): (r: (bool, string))
    ensures |r.1| <= |s|
  {
    if s == "" then (false, "")
    else if s[0] == '\\' then if |s| == 1 then (false, "") else if |s| == 2 then (false, "") else StringEnd(s[2..])
    else if s[0] == '"' then (true, s[1..])
    else StringEnd(s[1..])
  }

  predicate NumberChar(c: char) { IsDigit(c) || DoubleChar(c) || c == '-' }

  function NumberEnd(s: string): (r: string)
    ensures |r| <= |s|
  {
    if s != "" && NumberChar(s[0]) then NumberEnd(s[1..]) else s
  }

  function CStyleEnd(s: string): (r: (bool, string))
    ensures |r.1| <= |s|
  {
    if s == "" then (false, "")
    else if s[0] == '*' && |s| > 1 && s[1] == '/' then (true, s[2..])
    else CStyleEnd(s[1..])
  }

  function CppStyleEnd(s: string): (r: string)
    ensures |r| <= |s|
  {
    if s == "" then "" else if s[0] == '\r' || s[0] == '\n' then s[1..] else CppStyleEnd(s[1..])
  }

  /** After a slash: whether a comment follows, and the text after it. */
  function CommentEnd(s: string): (r: (bool, string))
    ensures |r.1| <= |s|
  {
    if s == "" then (false, "")
    else if s[0] == '*' then CStyleEnd(s[1..])
    else if s[0] == '/' then (true, CppStyleEnd(s[1..]))
    else (false, s[1..])
  }

  /** Reader::match: the pattern is consumed only when all of it is there. */
  function MatchEnd(s: string, pattern: string): (r: (bool, string))
    ensures |r.1| <= |s|
  {
    if pattern <= s then (true, s[|pattern|..]) else (false, s)
  }

  function TokenOf(kind: TokenType, end: (bool, string), t: string): (tok: Token)
    requires |end.1| <= |t|
    ensures tok.rest == end.1
  {
    Token(if end.0 then kind else ErrorToken, t[..|t| - |end.1|], end.1)
  }

  /** The type of a token that is one character. */
  function SingleToken(c: char): TokenType {
    match c
    case '{' => ObjectBegin
    case '}' => ObjectEnd
    case '[' => ArrayBegin
    case ']' => ArrayEnd
    case ',' => ArraySeparator
    case ':' => MemberSeparator
    case _ => if c == NUL then EndOfStream else ErrorToken
  }

  /** A token that starts with `c` followed by `u`: its type if all of it is there, and what is left. */
  function Scan(c: char, u: string): (r: (TokenType, (bool, string)))
    ensures |r.1.1| <= |u|
  {
    if c == '"' then (StringToken, StringEnd(u))
    else if c == '/' then (Comment, CommentEnd(u))
    else if IsDigit(c) || c == '-' then (NumberToken, (true, NumberEnd(u)))
    else if c == 't' then (TrueToken, MatchEnd(u, "rue"))
    else if c == 'f' then (FalseToken, MatchEnd(u, "alse"))
    else if c == 'n' then (NullToken, MatchEnd(u, "ull"))
    else (SingleToken(c), (true, u))
  }

  function ReadToken(s: string): (tok: Token)
    ensures |tok.rest| <= |s|
    ensures tok.kind != EndOfStream ==> |tok.rest| < |s|
    ensures tok.text != "" <==> SkipSpaces(s) != ""
  {
    var t := SkipSpaces(s);
    if t == "" then Token(EndOfStream, "", "")
    else var (kind, end) := Scan(t[0], t[1..]); TokenOf(kind, end, t)
  }

  /** The next token that is no comment. */
  function ReadPastComments(s: string): (tok: Token)
    ensures |tok.rest| <= |s|
    ensures tok.kind != EndOfStream ==> |tok.rest| < |s|
    ensures tok.kind != Comment
    ensures tok.kind == NumberToken || tok.kind == StringToken ==> tok.text != ""
    decreases |s|
  {
    var tok := ReadToken(s);
    if tok.kind == Comment then ReadPastComments(tok.rest) else tok
  }

  /** What is left after skipping to the next token of the given type or to the end. */
  function Recover(s: string, kind: TokenType): (r: string)
    ensures |r| <= |s|
    decreases |s|
  {
    var tok := ReadToken(s);
    if tok.kind == kind || tok.kind == EndOfStream then tok.rest else Recover(tok.rest, kind)
  }

  // ----- decoding strings -----

  datatype Unescaped = Bad(e: Error) | Good(s: string)

  predicate HexDigit(c: char) { IsDigit(c) || 'a' <= c <= 'f' || 'A' <= c <= 'F' }

  /** decodeString on the characters between the quotes; a \u escape adds nothing. */
  function Unescape(s: string): Unescaped {
    if s == "" || s[0] == '"' then Good("")
    else if s[0] != '\\' then Prepend(s[0], Unescape(s[1..]))
    else if |s| == 1 then Bad(EmptyEscape)
    else if s[1] == 'u' then
      if |s| < 6 then Bad(UnicodeDigitsExpected)
      else if HexDigit(s[2]) && HexDigit(s[3]) && HexDigit(s[4]) && HexDigit(s[5]) then Unescape(s[6..])
      else Bad(UnicodeHexExpected)
    else match EscapedChar(s[1])
      case Some(c) => Prepend(c, Unescape(s[2..]))
      case None => Bad(BadEscape)
  }

  /** The character that a one-letter escape stands for. */
  function EscapedChar(c: char): Option<char> {
    match c
    case '"' => Some('"')
    case '/' => Some('/')
    case '\\' => Some('\\')
    case 'b' => Some(BACKSPACE)
    case 'f' => Some(FORMFEED)
    case 'n' => Some('\n')
    case 'r' => Some('\r')
    case 't' => Some('\t')
    case _ => None
  }

  function Prepend(c: char, u: Unescaped): Unescaped {
    if u.Bad? then u else Good([c] + u.s)
  }

  /** `u` with the characters `decoded` in front. */
  function Prefixed(decoded: string, u: Unescaped): Unescaped {
    if u.Bad? then u else Good(decoded + u.s)
  }

  /** The characters between the quotes of a string token. */
  function Body(token: string): string {
    if |token| < 2 then "" else token[1..|token| - 1]
  }

  // ----- maps -----

  function Lookup(ms: Members, k: Key): Option<Value> {
    if ms.End? then None else if ms.key == k then Some(ms.value) else Lookup(ms.rest, k)
  }

  /** Assigns to an existing key or inserts a new one in key order. */
  function Put(ms: Members, k: Key, v: Value): Members {
    if ms.End? || KeyLess(k, ms.key) then Member(k, v, ms)
    else if ms.key == k then Member(k, v, ms.rest)
    else Member(ms.key, ms.value, Put(ms.rest, k, v))
  }

  function Child(ms: Members, k: Key): Value {
    match Lookup(ms, k) case Some(v) => v case None => Null
  }

  // ----- values -----

  /** The outcome of reading a value into `value`: success, what is left and the errors added. */
  datatype Outcome = Outcome(ok: bool, value: Value, rest: string, errors: seq<Error>)

  type DoubleParser = string -> Option<real>

  function NumberOutcome(tok: Token, current: Value, scan: DoubleParser): (o: Outcome)
    requires tok.text != ""
    ensures o.rest == tok.rest
  {
    match Decode(tok.text)
    case Integer(v) => Outcome(true, v, tok.rest, [])
    case NotANumber => Outcome(false, current, tok.rest, [NumberError])
    case AsDouble =>
      match scan(tok.text)
      case Some(r) => Outcome(true, Real(r), tok.rest, [])
      case None => Outcome(false, current, tok.rest, [NumberError])
  }

  function StringOutcome(tok: Token, current: Value): (o: Outcome)
    ensures o.rest == tok.rest
  {
    match Unescape(Body(tok.text))
    case Bad(e) => Outcome(false, current, tok.rest, [e])
    case Good(s) => Outcome(true, Str(Text(Cut(s))), tok.rest, [])
  }

  /** A keyword, or a token that starts no value. */
  function KeywordOutcome(tok: Token, current: Value): (o: Outcome)
    ensures o.rest == tok.rest
  {
    if tok.kind == TrueToken then Outcome(true, Bool(true), tok.rest, [])
    else if tok.kind == FalseToken then Outcome(true, Bool(false), tok.rest, [])
    else if tok.kind == NullToken then Outcome(true, Null, tok.rest, [])
    else Outcome(false, current, tok.rest, [ValueExpected])
  }

  /** Reader::readValue on the text `s`, assigning over the value `current`. */
  function ReadValue(s: string, current: Value, scan: DoubleParser): (o: Outcome)
    ensures |o.rest| <= |s| && (o.ok ==> |o.rest| < |s|)
    decreases |s|, 0
  {
    var tok := ReadPastComments(s);
    if tok.kind == ObjectBegin then ReadMembers(tok.rest, End, "", scan)
    else if tok.kind == ArrayBegin then
      var t := SkipSpaces(tok.rest);
      if t != "" && t[0] == ']' then Outcome(true, Arr(End), t[1..], [])
      else ReadElements(t, End, 0, scan)
    else if tok.kind == NumberToken then NumberOutcome(tok, current, scan)
    else if tok.kind == StringToken then StringOutcome(tok, current)
    else KeywordOutcome(tok, current)
  }

  /** The loop of readArray, before the element at `index`. */
  function ReadElements(s: string, elems: Members, index: nat, scan: DoubleParser): (o: Outcome)
    ensures |o.rest| <= |s| && (o.ok ==> |o.rest| < |s|)
    decreases |s|, 2
  {
    var child := ReadValue(s, Child(elems, Index(index)), scan);
    AfterElement(child, Put(elems, Index(index), child.value), index, scan)
  }

  /** The loop of readArray, after the element at `index` has been read into `elems`. */
  function AfterElement(child: Outcome, elems: Members, index: nat, scan: DoubleParser): (o: Outcome)
    ensures |o.rest| <= |child.rest| && (o.ok ==> child.ok)
    decreases |child.rest|, 1
  {
    if !child.ok then Outcome(false, Arr(elems), Recover(child.rest, ArrayEnd), child.errors)
    else
      var tok := ReadToken(child.rest);
      if tok.kind == ArrayEnd then Outcome(true, Arr(elems), tok.rest, child.errors)
      else if tok.kind == ArraySeparator then
        var more := ReadElements(tok.rest, elems, index + 1, scan);
        more.(errors := child.errors + more.errors)
      else Outcome(false, Arr(elems), Recover(tok.rest, ArrayEnd), child.errors + [MissingCommaOrBracket])
  }

  /** The loop of readObject, before a member; `name` is the name of the member before. */
  function ReadMembers(s: string, ms: Members, name: string, scan: DoubleParser): (o: Outcome)
    ensures |o.rest| <= |s| && (o.ok ==> |o.rest| < |s|)
    decreases |s|, 2
  {
    var tokName := ReadPastComments(s);
    if tokName.kind == ObjectEnd && name == "" then Outcome(true, Obj(ms), tokName.rest, [])
    else if tokName.kind != StringToken then
      Outcome(false, Obj(ms), Recover(tokName.rest, ObjectEnd), [MissingBraceOrName])
    else match Unescape(Body(tokName.text))
      case Bad(e) => Outcome(false, Obj(ms), Recover(tokName.rest, ObjectEnd), [e])
      case Good(name') =>
        var colon := ReadToken(tokName.rest);
        if colon.kind != MemberSeparator then
          Outcome(false, Obj(ms), Recover(colon.rest, ObjectEnd), [MissingColon])
        else
          var key := Name(Cut(name'));
          var child := ReadValue(colon.rest, Child(ms, key), scan);
          AfterMember(child, Put(ms, key, child.value), name', scan)
  }

  /** The loop of readObject, after the member called `name` has been read into `ms`. */
  function AfterMember(child: Outcome, ms: Members, name: string, scan: DoubleParser): (o: Outcome)
    ensures |o.rest| <= |child.rest| && (o.ok ==> child.ok)
    decreases |child.rest|, 1
  {
    if !child.ok then Outcome(false, Obj(ms), Recover(child.rest, ObjectEnd), child.errors)
    else
      var comma := ReadToken(child.rest);
      if comma.kind != ObjectEnd && comma.kind != ArraySeparator && comma.kind != Comment then
        Outcome(false, Obj(ms), Recover(comma.rest, ObjectEnd), child.errors + [MissingCommaOrBrace])
      else
        var comma' := if comma.kind == Comment then ReadPastComments(comma.rest) else comma;
        if comma'.kind == ObjectEnd then Outcome(true, Obj(ms), comma'.rest, child.errors)
        else
          var more := ReadMembers(comma'.rest, ms, name, scan);
          more.(errors := child.errors + more.errors)
  }

  /** Reader::parse: a document is read up to its first value; what follows is not looked at. */
  function Parse(document: string, root: Value, scan: DoubleParser): Outcome {
    var o := ReadValue(document, root, scan);
    o.(rest := ReadPastComments(o.rest).rest)
  }
}
