/**
 JSON text, independent of any writer or reader: the tokens of a value, what it means for
 a text to lay those tokens out with white space between them, and white space removal.
 */
module JsonText {
  import opened CText
  import opened JsonValue
  import opened JsonNumber

  const BACKSPACE: char := 8 as char
  const FORMFEED: char := 12 as char

  predicate IsSpace(c: char) { c == ' ' || c == '\t' || c == '\r' || c == '\n' }

  function SkipSpaces(s: string): (t: string)
    ensures |t| <= |s| && (t == "" || !IsSpace(t[0]))
  {
    if s != "" && IsSpace(s[0]) then SkipSpaces(s[1..]) else s
  }

  predicate AllSpace(s: string) { forall i :: 0 <= i < |s| ==> IsSpace(s[i]) }

  lemma {:induction false} SkipAllSpace(a: string, b: string)
    requires AllSpace(a)
    ensures SkipSpaces(a + b) == SkipSpaces(b)
  {
    if a == "" {
      assert a + b == b;
    } else {
      assert (a + b)[1..] == a[1..] + b;
      SkipAllSpace(a[1..], b);
    }
  }

  // ----- quoted strings -----

  function EscapeChar(c: char): string {
    if c == '"' then "\\\""
    else if c == '\\' then "\\\\"
    else if c == BACKSPACE then "\\b"
    else if c == FORMFEED then "\\f"
    else if c == '\n' then "\\n"
    else if c == '\r' then "\\r"
    else if c == '\t' then "\\t"
    else [c]
  }

  function Escape(s: string): string {
    if s == "" then "" else EscapeChar(s[0]) + Escape(s[1..])
  }

  function Quote(s: string): string { "\"" + Escape(s) + "\"" }

  lemma {:induction false} EscapeConcat(a: string, b: string)
    ensures Escape(a + b) == Escape(a) + Escape(b)
  {
    if a == "" {
      assert a + b == b;
    } else {
      assert (a + b)[1..] == a[1..] + b;
      EscapeConcat(a[1..], b);
    }
  }

  // ----- the tokens of a value -----

  /** The members of a dense array are numbered from `i` on. */
  predicate Dense(ms: Members, i: nat) {
    ms.End? || (ms.key == Index(i) && Dense(ms.rest, i + 1))
  }

  /** The values both writers can print: no doubles, no null C strings, no gaps in arrays. */
  predicate Writable(v: Value) {
    match v
    case Null => true
    case Bool(_) => true
    case Int(i) => -MAX_INT - 1 <= i <= MAX_INT
    case UInt(i) => 0 <= i <= MAX_UINT
    case Long(i) => -MAX_LONG - 1 <= i <= MAX_LONG
    case ULong(i) => 0 <= i <= MAX_ULONG
    case Real(_) => false
    case Str(c) => c.Text? && NulFree(c.s)
    case Arr(ms) => Dense(ms, 0) && AllWritable(ms)
    case Obj(ms) => NamesAscend(ms) && AllWritable(ms)
  }

  predicate AllWritable(ms: Members) {
    ms.End? || (Writable(ms.value) && AllWritable(ms.rest))
  }

  /** The text of a value that is a single token. */
  function Scalar(v: Value): string
    requires !v.Arr? && !v.Obj? && !v.Real? && (v.Str? ==> v.c.Text?)
  {
    match v
    case Null => "null"
    case Bool(b) => if b then "true" else "false"
    case Int(i) => Decimal(i)
    case UInt(i) => Decimal(i)
    case Long(i) => Decimal(i)
    case ULong(i) => Decimal(i)
    case Str(c) => Quote(c.s)
  }

  /** The tokens of `v`, followed by the tokens `more`. */
  function Tokens(v: Value, more: seq<string>): seq<string>
    requires Writable(v)
  {
    match v
    case Arr(ms) => ["["] + ElementTokens(ms, true, ["]"] + more)
    case Obj(ms) => ["{"] + MemberTokens(ms, true, ["}"] + more)
    case _ => [Scalar(v)] + more
  }

  function ElementTokens(ms: Members, first: bool, more: seq<string>): seq<string>
    requires AllWritable(ms)
  {
    if ms.End? then more
    else (if first then [] else [","]) + Tokens(ms.value, ElementTokens(ms.rest, false, more))
  }

  function MemberTokens(ms: Members, first: bool, more: seq<string>): seq<string>
    requires AllWritable(ms) && NamesAscend(ms)
  {
    if ms.End? then more
    else (if first then [] else [","]) + [Quote(ms.key.name), ":"] + Tokens(ms.value, MemberTokens(ms.rest, false, more))
  }

  // ----- layouts -----

  /** `s` is the given tokens with any amount of white space before, between and after them. */
  predicate Layout(s: string, tokens: seq<string>)
    decreases tokens
  {
    var t := SkipSpaces(s);
    if tokens == [] then t == ""
    else tokens[0] <= t && Layout(t[|tokens[0]|..], tokens[1..])
  }

  /** Whatever layout follows it, `text` is a layout of the tokens of `v`. */
  ghost predicate Renders(text: string, v: Value)
    requires Writable(v)
  {
    forall r, more :: Layout(r, more) ==> Layout(text + r, Tokens(v, more))
  }

  lemma LayoutAfterSpace(a: string, s: string, tokens: seq<string>)
    requires AllSpace(a)
    ensures Layout(a + s, tokens) <==> Layout(s, tokens)
  {
    SkipAllSpace(a, s);
  }

  lemma LayoutToken(token: string, s: string, tokens: seq<string>)
    requires token != "" && !IsSpace(token[0]) && Layout(s, tokens)
    ensures Layout(token + s, [token] + tokens)
  {
    assert SkipSpaces(token + s) == token + s;
    assert (token + s)[|token|..] == s;
    assert ([token] + tokens)[1..] == tokens;
  }

  lemma ScalarStart(v: Value)
    requires Writable(v) && !v.Arr? && !v.Obj?
    ensures Scalar(v) != "" && !IsSpace(Scalar(v)[0])
  {
    match v {
      case Int(i) => DecimalIsPlain(i);
      case UInt(i) => DecimalIsPlain(i);
      case Long(i) => DecimalIsPlain(i);
      case ULong(i) => DecimalIsPlain(i);
      case _ =>
    }
  }

  // ----- removing white space outside string literals -----

  datatype Mode = Outside | Inside | Escaped

  function Next(c: char, mode: Mode): Mode {
    match mode
    case Outside => if c == '"' then Inside else Outside
    case Inside => if c == '\\' then Escaped else if c == '"' then Outside else Inside
    case Escaped => Inside
  }

  function Compact(s: string, mode: Mode): string {
    if s == "" then ""
    else (if mode == Outside && IsSpace(s[0]) then "" else [s[0]]) + Compact(s[1..], Next(s[0], mode))
  }

  function Concat(tokens: seq<string>): string {
    if tokens == [] then "" else tokens[0] + Concat(tokens[1..])
  }

  /** White space removal passes over `token` and is outside string literals again after it. */
  ghost predicate Atomic(token: string) {
    token != "" && !IsSpace(token[0]) && forall r :: Compact(token + r, Outside) == token + Compact(r, Outside)
  }

  ghost predicate AllAtomic(tokens: seq<string>) {
    forall i :: 0 <= i < |tokens| ==> Atomic(tokens[i])
  }

  lemma {:induction false} PlainCompact(token: string, r: string)
    requires forall i :: 0 <= i < |token| ==> !IsSpace(token[i]) && token[i] != '"'
    ensures Compact(token + r, Outside) == token + Compact(r, Outside)
  {
    if token == "" {
      assert token + r == r;
    } else {
      assert (token + r)[1..] == token[1..] + r;
      PlainCompact(token[1..], r);
    }
  }

  lemma PlainAtomic(token: string)
    requires token != "" && forall i :: 0 <= i < |token| ==> !IsSpace(token[i]) && token[i] != '"'
    ensures Atomic(token)
  {
    forall r { PlainCompact(token, r); }
  }

  lemma EscapedCompact(c: char, r: string)
    ensures Compact(EscapeChar(c) + r, Inside) == EscapeChar(c) + Compact(r, Inside)
  {
    var e := EscapeChar(c);
    assert (e + r)[1..] == e[1..] + r;
    if |e| == 2 {
      assert (e[1..] + r)[1..] == r;
      assert Compact(e[1..] + r, Escaped) == [e[1]] + Compact(r, Inside);
    } else {
      assert e[1..] + r == r;
    }
  }

  lemma {:induction false} EscapeCompact(s: string, r: string)
    ensures Compact(Escape(s) + ("\"" + r), Inside) == Escape(s) + "\"" + Compact(r, Outside)
  {
    if s == "" {
      assert Escape(s) + ("\"" + r) == "\"" + r;
      assert ("\"" + r)[1..] == r;
    } else {
      hide Compact, EscapeChar;
      var tail, after := Escape(s[1..]) + ("\"" + r), Compact(r, Outside);
      assert Escape(s) + ("\"" + r) == EscapeChar(s[0]) + tail;
      EscapedCompact(s[0], tail);
      EscapeCompact(s[1..], r);
      assert Escape(s) + "\"" + after == EscapeChar(s[0]) + (Escape(s[1..]) + "\"" + after);
    }
  }

  lemma QuoteAtomic(s: string)
    ensures Atomic(Quote(s))
  {
    hide Escape;
    forall r
      ensures Compact(Quote(s) + r, Outside) == Quote(s) + Compact(r, Outside)
    {
      assert (Quote(s) + r)[1..] == Escape(s) + ("\"" + r);
      EscapeCompact(s, r);
    }
  }

  lemma DecimalAtomic(i: int)
    ensures Atomic(Decimal(i))
  {
    PlainAtomic(Decimal(i));
  }

  lemma ScalarAtomic(v: Value)
    requires Writable(v) && !v.Arr? && !v.Obj?
    ensures Atomic(Scalar(v))
  {
    if v.Str? {
      QuoteAtomic(v.c.s);
    } else if v.Null? || v.Bool? {
      PlainAtomic(Scalar(v));
    } else {
      DecimalAtomic(v.i);
    }
  }

  lemma {:induction false} TokensAtomic(v: Value, more: seq<string>)
    requires Writable(v) && AllAtomic(more)
    ensures AllAtomic(Tokens(v, more))
    decreases v
  {
    PlainAtomic("["); PlainAtomic("]"); PlainAtomic("{"); PlainAtomic("}");
    match v {
      case Arr(ms) => ElementsAtomic(ms, true, ["]"] + more);
      case Obj(ms) => MembersAtomic(ms, true, ["}"] + more);
      case _ => ScalarAtomic(v);
    }
  }

  lemma {:induction false} ElementsAtomic(ms: Members, first: bool, more: seq<string>)
    requires AllWritable(ms) && AllAtomic(more)
    ensures AllAtomic(ElementTokens(ms, first, more))
    decreases ms
  {
    if ms.Member? {
      PlainAtomic(",");
      ElementsAtomic(ms.rest, false, more);
      TokensAtomic(ms.value, ElementTokens(ms.rest, false, more));
    }
  }

  lemma {:induction false} MembersAtomic(ms: Members, first: bool, more: seq<string>)
    requires AllWritable(ms) && NamesAscend(ms) && AllAtomic(more)
    ensures AllAtomic(MemberTokens(ms, first, more))
    decreases ms
  {
    if ms.Member? {
      PlainAtomic(","); PlainAtomic(":");
      QuoteAtomic(ms.key.name);
      MembersAtomic(ms.rest, false, more);
      TokensAtomic(ms.value, MemberTokens(ms.rest, false, more));
    }
  }

  lemma {:induction false} CompactSkips(s: string)
    ensures Compact(s, Outside) == Compact(SkipSpaces(s), Outside)
  {
    if s != "" && IsSpace(s[0]) { CompactSkips(s[1..]); }
  }

  /** Without its white space, a layout is its tokens run together. */
  lemma {:induction false} CompactLayout(s: string, tokens: seq<string>)
    requires Layout(s, tokens) && AllAtomic(tokens)
    ensures Compact(s, Outside) == Concat(tokens)
    decreases tokens
  {
    var t := SkipSpaces(s);
    CompactSkips(s);
    if tokens != [] {
      var rest := t[|tokens[0]|..];
      assert t == tokens[0] + rest;
      assert Atomic(tokens[0]);
      CompactLayout(rest, tokens[1..]);
    }
  }

  /** Any two renderings of a value are the same text up to white space outside string literals. */
  lemma RenderingsAgree(a: string, b: string, v: Value)
    requires Writable(v) && Renders(a, v) && Renders(b, v)
    ensures Compact(a, Outside) == Compact(b, Outside) == Concat(Tokens(v, []))
  {
    TokensAtomic(v, []);
    assert Layout("", []);
    assert a + "" == a && b + "" == b;
    assert Layout(a + "", Tokens(v, [])) && Layout(b + "", Tokens(v, []));
    CompactLayout(a, Tokens(v, []));
    CompactLayout(b, Tokens(v, []));
  }
}
