/**
 What the multipart/form-data parser does, as functions of the window of bytes that is
 buffered, and what a well-formed body is.
 */
module Multipart {
  import opened Basics
  import opened CText

  const CRLF := "\r\n"
  const DISPOSITION := "Content-Disposition:"
  const FORM_DATA := "form-data;"
  const FORM_NAME := "name="
  const FORM_FILENAME := "filename="

  /** How many buffered bytes an unfinished part holds back. */
  const MARGIN := 128

  // ----- delimiters -----

  predicate OccursAt(b: string, s: string, i: nat) {
    i + |b| <= |s| && s[i..i + |b|] == b
  }

  /** The first occurrence of `b` in `s`. */
  function First(b: string, s: string): (r: Option<nat>)
    ensures r.Some? ==> r.value + |b| <= |s|
  {
    if b <= s then Some(0)
    else if s == "" then None
    else
      var r := First(b, s[1..]);
      if r.Some? then Some(r.value + 1) else None
  }

  lemma OccursLater(b: string, s: string, i: nat)
    requires 0 < i && s != ""
    ensures OccursAt(b, s, i) <==> OccursAt(b, s[1..], i - 1)
  {
    if i + |b| <= |s| { assert s[i..i + |b|] == s[1..][i - 1..i - 1 + |b|]; }
  }

  lemma {:induction false} FirstOccurs(b: string, s: string)
    requires First(b, s).Some?
    ensures OccursAt(b, s, First(b, s).value)
  {
    if !(b <= s) {
      FirstOccurs(b, s[1..]);
      OccursLater(b, s, First(b, s).value);
    }
  }

  lemma {:induction false} NoneBefore(b: string, s: string, i: nat)
    requires First(b, s).Some? ==> i < First(b, s).value
    ensures !OccursAt(b, s, i)
  {
    if !(b <= s) && s != "" && i > 0 {
      NoneBefore(b, s[1..], i - 1);
      OccursLater(b, s, i);
    }
  }

  /** First finds an occurrence when there is one, and no later one. */
  lemma FirstSound(b: string, s: string)
    ensures First(b, s).Some? ==>
            OccursAt(b, s, First(b, s).value) && forall i: nat :: i < First(b, s).value ==> !OccursAt(b, s, i)
    ensures First(b, s).None? ==> forall i: nat :: !OccursAt(b, s, i)
  {
    if First(b, s).Some? { FirstOccurs(b, s); }
    forall i: nat | First(b, s).Some? ==> i < First(b, s).value
      ensures !OccursAt(b, s, i)
    {
      NoneBefore(b, s, i);
    }
  }

  lemma FirstIs(b: string, s: string, d: nat)
    requires OccursAt(b, s, d) && forall i: nat :: i < d ==> !OccursAt(b, s, i)
    ensures First(b, s) == Some(d)
  {
    FirstSound(b, s);
  }

  lemma OccursShift(b: string, a: string, s: string, i: nat)
    ensures OccursAt(b, a + s, |a| + i) <==> OccursAt(b, s, i)
  {
    if i + |b| <= |s| { assert (a + s)[|a| + i..|a| + i + |b|] == s[i..i + |b|]; }
  }

  lemma OccursExtend(b: string, s: string, t: string, i: nat)
    ensures OccursAt(b, s, i) ==> OccursAt(b, s + t, i)
    ensures OccursAt(b, s + t, i) && i + |b| <= |s| ==> OccursAt(b, s, i)
  {
    if i + |b| <= |s| { assert (s + t)[i..i + |b|] == s[i..i + |b|]; }
  }

  /** A delimiter that the window does not show completely starts near its end. */
  lemma NotInWindow(b: string, window: string, rest: string, d: nat)
    requires First(b, window).None? && First(b, window + rest) == Some(d)
    ensures d + |b| > |window|
  {
    FirstSound(b, window);
    FirstSound(b, window + rest);
    OccursExtend(b, window, rest, d);
  }

  lemma InWindow(b: string, window: string, rest: string)
    requires First(b, window).Some?
    ensures First(b, window + rest) == First(b, window)
  {
    var d := First(b, window).value;
    FirstSound(b, window);
    OccursExtend(b, window, rest, d);
    forall i: nat | i < d
      ensures !OccursAt(b, window + rest, i)
    {
      OccursExtend(b, window, rest, i);
    }
    FirstIs(b, window + rest, d);
  }

  /** Dropping bytes in front of the first delimiter moves it by as many. */
  lemma FirstDrop(b: string, s: string, n: nat)
    requires First(b, s).Some? && n <= First(b, s).value
    ensures First(b, s[n..]) == Some(First(b, s).value - n)
  {
    var d := First(b, s).value;
    FirstSound(b, s);
    assert s == s[..n] + s[n..];
    OccursShift(b, s[..n], s[n..], d - n);
    forall i: nat | i < d - n
      ensures !OccursAt(b, s[n..], i)
    {
      OccursShift(b, s[..n], s[n..], i);
    }
    FirstIs(b, s[n..], d - n);
  }

  // ----- lines -----

  function Upto(s: string, stop: char): (t: string)
    ensures |t| <= |s|
  {
    if s == "" || s[0] == stop then "" else [s[0]] + Upto(s[1..], stop)
  }

  /** Control characters in front of a line are dropped. */
  function SkipJunk(s: string): (t: string)
    ensures |t| <= |s|
  {
    if s != "" && s[0] < ' ' then SkipJunk(s[1..]) else s
  }

  /** readString on a line that is not empty. */
  function ReadText(t: string): (r: Option<(string, string)>)
    ensures r.Some? ==> |r.value.1| + 2 <= |t|
  {
    var line := Upto(t, '\r');
    if |line| + 2 <= |t| then Some((Cut(line), t[|line| + 2..])) else None
  }

  /** readString: the next line and what follows it; None when its end is not buffered. */
  function ReadLine(w: string): (r: Option<(string, string)>)
    ensures r.Some? ==> |r.value.1| + 2 <= |w|
  {
    if CRLF <= w then Some(("", w[2..])) else ReadText(SkipJunk(w))
  }

  // ----- the Content-Disposition line -----

  datatype Header = Field(name: string) | File(name: string, filename: string)

  datatype Failure =
    | BoundaryNotFound | OutOfSync | NoFormData | NoFormName
    | Unbuffered  // the header block is not wholly in the window
    | NegativeRead  // max_read below zero

  datatype Disposition = Good(header: Header) | Bad(failure: Failure)

  function ToLower(c: char): char {
    if 'A' <= c <= 'Z' then (c as int + 32) as char else c
  }

  predicate SameNoCase(a: string, b: string) {
    |a| == |b| && forall i :: 0 <= i < |a| ==> ToLower(a[i]) == ToLower(b[i])
  }

  predicate HasPrefix(s: string, p: string) {
    |p| <= |s| && SameNoCase(s[..|p|], p)
  }

  predicate IsAlpha(c: char) { 'a' <= c <= 'z' || 'A' <= c <= 'Z' }

  function SkipToAlpha(s: string): (t: string)
    ensures |t| <= |s|
  {
    if s != "" && !IsAlpha(s[0]) then SkipToAlpha(s[1..]) else s
  }

  function EatQuote(s: string): string {
    if s != "" && s[0] == '"' then s[1..] else s
  }

  /** getFileName: what follows the last backslash. */
  function BaseName(s: string): string {
    var dir := Upto(s, '\\');
    if |dir| < |s| then BaseName(s[|dir| + 1..]) else s
  }

  /** The name of a field, and what follows it, from the text after `name=`. */
  function QuotedName(s: string): (string, string) {
    var t := EatQuote(s);
    var name := Upto(t, '"');
    (name, if |name| < |t| then t[|name| + 1..] else "")
  }

  /** The first line of a part. */
  function ParseDisposition(line: string): Disposition {
    if HasPrefix(line, DISPOSITION) && |line| > |DISPOSITION| then
      ParseFormData(SkipToAlpha(line[|DISPOSITION|..]))
    else Bad(OutOfSync)
  }

  function ParseFormData(s: string): Disposition {
    if !(HasPrefix(s, FORM_DATA) && |s| > |FORM_DATA|) then Bad(NoFormData)
    else
      var t := SkipToAlpha(s[|FORM_DATA|..]);
      if HasPrefix(t, FORM_NAME) then ParseName(t[|FORM_NAME|..]) else Bad(NoFormName)
  }

  function ParseName(s: string): Disposition {
    var (name, after) := QuotedName(s);
    var u := SkipToAlpha(after);
    if HasPrefix(u, FORM_FILENAME) && |u| > |FORM_FILENAME| then
      Good(File(name, BaseName(Upto(EatQuote(u[|FORM_FILENAME|..]), '"'))))
    else Good(Field(name))
  }

  /** The rest of the header block, up to and including the empty line. */
  function SkipHeaders(w: string): (r: Option<string>)
    ensures r.Some? ==> |r.value| < |w|
    decreases |w|
  {
    match ReadLine(w)
    case None => None
    case Some(lr) => if lr.0 == "" then Some(lr.1) else SkipHeaders(lr.1)
  }

  // ----- parts -----

  /** One part, or why there is none. */
  datatype Chunk =
    | Done
    | Full(header: Header, content: string, rest: string)
    | Partial(header: Header, body: string)
    | Failed(failure: Failure)

  /** processChunk at the start of a part. */
  function NextPart(w: string, b: string): (c: Chunk)
    ensures c.Full? ==> |c.rest| < |w|
    ensures c.Partial? ==> |c.body| < |w|
  {
    var pos := First(b, w);
    if pos.None? then Failed(BoundaryNotFound) else AfterDelimiter(w[pos.value + |b|..], b)
  }

  function AfterDelimiter(v: string, b: string): (c: Chunk)
    ensures c.Full? ==> |c.rest| < |v|
    ensures c.Partial? ==> |c.body| < |v|
  {
    if "--\r\n" <= v then Done
    else if |v| < 2 then Failed(Unbuffered)
    else match ReadLine(v[2..])
      case None => Failed(Unbuffered)
      case Some(lr) => AfterLine(ParseDisposition(lr.0), lr.1, b)
  }

  function AfterLine(d: Disposition, w: string, b: string): (c: Chunk)
    ensures c.Full? ==> |c.rest| < |w|
    ensures c.Partial? ==> |c.body| < |w|
  {
    match d
    case Bad(f) => Failed(f)
    case Good(header) => PartBody(header, w, b)
  }

  /** The content that starts a window, up to the line break before the delimiter. */
  function Ended(h: Header, body: string, b: string): (c: Chunk)
    ensures c.Full? ==> |c.rest| <= |body|
    ensures c.Partial? ==> c.body == body
  {
    match First(b, body)
    case None => Partial(h, body)
    case Some(end) => if end < 2 then Failed(NegativeRead) else Full(h, body[..end - 2], body[end..])
  }

  /** After the first header line of a part. */
  function PartBody(header: Header, w: string, b: string): (c: Chunk)
    ensures c.Full? ==> |c.rest| < |w|
    ensures c.Partial? ==> |c.body| < |w|
  {
    match SkipHeaders(w)
    case None => Failed(Unbuffered)
    case Some(body) => Ended(header, body, b)
  }

  datatype Part = Part(header: Header, content: string)

  /** All parts that are wholly buffered, and how the loop ends. */
  function AllParts(w: string, b: string): (seq<Part>, Chunk)
    decreases |w|
  {
    var c := NextPart(w, b);
    if c.Full? then
      var (parts, end) := AllParts(c.rest, b);
      ([Part(c.header, c.content)] + parts, end)
    else ([], c)
  }

  // ----- well-formed bodies -----

  /** A part as a client sends it, with further header lines. */
  datatype Sent = Sent(header: Header, lines: seq<string>, content: string)

  predicate PlainName(s: string) {
    '"' !in s && '\r' !in s && NulFree(s)
  }

  predicate HeaderOk(h: Header) {
    PlainName(h.name) && (h.File? ==> PlainName(h.filename) && h.filename != "" && '\\' !in h.filename)
  }

  predicate LineOk(line: string) {
    line != "" && line[0] >= ' ' && '\r' !in line && NulFree(line)
  }

  predicate BoundaryOk(b: string) {
    |b| >= 2 && b[..2] == "--" && '\r' !in b
  }

  predicate SentOk(p: Sent, b: string) {
    && HeaderOk(p.header)
    && (forall i :: 0 <= i < |p.lines| ==> LineOk(p.lines[i]))
    && First(b, p.content).None?
  }

  function DispositionLine(h: Header): string {
    "Content-Disposition: form-data; name=\"" + h.name + "\"" + Tail(h)
  }

  function HeaderLines(lines: seq<string>): string {
    if lines == [] then CRLF else lines[0] + CRLF + HeaderLines(lines[1..])
  }

  /** The body of a post: every part after a delimiter line, and the closing delimiter. */
  function Encode(parts: seq<Sent>, b: string): string {
    if parts == [] then b + "--\r\n"
    else b + (CRLF + (DispositionLine(parts[0].header) + CRLF + (HeaderLines(parts[0].lines) +
             (parts[0].content + CRLF + Encode(parts[1..], b)))))
  }

  function Received(parts: seq<Sent>): seq<Part> {
    if parts == [] then [] else [Part(parts[0].header, parts[0].content)] + Received(parts[1..])
  }

  // ----- the loop over a well-formed body finds its parts -----

  lemma {:induction false} UptoStops(a: string, stop: char, r: string)
    requires stop !in a && (r == "" || r[0] == stop)
    ensures Upto(a + r, stop) == a
  {
    if a == "" {
      assert a + r == r;
    } else {
      assert (a + r)[1..] == a[1..] + r;
      UptoStops(a[1..], stop, r);
    }
  }

  /** A line that starts with a printable character is read whole. */
  lemma ReadLineIs(line: string, r: string)
    requires LineOk(line)
    ensures ReadLine(line + CRLF + r) == Some((line, r))
  {
    var w := line + CRLF + r;
    assert w == line + (CRLF + r);
    assert w[0] == line[0];
    UptoStops(line, '\r', CRLF + r);
    assert w[|line| + 2..] == r;
  }

  lemma {:induction false} SkipHeadersIs(lines: seq<string>, body: string)
    requires forall i :: 0 <= i < |lines| ==> LineOk(lines[i])
    ensures SkipHeaders(HeaderLines(lines) + body) == Some(body)
  {
    if lines == [] {
      assert (CRLF + body)[2..] == body;
    } else {
      var rest := HeaderLines(lines[1..]) + body;
      assert HeaderLines(lines) + body == lines[0] + CRLF + rest;
      ReadLineIs(lines[0], rest);
      SkipHeadersIs(lines[1..], body);
    }
  }

  lemma PrefixIs(p: string, r: string)
    ensures HasPrefix(p + r, p) && (p + r)[|p|..] == r
  {
    assert (p + r)[..|p|] == p;
  }

  lemma QuotedNameIs(name: string, r: string)
    requires PlainName(name)
    ensures QuotedName("\"" + name + "\"" + r) == (name, r)
  {
    var s := "\"" + name + "\"" + r;
    assert s[1..] == name + ("\"" + r);
    UptoStops(name, '"', "\"" + r);
    assert (name + ("\"" + r))[|name| + 1..] == r;
  }

  lemma SkipOne(c: char, s: string)
    requires !IsAlpha(c)
    ensures SkipToAlpha([c] + s) == SkipToAlpha(s)
  {
    assert ([c] + s)[1..] == s;
  }

  lemma SkipNone(s: string)
    requires s != "" && IsAlpha(s[0])
    ensures SkipToAlpha(s) == s
  {
  }

  function FileTail(filename: string): string {
    "; filename=\"" + filename + "\""
  }

  lemma FilenameIs(filename: string)
    requires PlainName(filename) && filename != "" && '\\' !in filename
    ensures var u := SkipToAlpha(FileTail(filename));
            HasPrefix(u, FORM_FILENAME) && |u| > |FORM_FILENAME| &&
            BaseName(Upto(EatQuote(u[|FORM_FILENAME|..]), '"')) == filename
  {
    var r := "\"" + filename + "\"";
    var u := FORM_FILENAME + r;
    assert FileTail(filename) == [';'] + ([' '] + u);
    SkipOne(';', [' '] + u);
    SkipOne(' ', u);
    assert u[0] == 'f';
    SkipNone(u);
    PrefixIs(FORM_FILENAME, r);
    assert r[1..] == filename + "\"";
    UptoStops(filename, '"', "\"");
    UptoStops(filename, '\\', "");
    assert filename + "" == filename;
  }

  function Tail(h: Header): string {
    if h.File? then FileTail(h.filename) else ""
  }

  function Named(h: Header): string {
    "\"" + h.name + "\"" + Tail(h)
  }

  lemma DispositionLineIs(h: Header)
    ensures DispositionLine(h) == DISPOSITION + ([' '] + (FORM_DATA + ([' '] + (FORM_NAME + Named(h)))))
  {
    DispositionStarts();
    Regroup(DISPOSITION, FORM_DATA, FORM_NAME, "\"", h.name, "\"" + Tail(h));
    assert "\"" + h.name + ("\"" + Tail(h)) == Named(h);
  }

  lemma DispositionStarts()
    ensures "Content-Disposition: form-data; name=\"" == DISPOSITION + ([' '] + (FORM_DATA + ([' '] + (FORM_NAME + "\""))))
  {
  }

  lemma Regroup(a: string, b: string, c: string, d: string, e: string, f: string)
    ensures a + ([' '] + (b + ([' '] + (c + d)))) + e + f == a + ([' '] + (b + ([' '] + (c + (d + e + f)))))
  {
    assert c + d + e + f == c + (d + e + f);
    assert [' '] + (c + d) + e + f == [' '] + (c + d + e + f);
    assert b + ([' '] + (c + d)) + e + f == b + ([' '] + (c + d) + e + f);
    assert [' '] + (b + ([' '] + (c + d))) + e + f == [' '] + (b + ([' '] + (c + d)) + e + f);
  }

  lemma AfterName(h: Header)
    requires HeaderOk(h)
    ensures ParseName(Named(h)) == Good(h)
  {
    QuotedNameIs(h.name, Tail(h));
    if h.File? { FilenameIs(h.filename); }
  }

  lemma AfterFormData(h: Header)
    requires HeaderOk(h)
    ensures ParseFormData(FORM_DATA + ([' '] + (FORM_NAME + Named(h)))) == Good(h)
  {
    var t := FORM_NAME + Named(h);
    PrefixIs(FORM_DATA, [' '] + t);
    SkipOne(' ', t);
    assert t[0] == 'n';
    SkipNone(t);
    PrefixIs(FORM_NAME, Named(h));
    AfterName(h);
  }

  /** The disposition line a client writes is read back as its header. */
  lemma DispositionIs(h: Header)
    requires HeaderOk(h)
    ensures ParseDisposition(DispositionLine(h)) == Good(h)
  {
    var s := FORM_DATA + ([' '] + (FORM_NAME + Named(h)));
    DispositionLineIs(h);
    PrefixIs(DISPOSITION, [' '] + s);
    SkipOne(' ', s);
    assert s[0] == 'f';
    SkipNone(s);
    AfterFormData(h);
  }

  predicate Unbroken(s: string) {
    '\r' !in s && NulFree(s)
  }

  lemma UnbrokenConcat(s: string, t: string)
    requires Unbroken(s) && Unbroken(t)
    ensures Unbroken(s + t)
  {
  }

  lemma DispositionLineOk(h: Header)
    requires HeaderOk(h)
    ensures LineOk(DispositionLine(h))
  {
    var open := "Content-Disposition: form-data; name=\"";
    if h.File? {
      UnbrokenConcat("; filename=\"", h.filename);
      UnbrokenConcat("; filename=\"" + h.filename, "\"");
    }
    UnbrokenConcat(open, h.name);
    UnbrokenConcat(open + h.name, "\"");
    UnbrokenConcat(open + h.name + "\"", Tail(h));
  }

  /** Content without a delimiter, then CRLF: the delimiter after it is the first. */
  lemma ContentEnds(content: string, b: string, r: string)
    requires First(b, content).None? && BoundaryOk(b) && b <= r
    ensures First(b, content + CRLF + r) == Some(|content| + 2)
  {
    var s := content + CRLF + r;
    assert OccursAt(b, s, |content| + 2) by {
      assert s == (content + CRLF) + r;
      OccursShift(b, content + CRLF, r, 0);
    }
    forall i: nat | i < |content| + 2
      ensures !OccursAt(b, s, i)
    {
      NoneAcross(content, b, r, i);
    }
    FirstIs(b, s, |content| + 2);
  }

  lemma NoneAcross(content: string, b: string, r: string, i: nat)
    requires First(b, content).None? && BoundaryOk(b) && i < |content| + 2
    ensures !OccursAt(b, content + CRLF + r, i)
  {
    var s := content + CRLF + r;
    assert s == content + (CRLF + r);
    assert s[|content|] == '\r' && s[|content| + 1] == '\n';
    if |s| < i + |b| {
    } else if i + |b| <= |content| {
      NoneBefore(b, content, i);
      OccursExtend(b, content, CRLF + r, i);
    } else if i <= |content| {
      assert b[|content| - i] in b;
      assert s[i..i + |b|][|content| - i] == '\r';
    } else {
      assert b[0] == b[..2][0];
      assert s[i..i + |b|][0] == '\n';
    }
  }

  lemma FirstAtOnce(b: string, r: string)
    ensures First(b, b + r) == Some(0) && (b + r)[0 + |b|..] == r
  {
    assert OccursAt(b, b + r, 0);
    FirstIs(b, b + r, 0);
  }

  lemma PartBodyIs(h: Header, lines: seq<string>, content: string, b: string, more: string)
    requires BoundaryOk(b) && First(b, content).None? && b <= more
    requires forall i :: 0 <= i < |lines| ==> LineOk(lines[i])
    ensures PartBody(h, HeaderLines(lines) + (content + CRLF + more), b) == Full(h, content, more)
  {
    var body := content + CRLF + more;
    SkipHeadersIs(lines, body);
    ContentEnds(content, b, more);
    assert body[..|content|] == content && body[|content| + 2..] == more;
  }

  lemma AfterDelimiterIs(line: string, w: string, b: string)
    requires LineOk(line)
    ensures AfterDelimiter(CRLF + (line + CRLF + w), b) == AfterLine(ParseDisposition(line), w, b)
  {
    var v := CRLF + (line + CRLF + w);
    assert v[0] == '\r' && v[2..] == line + CRLF + w;
    ReadLineIs(line, w);
  }

  lemma NextPartAfter(w: string, b: string, d: nat)
    requires First(b, w) == Some(d)
    ensures NextPart(w, b) == AfterDelimiter(w[d + |b|..], b)
  {
    hide AfterDelimiter;
  }

  /** The part at the front of an encoded body is found, and the encoding of the others is left. */
  lemma NextPartIs(p: Sent, b: string, more: string)
    requires BoundaryOk(b) && SentOk(p, b) && b <= more
    ensures NextPart(b + (CRLF + (DispositionLine(p.header) + CRLF + (HeaderLines(p.lines) + (p.content + CRLF + more)))), b)
         == Full(p.header, p.content, more)
  {
    var w := HeaderLines(p.lines) + (p.content + CRLF + more);
    var v := CRLF + (DispositionLine(p.header) + CRLF + w);
    FirstAtOnce(b, v);
    NextPartAfter(b + v, b, 0);
    DispositionLineOk(p.header);
    AfterDelimiterIs(DispositionLine(p.header), w, b);
    DispositionIs(p.header);
    PartBodyIs(p.header, p.lines, p.content, b, more);
  }

  lemma LastPartIs(b: string)
    ensures NextPart(b + "--\r\n", b) == Done
  {
    FirstAtOnce(b, "--\r\n");
  }

  /** For every list of parts, the loop finds exactly those parts in its encoding, and then the end. */
  lemma {:induction false} AllPartsOfEncoding(parts: seq<Sent>, b: string)
    requires BoundaryOk(b) && forall i :: 0 <= i < |parts| ==> SentOk(parts[i], b)
    ensures AllParts(Encode(parts, b), b) == (Received(parts), Done)
  {
    if parts == [] {
      LastPartIs(b);
    } else {
      var more := Encode(parts[1..], b);
      EncodingStarts(parts[1..], b);
      NextPartIs(parts[0], b, more);
      AllPartsOfEncoding(parts[1..], b);
    }
  }

  // ----- bodies that break off -----

  /** A part without a delimiter behind it. */
  function OpenPost(h: Header, body: string, b: string): string {
    b + (CRLF + (DispositionLine(h) + CRLF + (HeaderLines([]) + body)))
  }

  lemma OpenPostIs(h: Header, body: string, b: string)
    requires HeaderOk(h)
    ensures NextPart(OpenPost(h, body, b), b) == Ended(h, body, b)
  {
    var w := HeaderLines([]) + body;
    var v := CRLF + (DispositionLine(h) + CRLF + w);
    FirstAtOnce(b, v);
    NextPartAfter(b + v, b, 0);
    DispositionLineOk(h);
    AfterDelimiterIs(DispositionLine(h), w, b);
    DispositionIs(h);
    SkipHeadersIs([], body);
  }

  lemma EncodingStarts(parts: seq<Sent>, b: string)
    ensures b <= Encode(parts, b)
  {
  }

  // ----- what a window shows is what the whole stream says -----

  lemma {:induction false} UptoExtend(s: string, stop: char, r: string)
    requires |Upto(s, stop)| < |s|
    ensures Upto(s + r, stop) == Upto(s, stop)
  {
    assert (s + r)[0] == s[0];
    if s[0] != stop {
      assert (s + r)[1..] == s[1..] + r;
      UptoExtend(s[1..], stop, r);
    }
  }

  lemma {:induction false} SkipJunkExtend(s: string, r: string)
    requires SkipJunk(s) != ""
    ensures SkipJunk(s + r) == SkipJunk(s) + r
  {
    assert (s + r)[0] == s[0];
    if s[0] < ' ' {
      assert (s + r)[1..] == s[1..] + r;
      SkipJunkExtend(s[1..], r);
    }
  }

  lemma ReadTextExtend(t: string, r: string)
    requires ReadText(t).Some?
    ensures ReadText(t + r) == Some((ReadText(t).value.0, ReadText(t).value.1 + r))
  {
    var line := Upto(t, '\r');
    UptoExtend(t, '\r', r);
    assert (t + r)[|line| + 2..] == t[|line| + 2..] + r;
  }

  lemma ReadLineExtend(w: string, r: string)
    requires ReadLine(w).Some?
    ensures ReadLine(w + r) == Some((ReadLine(w).value.0, ReadLine(w).value.1 + r))
  {
    if CRLF <= w {
      assert (w + r)[..2] == w[..2] && (w + r)[2..] == w[2..] + r;
    } else {
      assert (w + r)[..2] == w[..2];
      SkipJunkExtend(w, r);
      ReadTextExtend(SkipJunk(w), r);
    }
  }

  lemma {:induction false} SkipHeadersExtend(w: string, r: string)
    requires SkipHeaders(w).Some?
    ensures SkipHeaders(w + r) == Some(SkipHeaders(w).value + r)
    decreases |w|
  {
    ReadLineExtend(w, r);
    var lr := ReadLine(w).value;
    if lr.0 != "" { SkipHeadersExtend(lr.1, r); }
  }

  /** What a chunk found in the window is when more bytes follow: the cut-off part gets its end. */
  function Extended(c: Chunk, r: string, b: string): Chunk {
    match c
    case Done => Done
    case Full(h, content, rest) => Full(h, content, rest + r)
    case Partial(h, body) => Ended(h, body + r, b)
    case Failed(f) => Failed(f)
  }

  lemma EndedExtend(h: Header, body: string, r: string, b: string)
    requires Ended(h, body, b).Full? || Ended(h, body, b).Partial?
    ensures Ended(h, body + r, b) == Extended(Ended(h, body, b), r, b)
  {
    if First(b, body).Some? {
      var end := First(b, body).value;
      InWindow(b, body, r);
      assert (body + r)[..end - 2] == body[..end - 2] && (body + r)[end..] == body[end..] + r;
    }
  }

  lemma PartBodyExtend(h: Header, w: string, r: string, b: string)
    requires !PartBody(h, w, b).Failed?
    ensures PartBody(h, w + r, b) == Extended(PartBody(h, w, b), r, b)
  {
    SkipHeadersExtend(w, r);
    EndedExtend(h, SkipHeaders(w).value, r, b);
  }

  lemma AfterLineExtend(d: Disposition, w: string, r: string, b: string)
    requires !AfterLine(d, w, b).Failed?
    ensures AfterLine(d, w + r, b) == Extended(AfterLine(d, w, b), r, b)
  {
    PartBodyExtend(d.header, w, r, b);
  }

  lemma LineAfterDelimiterExtend(v: string, r: string, b: string)
    requires !("--\r\n" <= v) && |v| >= 2 && ReadLine(v[2..]).Some?
    ensures AfterDelimiter(v + r, b)
         == AfterLine(ParseDisposition(ReadLine(v[2..]).value.0), ReadLine(v[2..]).value.1 + r, b)
  {
    assert (v + r)[2..] == v[2..] + r;
    ReadLineExtend(v[2..], r);
    assert (v + r)[..4] == v[..4];
  }

  lemma AfterDelimiterExtend(v: string, r: string, b: string)
    requires !AfterDelimiter(v, b).Failed?
    ensures AfterDelimiter(v + r, b) == Extended(AfterDelimiter(v, b), r, b)
  {
    if "--\r\n" <= v {
      assert (v + r)[..4] == v[..4];
    } else {
      var lr := ReadLine(v[2..]).value;
      LineAfterDelimiterExtend(v, r, b);
      AfterLineExtend(ParseDisposition(lr.0), lr.1, r, b);
    }
  }

  /** A chunk that is found in a window is found in every stream that continues the window. */
  lemma NextPartExtend(w: string, r: string, b: string)
    requires !NextPart(w, b).Failed?
    ensures NextPart(w + r, b) == Extended(NextPart(w, b), r, b)
  {
    var d := First(b, w).value;
    var v := w[d + |b|..];
    InWindow(b, w, r);
    assert (w + r)[d + |b|..] == v + r;
    NextPartAfter(w, b, d);
    NextPartAfter(w + r, b, d);
    AfterDelimiterExtend(v, r, b);
  }

  lemma NextPartSame(w: string, d: nat, t: string, e: nat, b: string)
    requires First(b, w) == Some(d) && First(b, t) == Some(e) && w[d + |b|..] == t[e + |b|..]
    ensures NextPart(t, b) == NextPart(w, b)
  {
    NextPartAfter(w, b, d);
    NextPartAfter(t, b, e);
  }

  lemma FirstInTail(w: string, d: nat, n: nat, t: string, b: string)
    requires First(b, w) == Some(d) && n <= d && t == w[n..]
    ensures First(b, t) == Some(d - n)
  {
    FirstDrop(b, w, n);
  }

  lemma TailOfTail(w: string, d: nat, n: nat, t: string, b: string)
    requires First(b, w) == Some(d) && n <= d && t == w[n..] && First(b, t) == Some(d - n)
    ensures w[d + |b|..] == t[d - n + |b|..]
  {
  }

  /** Bytes in front of the next delimiter do not matter to the part behind it. */
  lemma NextPartSkips(w: string, d: nat, n: nat, t: string, b: string)
    requires First(b, w) == Some(d) && n <= d && t == w[n..]
    ensures NextPart(t, b) == NextPart(w, b)
  {
    FirstInTail(w, d, n, t, b);
    TailOfTail(w, d, n, t, b);
    NextPartSame(w, d, t, d - n, b);
  }

  /** The loop ends in order exactly behind a delimiter with the closing mark, and gives up at once exactly without one. */
  lemma EndsIff(w: string, b: string)
    ensures NextPart(w, b) == Done <==> First(b, w).Some? && "--\r\n" <= w[First(b, w).value + |b|..]
    ensures NextPart(w, b) == Failed(BoundaryNotFound) <==> forall i: nat :: !OccursAt(b, w, i)
  {
    FirstSound(b, w);
    if First(b, w).Some? { KnownFailures(w[First(b, w).value + |b|..], b); }
  }

  lemma KnownFailures(v: string, b: string)
    ensures AfterDelimiter(v, b) == Done <==> "--\r\n" <= v
    ensures AfterDelimiter(v, b) != Failed(BoundaryNotFound)
  {
  }

  // ----- the margin -----

  /** After a window without a delimiter has given out all but the margin, the line break in
      front of the next delimiter is still there. */
  ghost predicate MarginHolds(b: string) {
    forall window: string, rest: string ::
      |window| >= MARGIN && First(b, window).None? && First(b, window + rest).Some? && First(b, window + rest).value >= 2 ==>
      First(b, window + rest).value - (|window| - MARGIN) >= 2
  }

  lemma MarginSuffices(b: string, window: string, rest: string)
    requires |b| < MARGIN && First(b, window).None? && First(b, window + rest).Some?
    ensures First(b, window + rest).value - (|window| - MARGIN) >= 2
  {
    NotInWindow(b, window, rest, First(b, window + rest).value);
  }

  lemma MarginTooSmall(b: string)
    requires BoundaryOk(b) && |b| >= MARGIN
    ensures !MarginHolds(b)
  {
    var window := CRLF + b[..|b| - 1];
    var rest := b[|b| - 1..];
    assert window + rest == "" + CRLF + b;
    assert First(b, "").None?;
    ContentEnds("", b, b);
    assert First(b, window).None? by {
      if First(b, window).Some? { InWindow(b, window, rest); }
    }
  }

  /** The margin is enough exactly for delimiters of at most 127 bytes. */
  lemma MarginIsSharp(b: string)
    requires BoundaryOk(b)
    ensures MarginHolds(b) <==> |b| < MARGIN
  {
    if |b| < MARGIN {
      forall window: string, rest: string | |window| >= MARGIN && First(b, window).None? &&
                                            First(b, window + rest).Some? && First(b, window + rest).value >= 2
        ensures First(b, window + rest).value - (|window| - MARGIN) >= 2
      {
        MarginSuffices(b, window, rest);
      }
    } else {
      MarginTooSmall(b);
    }
  }
}
