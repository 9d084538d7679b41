/** Posts that the part loop does not survive, and two whose fate depends on how long the reads are. */
module BrokenPosts {
  import opened Basics
  import opened CText
  import opened EcgiReader
  import opened Multipart

  const THE_FILE := File("a", "f")

  lemma NoDashNoDelimiter(b: string, s: string)
    requires BoundaryOk(b) && '-' !in s
    ensures First(b, s).None?
  {
    assert b[0] == b[..2][0];
    forall i: nat | i < |s|
      ensures !OccursAt(b, s, i)
    {
      if i + |b| <= |s| { assert s[i..i + |b|][0] == s[i]; }
    }
    NoneIfNowhere(b, s);
  }

  lemma OpenPostEnds(body: string)
    requires '-' !in body
    ensures AllParts(OpenPost(THE_FILE, body, "--B"), "--B") == ([], Partial(THE_FILE, body))
  {
    assert BoundaryOk("--B");
    OpenPostIs(THE_FILE, body, "--B");
    NoDashNoDelimiter("--B", body);
    NoMoreParts(OpenPost(THE_FILE, body, "--B"), "--B");
  }

  /** A file of three bytes whose delimiter is missing: max_read becomes negative. */
  lemma ShortOpenFile()
    ensures EndOf(AllParts(OpenPost(THE_FILE, "abc", "--B"), "--B").1) == Broken(NegativeRead)
  {
    OpenPostEnds("abc");
  }

  /** A file of 128 bytes whose delimiter is missing: the loop never ends. */
  lemma LongOpenFile()
    ensures EndOf(AllParts(OpenPost(THE_FILE, seq(128, _ => 'x'), "--B"), "--B").1) == Endless
  {
    OpenPostEnds(seq(128, _ => 'x'));
  }

  /** A delimiter at once behind the header block: max_read becomes negative. */
  lemma DelimiterAtOnce()
    ensures AllParts(OpenPost(THE_FILE, "--B--\r\n", "--B"), "--B") == ([], Failed(NegativeRead))
  {
    hide NextPart, AllParts;
    OpenPostIs(THE_FILE, "--B--\r\n", "--B");
    FirstAtOnce("--B", "--\r\n");
    assert "--B" + "--\r\n" == "--B--\r\n";
    NoMoreParts(OpenPost(THE_FILE, "--B--\r\n", "--B"), "--B");
  }

  /** These posts, read whole, end as their bytes decide. */
  method ReadBroken(body: string, answers: int -> int) returns (parts: seq<Part>, end: End)
    requires |OpenPost(THE_FILE, body, "--B")| <= Min(answers(0), BUFSIZE)
    ensures body == "abc" || body == "--B--\r\n" ==> parts == [] && end == Broken(NegativeRead)
    ensures body == seq(128, _ => 'x') ==> parts == [] && end == Endless
  {
    var ecgi := new Ecgi(OpenPost(THE_FILE, body, "--B"), "--B", answers);
    ghost var behind;
    parts, end, behind := ecgi.ProcessMultiPart();
    if body == "abc" || body == seq(128, _ => 'x') { OpenPostEnds(body); }
    if body == "--B--\r\n" { DelimiterAtOnce(); }
  }

  /** A well-formed post: one file of 200 bytes. */
  function TheUpload(): string {
    Encode([Sent(THE_FILE, [], seq(200, _ => 'x'))], "--B")
  }

  /** How long the post is up to its content. */
  const HEADER_LENGTH := |OpenPost(THE_FILE, "", "--B")|

  lemma UploadIs()
    ensures TheUpload() == OpenPost(THE_FILE, seq(200, _ => 'x') + CRLF + "--B--\r\n", "--B")
  {
    var sent := [Sent(THE_FILE, [], seq(200, _ => 'x'))];
    assert sent[1..] == [] && Encode([], "--B") == "--B--\r\n";
  }

  lemma UploadSplit()
    ensures 3 < HEADER_LENGTH < 100 && |TheUpload()| == HEADER_LENGTH + 209
    ensures TheUpload()[..HEADER_LENGTH + 3] == OpenPost(THE_FILE, "xxx", "--B")
    ensures TheUpload()[HEADER_LENGTH + 3..HEADER_LENGTH + 4] == "x"
  {
    hide TheUpload;
    UploadIs();
  }

  /** The descriptor of the story: the header block with three bytes of the file, then one byte at a time. */
  function Slow(p: int): int { if p == 0 then HEADER_LENGTH + 3 else 1 }

  /** The reader with the header block and three bytes of the file in the window. */
  method UploadStarts() returns (ecgi: Ecgi)
    ensures fresh(ecgi) && fresh(ecgi.readbuf) && ecgi.Valid() && ecgi.Synced() && ecgi.boundary == "--B"
    ensures ecgi.Window() == OpenPost(THE_FILE, "xxx", "--B") && ecgi.answers == Slow && ecgi.contentRead > 0
    ensures ecgi.Rest() == TheUpload()[HEADER_LENGTH + 3..] && ecgi.Rest() != ""
  {
    hide TheUpload, OpenPost, NextPart, First, AllParts;
    ecgi := new Ecgi(TheUpload(), "--B", Slow);
    UploadSplit();
    var n := ecgi.Start();
  }

  /** The reader behind the header block. */
  method UploadInFile() returns (ecgi: Ecgi)
    ensures fresh(ecgi) && fresh(ecgi.readbuf) && ecgi.Valid() && ecgi.Synced() && ecgi.boundary == "--B"
    ensures ecgi.Window() == "xxx" && ecgi.maxRead == 0
    ensures ecgi.Refill() == 1 && ecgi.Unread()[..4] == "xxxx"
  {
    hide TheUpload, OpenPost, NextPart, AfterDelimiter, Ended, First;
    ecgi := UploadStarts();
    ghost var w := ecgi.Window();
    FirstChunk();
    var stat := ecgi.StartOfField();
    ecgi.AnswersIsShows(stat, w);
    UploadUnread(ecgi.Unread());
  }

  lemma FirstChunk()
    ensures NextPart(OpenPost(THE_FILE, "xxx", "--B"), "--B") == Partial(THE_FILE, "xxx")
  {
    OpenPostIs(THE_FILE, "xxx", "--B");
    NoDashNoDelimiter("--B", "xxx");
  }

  lemma UploadUnread(u: string)
    requires u == "xxx" + TheUpload()[HEADER_LENGTH + 3..]
    ensures |u| >= 4 && u[..4] == "xxxx"
  {
    hide TheUpload, OpenPost;
    UploadSplit();
    assert u[3] == TheUpload()[HEADER_LENGTH + 3..HEADER_LENGTH + 4][0];
  }

  /** A well-formed upload breaks the loop when reads are short: three bytes of the file, and then one more. */
  method SlowReads() returns (how: Pieces)
    ensures how.Negative?
  {
    var ecgi := UploadInFile();
    NoDashNoDelimiter("--B", "xxx");
    NoDashNoDelimiter("--B", "xxxx");
    var out;
    out, how := ecgi.TakePieces();
  }

  // ----- a field that is read in pieces -----

  const FIELD_A := Field("a")
  const FIELD_B := Field("b")

  function LongValue(): string { seq(200, _ => 'x') }

  /** The second field and the closing mark. */
  function SecondField(): string { Encode([Sent(FIELD_B, [], "hello")], "--B") }

  /** A well-formed post of two fields: the first has 200 bytes. */
  function TwoFields(): string { OpenPost(FIELD_A, LongValue() + CRLF + SecondField(), "--B") }

  lemma TwoFieldsIs()
    ensures TwoFields() == Encode([Sent(FIELD_A, [], LongValue()), Sent(FIELD_B, [], "hello")], "--B")
  {
    hide DispositionLine, HeaderLines;
    var sent := [Sent(FIELD_A, [], LongValue()), Sent(FIELD_B, [], "hello")];
    assert sent[1..] == [Sent(FIELD_B, [], "hello")];
  }

  const FIELD_LENGTH := |OpenPost(FIELD_A, "", "--B")|

  lemma OpenPostSplit(h: Header, body: string, n: nat)
    requires n <= |body|
    ensures var k := |OpenPost(h, "", "--B")|;
            && |OpenPost(h, body, "--B")| == k + |body|
            && OpenPost(h, body, "--B")[..k + n] == OpenPost(h, body[..n], "--B")
            && OpenPost(h, body, "--B")[k + n..] == body[n..]
  {
    hide DispositionLine, HeaderLines;
  }

  lemma SecondStarts()
    ensures "--B" <= SecondField() && SecondField() != ""
  {
    EncodingStarts([Sent(FIELD_B, [], "hello")], "--B");
  }

  lemma SecondIsShort()
    ensures 0 < FIELD_LENGTH < 100 && |SecondField()| < 200
  {
    var sent := [Sent(FIELD_B, [], "hello")];
    assert sent[1..] == [] && Encode([], "--B") == "--B--\r\n";
  }

  /** The first read ends three bytes behind the first header block, the second takes all the rest. */
  function Once(p: int): int { if p == 0 then FIELD_LENGTH + 3 else BUFSIZE }

  lemma LongBody(u: string)
    requires u == LongValue() + CRLF + SecondField()
    ensures First("--B", u) == Some(202) && u[..3] == "xxx" && u[..200] == LongValue() && u[200..] == CRLF + SecondField()
    ensures NextPart(u[200..], "--B") == Full(FIELD_B, "hello", "--B--\r\n")
  {
    hide NextPart, First, SecondField;
    SecondStarts();
    NoDashNoDelimiter("--B", LongValue());
    ContentEnds(LongValue(), "--B", SecondField());
    BehindIs(u[200..]);
  }

  lemma BehindIs(w: string)
    requires w == CRLF + SecondField()
    ensures NextPart(w, "--B") == Full(FIELD_B, "hello", "--B--\r\n")
  {
    hide NextPart, First, DispositionLine, HeaderLines;
    SecondStarts();
    NoDashNoDelimiter("--B", "");
    ContentEnds("", "--B", SecondField());
    assert "" + CRLF + SecondField() == w && w[2..] == SecondField();
    NextPartSkips(w, 2, 2, SecondField(), "--B");
    var sent := [Sent(FIELD_B, [], "hello")];
    assert sent[1..] == [] && Encode([], "--B") == "--B--\r\n";
    NoDashNoDelimiter("--B", "hello");
    NextPartIs(sent[0], "--B", "--B--\r\n");
  }

  method TwoFieldsStart() returns (ecgi: Ecgi)
    ensures fresh(ecgi) && fresh(ecgi.readbuf) && ecgi.Ready([]) && ecgi.boundary == "--B" && ecgi.answers == Once
    ensures ecgi.Window() == OpenPost(FIELD_A, "xxx", "--B") && ecgi.stream == TwoFields() && ecgi.contentRead == FIELD_LENGTH + 3
    ensures "xxx" + ecgi.Rest() == LongValue() + CRLF + SecondField()
  {
    hide TwoFields, OpenPost, NextPart, First, AllParts, SecondField;
    ecgi := new Ecgi(TwoFields(), "--B", Once);
    TwoFieldsSplit();
    var n := ecgi.Start();
  }

  lemma TwoFieldsSplit()
    ensures 0 < FIELD_LENGTH < 100 && FIELD_LENGTH + 202 < |TwoFields()| < FIELD_LENGTH + 402
    ensures TwoFields()[..FIELD_LENGTH + 3] == OpenPost(FIELD_A, "xxx", "--B")
    ensures "xxx" + TwoFields()[FIELD_LENGTH + 3..] == LongValue() + CRLF + SecondField()
  {
    hide OpenPost, SecondField;
    var body := LongValue() + CRLF + SecondField();
    SecondStarts();
    SecondIsShort();
    OpenPostSplit(FIELD_A, body, 3);
    assert body[..3] == "xxx" && body == body[..3] + body[3..];
  }

  lemma FieldChunk()
    ensures NextPart(OpenPost(FIELD_A, "xxx", "--B"), "--B") == Partial(FIELD_A, "xxx")
  {
    OpenPostIs(FIELD_A, "xxx", "--B");
    NoDashNoDelimiter("--B", "xxx");
  }

  /**
   A field whose delimiter is not in the window at its header: its value is stored under the name of
   the field behind it, so that nothing is stored under its own, and the next value lacks two bytes.
   */
  method LongFieldRun() returns (stored: seq<Part>, value: string)
    ensures stored == [Part(FIELD_B, LongValue())] && LosesTwo("hello", value)
  {
    hide OpenPost, NextPart, First, AllParts, SecondField, TwoFields, LosesTwo, LongValue;
    var ecgi := TwoFieldsStart();
    FieldChunk();
    TwoFieldsSplit();
    ghost var u := "xxx" + ecgi.Rest();
    LongBody(u);
    NotSoon(ecgi, u);
    ghost var behind;
    var end;
    stored, end, behind := ecgi.OnePart([]);
    OnceReads();
    AllIsRead(ecgi);
    assert behind + "" == behind;
    value := ecgi.TakeLate(end.value.next, behind);
  }

  lemma OnceReads()
    ensures !exists p :: Once(p) <= 0
  {
    SecondIsShort();
  }

  lemma AllIsRead(ecgi: Ecgi)
    requires ecgi.Valid() && ecgi.contentRead >= |ecgi.stream|
    ensures ecgi.Rest() == ""
  {
  }

  lemma NotSoon(ecgi: Ecgi, u: string)
    requires ecgi.Valid() && ecgi.boundary == "--B" && ecgi.answers == Once && ecgi.stream == TwoFields()
    requires ecgi.contentRead == FIELD_LENGTH + 3 && u == "xxx" + ecgi.Rest() && First("--B", u) == Some(202) && |u| >= 202
    requires 0 < FIELD_LENGTH < 100 && FIELD_LENGTH + 202 < |TwoFields()| < FIELD_LENGTH + 402
    ensures !ecgi.SoonFrom("xxx") && ecgi.contentRead + ecgi.RefillFrom(3) == |ecgi.stream|
  {
    hide First, TwoFields;
  }
}
