/**
 The buffer of the CGI form reader and the loops that work on it: refill, search for the
 delimiter, reading of header lines, and the part loop with its pieces of long files.
 */
module EcgiReader {
  import opened Basics
  import opened CText
  import opened Multipart

  const BUFSIZE := 131072

  /** What a chunk leaves in the reader for the part loop. */
  datatype Stat = Finished | FullPart(header: Header) | PartialPart(header: Header) | Error(failure: Failure)

  /** How a run of the part loop stops. */
  datatype End =
    | AllRead                  // the closing delimiter was found
    | Broken(failure: Failure) // an exception about the form
    | ReadFailed               // an exception about the descriptor
    | Endless                  // no delimiter is left; the loop writes nothing for ever
    | LongField(next: Stat)    // a field read in pieces was stored under the name of the part behind it

  /** How the loop over the pieces of one part stops. */
  datatype Pieces = Complete | NoRead | Negative | Stuck

  function Min(a: int, b: int): int { if a < b then a else b }

  /** How much of a window without a delimiter is given out at first. */
  function HeldBack(fill: int): int {
    if fill - MARGIN > 0 then fill - MARGIN else 0
  }

  /** How the loop ends over a post that is wholly buffered, by the chunk it ends at. */
  function EndOf(c: Chunk): End {
    match c
    case Failed(f) => Broken(f)
    case Partial(_, body) => if |body| < MARGIN then Broken(NegativeRead) else Endless
    case _ => AllRead
  }

  lemma JoinSlices(s: string, i: nat, j: nat, k: nat)
    requires i <= j <= k <= |s|
    ensures s[i..j] + s[j..k] == s[i..k] && s[i..j] + s[j..] == s[i..]
  {
  }

  method CopyTo(a: array<char>, at: nat, bytes: string)
    requires at + |bytes| <= a.Length
    modifies a
    ensures a[..at] == old(a[..at]) && a[at..at + |bytes|] == bytes
  {
    forall i | 0 <= i < |bytes| { a[at + i] := bytes[i]; }
  }

  lemma SliceOfSlice(s: string, a: nat, n: nat, i: nat, m: nat)
    requires a + n <= |s| && i + m <= n
    ensures s[a..a + n][i..i + m] == s[a + i..a + i + m]
  {
    var x, y := s[a..a + n][i..i + m], s[a + i..a + i + m];
    assert forall k :: 0 <= k < m ==> x[k] == y[k];
  }

  lemma NoneIfNowhere(b: string, s: string)
    requires forall i: nat :: i < |s| ==> !OccursAt(b, s, i)
    requires b != ""
    ensures First(b, s) == None
  {
    FirstSound(b, s);
  }

  lemma AllPartsAgree(u: string, v: string, b: string)
    requires NextPart(u, b) == NextPart(v, b)
    ensures AllParts(u, b) == AllParts(v, b)
  {
  }

  /** The parts of the stream are those collected so far and those of what is unread. */
  ghost predicate Progress(whole: string, parts: seq<Part>, unread: string, b: string) {
    AllParts(whole, b) == (parts + AllParts(unread, b).0, AllParts(unread, b).1)
  }

  lemma ProgressFull(whole: string, parts: seq<Part>, unread: string, b: string, next: string)
    requires Progress(whole, parts, unread, b) && NextPart(unread, b).Full?
    requires NextPart(next, b) == NextPart(NextPart(unread, b).rest, b)
    ensures var c := NextPart(unread, b); Progress(whole, parts + [Part(c.header, c.content)], next, b)
  {
    hide NextPart;
    var c := NextPart(unread, b);
    AllPartsAgree(next, c.rest, b);
    assert parts + ([Part(c.header, c.content)] + AllParts(c.rest, b).0)
        == parts + [Part(c.header, c.content)] + AllParts(c.rest, b).0;
  }

  lemma StepFull(whole: string, parts: seq<Part>, w: string, r: string, b: string)
    requires Progress(whole, parts, w + r, b) && NextPart(w, b).Full?
    ensures var c := NextPart(w, b); Progress(whole, parts + [Part(c.header, c.content)], c.rest + r, b)
  {
    NextPartExtend(w, r, b);
    ProgressFull(whole, parts, w + r, b, NextPart(w, b).rest + r);
  }

  lemma StepPartial(whole: string, parts: seq<Part>, w: string, r: string, b: string, out: string, u: string)
    requires Progress(whole, parts, w + r, b) && NextPart(w, b).Partial?
    requires CutOff(NextPart(w, b).body + r, out, u, b) && First(b, u) == Some(2)
    ensures Progress(whole, parts + [Part(NextPart(w, b).header, out)], u, b)
  {
    NextPartExtend(w, r, b);
    EndedAfter(NextPart(w, b).header, NextPart(w, b).body + r, out, u, b);
    NextPartSkips(u, 2, 2, u[2..], b);
    ProgressFull(whole, parts, w + r, b, u);
  }

  lemma StepEndless(whole: string, parts: seq<Part>, w: string, r: string, b: string, out: string, u: string)
    requires Progress(whole, parts, w + r, b) && NextPart(w, b).Partial?
    requires CutOff(NextPart(w, b).body + r, out, u, b) && First(b, u).None?
    ensures AllParts(whole, b).1 == Partial(NextPart(w, b).header, NextPart(w, b).body + r)
    ensures |NextPart(w, b).body + r| == |out| + |u|
  {
    NextPartExtend(w, r, b);
    EndProgress(whole, parts, w + r, b);
    EndedOpen(NextPart(w, b).header, NextPart(w, b).body + r, b);
  }

  lemma EndedOpen(h: Header, body: string, b: string)
    requires First(b, body).None?
    ensures Ended(h, body, b) == Partial(h, body)
  {
  }

  lemma EndedAfter(h: Header, u0: string, out: string, u: string, b: string)
    requires CutOff(u0, out, u, b) && First(b, u) == Some(2)
    ensures Ended(h, u0, b) == Full(h, out, u[2..])
  {
    assert (out + u)[..|out|] == out && (out + u)[|out| + 2..] == u[2..];
  }

  lemma StepDone(whole: string, parts: seq<Part>, w: string, r: string, b: string)
    requires Progress(whole, parts, w + r, b) && NextPart(w, b).Done?
    ensures AllParts(whole, b) == (parts, Done)
  {
    NextPartExtend(w, r, b);
    EndProgress(whole, parts, w + r, b);
  }

  lemma NoMoreParts(u: string, b: string)
    requires !NextPart(u, b).Full?
    ensures AllParts(u, b) == ([], NextPart(u, b))
  {
  }

  lemma EndProgress(whole: string, parts: seq<Part>, unread: string, b: string)
    requires Progress(whole, parts, unread, b) && !NextPart(unread, b).Full?
    ensures AllParts(whole, b) == (parts, NextPart(unread, b))
  {
    NoMoreParts(unread, b);
    assert parts + [] == parts;
  }

  lemma ProgressStart(whole: string, b: string)
    ensures Progress(whole, [], whole, b)
  {
    var all := AllParts(whole, b);
    assert [] + all.0 == all.0;
  }

  lemma ProgressIsPrefix(whole: string, parts: seq<Part>, unread: string, b: string)
    requires Progress(whole, parts, unread, b)
    ensures parts <= AllParts(whole, b).0 && AllParts(whole, b).1 == AllParts(unread, b).1
  {
  }

  lemma PartialIsOpen(w: string, b: string)
    requires NextPart(w, b).Partial?
    ensures First(b, NextPart(w, b).body).None?
  {
  }

  /** `out` was cut from the front of `u0`, `u` is left, and the next delimiter is behind the cut. */
  ghost predicate CutOff(u0: string, out: string, u: string, b: string) {
    && u0 == out + u
    && First(b, u0) == match First(b, u) case None => None case Some(e) => Some(|out| + e)
  }

  lemma NoneInTail(b: string, s: string, n: nat)
    requires First(b, s).None? && n <= |s|
    ensures First(b, s[n..]).None?
  {
    assert s == s[..n] + s[n..];
    FirstSound(b, s);
    FirstSound(b, s[n..]);
    if First(b, s[n..]).Some? { OccursShift(b, s[..n], s[n..], First(b, s[n..]).value); }
  }

  /** Cutting off more that ends before the delimiter. */
  lemma CutMore(u0: string, out: string, u: string, m: nat, b: string)
    requires CutOff(u0, out, u, b) && m <= |u|
    requires First(b, u).Some? ==> m <= First(b, u).value
    ensures CutOff(u0, out + u[..m], u[m..], b)
  {
    FirstAfterCut(u, m, u[m..], b);
    CutText(out, u, m);
  }

  lemma CutText(out: string, u: string, m: nat)
    requires m <= |u|
    ensures out + u == out + u[..m] + u[m..]
  {
  }

  lemma FirstAfterCut(u: string, m: nat, v: string, b: string)
    requires m <= |u| && v == u[m..]
    requires First(b, u).Some? ==> m <= First(b, u).value
    ensures First(b, u) == match First(b, v) case None => None case Some(e) => Some(m + e)
  {
    if First(b, u).Some? { FirstDrop(b, u, m); } else { NoneInTail(b, u, m); }
  }

  /**
   What becomes of a value that was read in pieces, with `c` behind it.  Before the closing mark it is
   stored under its own name, before another part under the name of that part.
   */
  predicate Stored(parts: seq<Part>, p: Part, c: Chunk, more: seq<Part>, end: End) {
    match c
    case Done => end == AllRead && more == parts + [p]
    case Failed(f) => end == Broken(f) && more == parts
    case Full(h, _, _) => end == LongField(FullPart(h)) && more == parts + [Part(Field(h.name), p.content)]
    case Partial(h, _) => end == LongField(PartialPart(h)) && more == parts + [Part(Field(h.name), p.content)]
  }

  /** The last of the parts is a field that was stored under the name of the part behind it. */
  predicate Misfiled(parts: seq<Part>, all: (seq<Part>, Chunk), next: Stat) {
    && (next.FullPart? || next.PartialPart?) && |parts| > 0
    && var k := |parts| - 1;
       && k < |all.0| && parts[..k] == all.0[..k] && all.0[k].header.Field?
       && parts[k] == Part(Field(next.header.name), all.0[k].content)
       && (if k + 1 < |all.0| then all.0[k + 1].header == next.header else !all.1.Done?)
  }

  lemma NextHeader(w: string, r: string, b: string)
    requires NextPart(w, b).Full? || NextPart(w, b).Partial?
    ensures var n := NextPart(w + r, b); !n.Done? && (n.Full? ==> n.header == NextPart(w, b).header)
  {
    hide NextPart, First;
    NextPartExtend(w, r, b);
  }

  lemma MisfiledIs(whole: string, parts: seq<Part>, p: Part, next: Stat, more: seq<Part>, w: string, r: string, b: string)
    requires Progress(whole, parts + [p], w + r, b) && p.header.Field?
    requires NextPart(w, b).Full? || NextPart(w, b).Partial?
    requires next == if NextPart(w, b).Full? then FullPart(NextPart(w, b).header) else PartialPart(NextPart(w, b).header)
    requires more == parts + [Part(Field(next.header.name), p.content)]
    ensures Misfiled(more, AllParts(whole, b), next)
  {
    hide NextPart;
    NextHeader(w, r, b);
    var n := NextPart(w + r, b);
    if !n.Full? { NoMoreParts(w + r, b); }
    var all := AllParts(whole, b).0;
    assert all == (parts + [p]) + AllParts(w + r, b).0;
  }

  class Ecgi {
    const stream: string    // the bytes the descriptor has to give: content_length of them
    const boundary: string
    const answers: int -> int  // what read(2) answers when so many bytes have been read
    const readbuf: array<char>
    var cur: int            // cur_read, as an index into readbuf
    var fill: int
    var contentRead: int
    var maxRead: int
    var part: int

    ghost predicate Valid()
      reads this`cur, this`fill, this`contentRead
    {
      && BoundaryOk(boundary)
      && readbuf.Length == Min(|stream|, BUFSIZE)
      && 0 <= cur && 0 <= fill && cur + fill <= readbuf.Length
      && fill <= contentRead <= |stream|
    }

    ghost function Window(): (w: string)
      requires Valid()
      reads this`cur, this`fill, this`contentRead, readbuf
      ensures |w| == fill
    {
      readbuf[cur..cur + fill]
    }

    /** The window holds the bytes that were read last. */
    ghost predicate Synced()
      requires Valid()
      reads this`cur, this`fill, this`contentRead, readbuf
    {
      Window() == stream[contentRead - fill..contentRead]
    }

    /** The same for the window behind its first `n` bytes. */
    ghost predicate SyncedAfter(n: int)
      requires Valid() && 0 <= n <= fill
      reads this`cur, this`fill, this`contentRead, readbuf
    {
      Window()[n..] == stream[contentRead - fill + n..contentRead]
    }

    /** What has not been consumed: the window and what the descriptor still has to give. */
    ghost function Unread(): string
      requires Valid()
      reads this`cur, this`fill, this`contentRead, readbuf
    {
      Window() + stream[contentRead..]
    }

    constructor (stream: string, boundary: string, answers: int -> int)
      requires BoundaryOk(boundary)
      ensures Valid() && fresh(readbuf) && Synced() && Unread() == stream
      ensures this.stream == stream && this.boundary == boundary && this.answers == answers
      ensures fill == 0 && contentRead == 0 && part == 0
    {
      this.stream := stream;
      this.answers := answers;
      this.boundary := boundary;
      readbuf := new char[Min(|stream|, BUFSIZE)];
      cur, fill, contentRead, maxRead, part := 0, 0, 0, 0, 0;
    }

    method AdvancePointer(len: int)
      requires Valid() && 0 <= len <= fill
      modifies this`cur, this`fill
      ensures Valid() && cur == old(cur) + len && fill == old(fill) - len
      ensures Window() == old(Window())[len..]
      ensures Unread() == old(Unread())[len..]
      ensures old(Synced()) || old(SyncedAfter(len)) ==> Synced()
    {
      cur := cur + len;
      fill := fill - len;
    }

    method MoveToFront()
      requires Valid()
      modifies readbuf, this`cur
      ensures Valid() && Window() == old(Window()) && cur == 0
    {
      ghost var window := Window();
      var from := cur;
      if fill > 0 {
        forall i | 0 <= i < fill { readbuf[i] := readbuf[from + i]; }
      }
      cur := 0;
      assert Window() == window;
    }

    /** The next `n` bytes of the stream are put behind the window. */
    method Append(n: int)
      requires Valid() && Synced() && cur == 0
      requires 0 <= n <= Min(readbuf.Length - fill, |stream| - contentRead)
      modifies readbuf, this`fill, this`contentRead
      ensures Valid() && fill == old(fill) + n && contentRead == old(contentRead) + n
      ensures Window() == old(Window()) + stream[old(contentRead)..contentRead]
    {
      CopyTo(readbuf, fill, stream[contentRead..contentRead + n]);
      JoinSlices(readbuf[..], 0, fill, fill + n);
      fill := fill + n;
      contentRead := contentRead + n;
    }

    twostate lemma AppendKeepsUnread()
      requires old(Valid()) && Valid() && old(Synced()) && old(contentRead) <= contentRead
      requires fill - old(fill) == contentRead - old(contentRead)
      requires Window() == old(Window()) + stream[old(contentRead)..contentRead]
      ensures Synced() && Unread() == old(Unread())
    {
      var taken := stream[old(contentRead)..contentRead];
      JoinSlices(stream, contentRead - fill, old(contentRead), contentRead);
      JoinSlices(stream, old(contentRead), contentRead, |stream|);
      assert old(Window()) + taken + stream[contentRead..] == old(Window()) + (taken + stream[contentRead..]);
    }

    /** What a refill delivers when `read` bytes were read before and the window holds `held`. */
    function RefillAt(read: int, held: int): int {
      var ask := Min(readbuf.Length - held, |stream| - read);
      if ask == 0 then 0 else if answers(read) <= 0 then -1 else Min(answers(read), ask)
    }

    lemma RefillGrows(held: int, less: int)
      requires less <= held <= readbuf.Length && contentRead <= |stream|
      ensures RefillFrom(less) >= 0 ==> RefillAt(contentRead, held) <= RefillFrom(less)
    {
    }

    /** How much a refill asks for when the window holds `held` bytes. */
    function ToRead(held: int): int
      reads this`contentRead
    {
      Min(readbuf.Length - held, |stream| - contentRead)
    }

    /** What that refill delivers; -1 stands for an exception. */
    function RefillFrom(held: int): int
      reads this`contentRead
    {
      RefillAt(contentRead, held)
    }

    function Refill(): int
      reads this`fill, this`contentRead
    {
      RefillFrom(fill)
    }

    /** One refill. */
    method ReadPostPart() returns (n: int)
      requires Valid() && Synced()
      modifies readbuf, this`cur, this`fill, this`contentRead
      ensures Valid() && Synced() && Unread() == old(Unread())
      ensures n == old(Refill())
      ensures contentRead - old(contentRead) == fill - old(fill) == if n < 0 then 0 else n
      ensures cur == 0
    {
      if fill < 0 || fill > readbuf.Length || cur < 0 || cur + fill > readbuf.Length {
        assert false;  // here the source would empty the window
      }
      MoveToFront();
      n := 0;
      if ToRead(fill) > 0 {
        var got := answers(contentRead);
        if got <= 0 { return -1; }
        n := Min(got, ToRead(fill));
      }
      label L:
      Append(n);
      AppendKeepsUnread@L();
    }

    lemma OccursInBuffer(i: nat)
      requires Valid() && i <= fill
      ensures OccursAt(boundary, Window(), i) <==>
              cur + i + |boundary| <= cur + fill && readbuf[cur + i..cur + i + |boundary|] == boundary
    {
      if i + |boundary| <= fill {
        SliceOfSlice(readbuf[..], cur, fill, i, |boundary|);
      }
    }

    /** The offset of the first delimiter in the window. */
    method FindBoundary() returns (found: Option<nat>)
      requires Valid()
      ensures found == First(boundary, Window())
    {
      var pos := cur;
      while pos < cur + fill
        invariant cur <= pos <= cur + fill
        invariant forall i: nat :: i < pos - cur ==> !OccursAt(boundary, Window(), i)
      {
        OccursInBuffer(pos - cur);
        if pos + 1 < cur + fill && readbuf[pos] == '-' && readbuf[pos + 1] == '-' {
          if pos + |boundary| <= cur + fill && readbuf[pos..pos + |boundary|] == boundary {
            FirstIs(boundary, Window(), pos - cur);
            return Some(pos - cur);
          }
          pos := pos + 1;
        } else {
          NoDashes(pos);
          pos := pos + 1;
        }
      }
      NoneIfNowhere(boundary, Window());
      return None;
    }

    lemma NoDashes(pos: int)
      requires Valid() && cur <= pos < cur + fill
      requires !(pos + 1 < cur + fill && readbuf[pos] == '-' && readbuf[pos + 1] == '-')
      ensures !OccursAt(boundary, Window(), pos - cur)
    {
      OccursInBuffer(pos - cur);
      assert boundary[0] == boundary[..2][0] && boundary[1] == boundary[..2][1];
      if pos + |boundary| <= cur + fill {
        var s := readbuf[pos..pos + |boundary|];
        assert s[0] == readbuf[pos] && s[1] == readbuf[pos + 1];
      }
    }

    /** The index of the first printable character of the window. */
    method SkipControl() returns (rp: int)
      requires Valid()
      ensures cur <= rp <= cur + fill && readbuf[rp..cur + fill] == SkipJunk(Window())
    {
      rp := cur;
      while rp < cur + fill && readbuf[rp] < ' '
        invariant cur <= rp <= cur + fill
        invariant SkipJunk(readbuf[rp..cur + fill]) == SkipJunk(Window())
      {
        assert readbuf[rp..cur + fill][1..] == readbuf[rp + 1..cur + fill];
        rp := rp + 1;
      }
    }

    /** The index of the line break that ends a line. */
    method FindLineEnd(from: int) returns (rp: int)
      requires Valid() && cur <= from <= cur + fill
      ensures from <= rp <= cur + fill && readbuf[from..rp] == Upto(readbuf[from..cur + fill], '\r')
    {
      rp := from;
      while rp < cur + fill && readbuf[rp] != '\r'
        invariant from <= rp <= cur + fill
        invariant '\r' !in readbuf[from..rp]
      {
        rp := rp + 1;
      }
      UptoStops(readbuf[from..rp], '\r', readbuf[rp..cur + fill]);
      assert readbuf[from..rp] + readbuf[rp..cur + fill] == readbuf[from..cur + fill];
    }

    /** Two NULs are written at `rp`, and the window starts behind them. */
    method EndLine(rp: int)
      requires Valid() && cur <= rp && rp + 2 <= cur + fill
      modifies readbuf, this`cur, this`fill
      ensures Valid() && cur == rp + 2 && cur + fill == old(cur + fill)
      ensures Window() == old(readbuf[rp + 2..cur + fill])
      ensures old(Synced()) ==> Synced()
    {
      ghost var rest := readbuf[rp + 2..cur + fill];
      ghost var window := Window();
      assert rest == window[rp + 2 - cur..];
      readbuf[rp], readbuf[rp + 1] := NUL, NUL;
      cur, fill := rp + 2, fill - (rp + 2 - cur);
      assert Window() == rest;
    }

    /** The line at the front of the window; its end is overwritten with two NULs. */
    method ReadString() returns (line: Option<string>)
      requires Valid()
      modifies readbuf, this`cur, this`fill
      ensures Valid() && (old(Synced()) ==> Synced())
      ensures line.Some? <==> ReadLine(old(Window())).Some?
      ensures line.Some? ==> fill < old(fill)
      ensures line.Some? ==> ReadLine(old(Window())) == Some((line.value, Window()))
    {
      if fill >= 2 && readbuf[cur] == '\r' && readbuf[cur + 1] == '\n' {
        ghost var w := Window();
        assert w[..2] == CRLF && w[2..] == readbuf[cur + 2..cur + fill];
        EndLine(cur);
        return Some("");
      }
      NotEmptyLine();
      line := ReadTextLine();
    }

    lemma NotEmptyLine()
      requires Valid() && !(fill >= 2 && readbuf[cur] == '\r' && readbuf[cur + 1] == '\n')
      ensures ReadLine(Window()) == ReadText(SkipJunk(Window()))
    {
      var w := Window();
      if fill >= 2 { assert w[..2][0] == readbuf[cur] && w[..2][1] == readbuf[cur + 1]; }
    }

    lemma TextLineIs(lstart: int, rp: int)
      requires Valid() && cur <= lstart <= rp <= cur + fill
      requires readbuf[lstart..rp] == Upto(readbuf[lstart..cur + fill], '\r')
      ensures ReadText(readbuf[lstart..cur + fill]) ==
              if cur + fill < rp + 2 then None else Some((Cut(readbuf[lstart..rp]), readbuf[rp + 2..cur + fill]))
    {
      var t := readbuf[lstart..cur + fill];
      if rp + 2 <= cur + fill { assert t[rp - lstart + 2..] == readbuf[rp + 2..cur + fill]; }
    }

    method ReadTextLine() returns (line: Option<string>)
      requires Valid()
      modifies readbuf, this`cur, this`fill
      ensures Valid() && (old(Synced()) ==> Synced())
      ensures line.Some? <==> ReadText(SkipJunk(old(Window()))).Some?
      ensures line.Some? ==> ReadText(SkipJunk(old(Window()))) == Some((line.value, Window()))
    {
      hide ReadText, SkipJunk, Upto;
      var lstart := SkipControl();
      var rp := FindLineEnd(lstart);
      TextLineIs(lstart, rp);
      if cur + fill < rp + 2 { return None; }
      line := Some(Cut(readbuf[lstart..rp]));
      EndLine(rp);
    }

    /** Header lines up to the empty one. */
    method SkipHeaderBlock() returns (ok: bool)
      requires Valid()
      modifies readbuf, this`cur, this`fill
      ensures Valid() && (old(Synced()) ==> Synced())
      ensures ok <==> SkipHeaders(old(Window())).Some?
      ensures ok ==> Window() == SkipHeaders(old(Window())).value
    {
      var line := ReadString();
      while line.Some? && line.value != ""
        invariant Valid() && (old(Synced()) ==> Synced())
        invariant SkipHeaders(old(Window())) ==
                  if line.None? then None else if line.value == "" then Some(Window()) else SkipHeaders(Window())
        decreases if line.None? then 0 else fill + 1
      {
        line := ReadString();
      }
      ok := line.Some?;
    }

    /** How the reader shows a chunk to the part loop. */
    ghost predicate Shows(stat: Stat, c: Chunk)
      requires Valid()
      reads this, readbuf
    {
      match c
      case Done => stat == Finished
      case Failed(f) => stat == Error(f)
      case Partial(h, body) => stat == PartialPart(h) && Window() == body && maxRead == HeldBack(fill)
      case Full(h, content, rest) =>
        && stat == FullPart(h) && maxRead == |content| && maxRead + 2 <= fill
        && Window()[..maxRead] == content && Window()[maxRead] == NUL && Window()[maxRead + 2..] == rest
    }

    /** When the chunk was read from a window in step with the stream, what is left is in step with it. */
    ghost predicate InStep(stat: Stat)
      requires Valid()
      reads this, readbuf
    {
      && (stat.PartialPart? ==> Synced())
      && (stat.FullPart? ==> 0 <= maxRead && maxRead + 2 <= fill && SyncedAfter(maxRead + 2))
    }

    /** A delimiter at `end`: the content is closed with a NUL. */
    method CutContent(header: Header, end: int) returns (stat: Stat)
      requires Valid() && First(boundary, Window()) == Some(end)
      modifies readbuf, this`maxRead
      ensures Valid() && (old(Synced()) ==> InStep(stat))
      ensures end < 2 ==> stat == Error(NegativeRead)
      ensures end >= 2 ==> Shows(stat, Full(header, old(Window())[..end - 2], old(Window())[end..]))
    {
      ghost var w := Window();
      maxRead := end - 2;
      if maxRead < 0 { return Error(NegativeRead); }
      readbuf[cur + maxRead] := NUL;
      assert Window() == w[maxRead := NUL];
      stat := FullPart(header);
    }

    /** After the header block: how much of the window belongs to the part. */
    method MeasureBody(header: Header) returns (stat: Stat)
      requires Valid()
      modifies readbuf, this`maxRead
      ensures Valid() && (old(Synced()) ==> InStep(stat))
      ensures Shows(stat, Ended(header, old(Window()), boundary))
    {
      var end := FindBoundary();
      if end.Some? {
        stat := CutContent(header, end.value);
      } else {
        maxRead := if fill - MARGIN > 0 then fill - MARGIN else 0;
        stat := PartialPart(header);
      }
    }

    method ReadBody(header: Header) returns (stat: Stat)
      requires Valid()
      modifies readbuf, this`cur, this`fill, this`maxRead
      ensures Valid() && (old(Synced()) ==> InStep(stat))
      ensures Shows(stat, PartBody(header, old(Window()), boundary))
    {
      var ok := SkipHeaderBlock();
      if !ok { return Error(Unbuffered); }
      stat := MeasureBody(header);
    }

    /** After a delimiter: the closing mark, or the header lines of a part. */
    method AfterBoundary() returns (stat: Stat)
      requires Valid()
      modifies readbuf, this`cur, this`fill, this`maxRead
      ensures Valid() && (old(Synced()) ==> InStep(stat))
      ensures Shows(stat, AfterDelimiter(old(Window()), boundary))
    {
      ghost var v := Window();
      if fill > 3 && readbuf[cur] == '-' && readbuf[cur + 1] == '-' && readbuf[cur + 2] == '\r' && readbuf[cur + 3] == '\n' {
        assert v[..4] == "--\r\n";
        return Finished;
      }
      NotClosing();
      if fill < 2 { return Error(Unbuffered); }
      AdvancePointer(2);
      var line := ReadString();
      if line.None? { return Error(Unbuffered); }
      var disposition := ParseDisposition(line.value);
      if disposition.Bad? { return Error(disposition.failure); }
      stat := ReadBody(disposition.header);
    }

    lemma NotClosing()
      requires Valid()
      requires !(fill > 3 && readbuf[cur] == '-' && readbuf[cur + 1] == '-' && readbuf[cur + 2] == '\r' && readbuf[cur + 3] == '\n')
      ensures !("--\r\n" <= Window())
    {
      var w := Window();
      if fill > 3 {
        assert w[..4][0] == readbuf[cur] && w[..4][1] == readbuf[cur + 1];
        assert w[..4][2] == readbuf[cur + 2] && w[..4][3] == readbuf[cur + 3];
      }
    }

    /** The window is moved behind its first delimiter. */
    method SkipBoundary() returns (found: bool)
      requires Valid()
      modifies this`cur, this`fill
      ensures Valid() && (old(Synced()) ==> Synced())
      ensures found == First(boundary, old(Window())).Some?
      ensures found ==> Window() == old(Window())[First(boundary, old(Window())).value + |boundary|..]
    {
      var pos := FindBoundary();
      if pos.None? { return false; }
      AdvancePointer(|boundary| + pos.value);
      found := true;
    }

    /** Shows(stat, NextPart(w, boundary)), by cases: see AnswersIsShows. */
    ghost predicate Answers(stat: Stat, w: string)
      requires Valid()
      reads this, readbuf
    {
      match First(boundary, w)
      case None => stat == Error(BoundaryNotFound)
      case Some(d) => Shows(stat, AfterDelimiter(w[d + |boundary|..], boundary))
    }

    lemma AnswersIsShows(stat: Stat, w: string)
      requires Valid()
      ensures Answers(stat, w) <==> Shows(stat, NextPart(w, boundary))
    {
    }

    /** processChunk at the start of a part. */
    method StartOfField() returns (stat: Stat)
      requires Valid()
      modifies readbuf, this`cur, this`fill, this`maxRead, this`part
      ensures Valid() && (old(Synced()) ==> InStep(stat))
      ensures Answers(stat, old(Window()))
      ensures part == old(part) + if First(boundary, old(Window())).Some? then 1 else 0
    {
      var found := SkipBoundary();
      if !found { return Error(BoundaryNotFound); }
      part := part + 1;
      stat := AfterBoundary();
    }

    /** processChunk in the middle of a part. */
    method InField() returns (n: int, found: bool)
      requires Valid() && Synced()
      modifies readbuf, this`cur, this`fill, this`contentRead, this`maxRead
      ensures Valid() && Synced() && Unread() == old(Unread())
      ensures n == old(Refill())
      ensures contentRead - old(contentRead) == fill - old(fill) == if n < 0 then 0 else n
      ensures n < 0 ==> !found
      ensures n >= 0 && found ==> First(boundary, Window()) == Some(maxRead + 2)
      ensures n >= 0 && !found ==> First(boundary, Window()) == None && maxRead == fill - MARGIN
    {
      hide First, RefillFrom, Window, Unread;
      n := ReadPostPart();
      if n < 0 { return n, false; }
      var end := FindBoundary();
      found := end.Some?;
      if found {
        var offset: int := end.value;
        maxRead := offset - 2;
      } else {
        maxRead := fill - MARGIN;
      }
    }

    /** The next piece is written out. */
    method TakePiece() returns (piece: string)
      requires Valid() && 0 <= maxRead <= fill
      modifies this`cur, this`fill
      ensures Valid() && fill == old(fill) - maxRead
      ensures piece == old(Unread())[..maxRead] && Unread() == old(Unread())[maxRead..]
      ensures Window() == old(Window())[maxRead..]
      ensures old(Synced()) ==> Synced()
    {
      piece := readbuf[cur..cur + maxRead];
      assert piece == Window()[..maxRead] == Unread()[..maxRead];
      AdvancePointer(maxRead);
    }

    /** Taking maxRead bytes leaves the line break of the next delimiter. */
    ghost predicate Behind()
      requires Valid()
      reads this`cur, this`fill, this`contentRead, this`maxRead, readbuf
    {
      First(boundary, Unread()).Some? ==> maxRead + 2 <= First(boundary, Unread()).value
    }

    /** A full margin keeps the line break back. */
    lemma MarginKeepsBehind()
      requires Valid() && |boundary| < MARGIN
      requires First(boundary, Window()).None? && maxRead == fill - MARGIN
      ensures Behind()
    {
      if First(boundary, Unread()).Some? { MarginSuffices(boundary, Window(), stream[contentRead..]); }
    }

    lemma FoundIsBehind()
      requires Valid() && First(boundary, Window()) == Some(maxRead + 2)
      ensures First(boundary, Unread()) == Some(maxRead + 2)
    {
      InWindow(boundary, Window(), stream[contentRead..]);
    }

    lemma AllInWindow()
      requires Valid() && contentRead == |stream|
      ensures Unread() == Window()
    {
      assert stream[contentRead..] == "";
    }

    /** Of the unread text `u0`, `out` was written, and the rest is unread. */
    ghost predicate Taken(u0: string, out: string)
      reads this`cur, this`fill, this`contentRead, readbuf
    {
      Valid() && Synced() && CutOff(u0, out, Unread(), boundary)
    }

    /** The window shows no delimiter, and maxRead bytes of it may be written. */
    ghost predicate Open()
      requires Valid()
      reads this`cur, this`fill, this`contentRead, this`maxRead, readbuf
    {
      && First(boundary, Window()).None? && maxRead == HeldBack(fill)
      && (maxRead > 0 ==> Behind())
    }

    /** The window shows the delimiter, two bytes behind what may be written. */
    ghost predicate Closing()
      requires Valid()
      reads this`cur, this`fill, this`contentRead, this`maxRead, readbuf
    {
      First(boundary, Window()) == First(boundary, Unread()) == Some(maxRead + 2)
    }

    method WritePiece(ghost u0: string, out: string) returns (more: string)
      requires Taken(u0, out) && 0 <= maxRead <= fill
      requires maxRead > 0 ==> Behind()
      modifies this`cur, this`fill
      ensures Taken(u0, more) && Unread() == old(Unread())[maxRead..] && fill == old(fill) - maxRead
      ensures Window() == old(Window())[maxRead..]
      ensures more == out + old(Unread())[..maxRead]
      ensures old(Behind()) ==> First(boundary, Unread()).Some? ==> First(boundary, Unread()).value >= 2
    {
      CutMore(u0, out, Unread(), maxRead, boundary);
      var piece := TakePiece();
      more := out + piece;
    }

    /**
     With `body` in the window, the next refill makes max_read negative: it leaves fewer bytes than the
     margin and no whole delimiter, or the delimiter is closer than the line break in front of it.
     */
    ghost predicate SoonFrom(body: string)
      requires 0 <= contentRead <= |stream|
      reads this`contentRead
    {
      var u, n := body + stream[contentRead..], RefillFrom(|body|);
      && n >= 0
      && (|| (First(boundary, u).Some? && First(boundary, u).value < 2)
          || (|body| + n < MARGIN && |body| + n <= |u| && First(boundary, u[..|body| + n]).None?))
    }

    ghost predicate TooSoon()
      requires Valid()
      reads this`cur, this`fill, this`contentRead, readbuf
    {
      SoonFrom(Window())
    }

    /** No bytes are left, the margin is what the window holds, and it holds no delimiter. */
    ghost predicate Stalled()
      requires Valid()
      reads this`cur, this`fill, this`contentRead, this`maxRead, readbuf
    {
      && contentRead == |stream| && fill == MARGIN && maxRead == 0
      && First(boundary, Window()).None? && First(boundary, Unread()).None?
    }

    /** What the window shows after a refill. */
    lemma WindowAfter(unread: string, filled: int)
      requires Valid() && Unread() == unread && filled == fill
      ensures Window() == unread[..filled]
    {
    }

    /** What the answer of a refill says about the state before it. */
    twostate lemma SoonIff(found: bool)
      requires old(Valid()) && Valid() && Unread() == old(Unread()) && old(Refill()) >= 0 && |boundary| < MARGIN
      requires fill == old(fill) + old(Refill())
      requires found ==> First(boundary, Window()) == Some(maxRead + 2)
      requires !found ==> First(boundary, Window()) == None && maxRead == fill - MARGIN
      ensures maxRead < 0 <==> old(TooSoon())
    {
      WindowAfter(Unread(), fill);
      if found { FoundIsBehind(); } else { NotTooSoon(Unread()); }
    }

    /** A refill with the margin in the window and no delimiter. */
    lemma MayWrite()
      requires Valid() && |boundary| < MARGIN
      requires First(boundary, Window()).None? && maxRead == fill - MARGIN >= 0
      ensures Open() && !TooSoon()
      ensures contentRead == |stream| && maxRead == 0 ==> Stalled()
    {
      MarginKeepsBehind();
      NotTooSoon(Unread());
      LateEnough();
      if contentRead == |stream| { AllInWindow(); }
    }

    /** processChunk after a piece, and what the loop does with its answer. */
    method LookFurther(ghost u0: string, out: string) returns (going: bool, how: Pieces)
      requires Taken(u0, out) && fill <= MARGIN && |boundary| < MARGIN
      modifies readbuf, this`cur, this`fill, this`contentRead, this`maxRead
      ensures Taken(u0, out)
      ensures going ==> Open() && !TooSoon() && contentRead > old(contentRead)
      ensures !going ==> Settled(how) && contentRead >= old(contentRead)
      ensures !going && how.NoRead? ==> answers(contentRead) <= 0
      ensures !going && how.Negative? <==> old(TooSoon())
      ensures going || !how.NoRead? ==> contentRead == old(contentRead) + old(Refill())
    {
      hide First, TooSoon, CutOff, Stalled, Open;
      var n, found := InField();
      if n < 0 {
        NoneYet();
        return false, NoRead;
      }
      SoonIff(found);
      if found {
        FoundIsBehind();
        return false, if maxRead < 0 then Negative else Complete;
      }
      if maxRead < 0 { return false, Negative; }
      MayWrite();
      if contentRead == |stream| && maxRead == 0 { return false, Stuck; }
      return true, Complete;
    }

    twostate lemma NoneYet()
      requires old(Valid()) && Valid() && old(Refill()) < 0
      ensures !old(TooSoon())
    {
    }

    /** A delimiter that starts within two bytes is whole in a window as long as the margin. */
    lemma NotTooSoon(u: string)
      requires Valid() && |boundary| < MARGIN && First(boundary, Window()).None? && u == Unread()
      ensures fill >= MARGIN && First(boundary, u).Some? ==> First(boundary, u).value >= 2
    {
      if First(boundary, u).Some? { NotInWindow(boundary, Window(), stream[contentRead..], First(boundary, u).value); }
    }

    ghost predicate Settled(how: Pieces)
      requires Valid()
      reads this`cur, this`fill, this`contentRead, this`maxRead, readbuf
    {
      match how
      case Complete => Closing() && maxRead >= 0
      case Stuck => Stalled()
      case NoRead => contentRead < |stream|
      case Negative => true
    }

    /** The last piece, after which the delimiter follows its line break. */
    method WriteLast(ghost u0: string, out: string) returns (more: string)
      requires Taken(u0, out) && Closing() && maxRead >= 0
      modifies this`cur, this`fill
      ensures Taken(u0, more) && First(boundary, Unread()) == First(boundary, Window()) == Some(2)
    {
      hide First;
      ghost var w, u := Window(), Unread();
      more := WritePiece(u0, out);
      FirstInTail(w, maxRead + 2, maxRead, Window(), boundary);
      FirstInTail(u, maxRead + 2, maxRead, Unread(), boundary);
    }

    lemma NothingTaken()
      requires Valid() && Synced() && |boundary| < MARGIN
      requires First(boundary, Window()).None? && maxRead == HeldBack(fill)
      ensures Taken(Unread(), "") && Open()
    {
      assert "" + Unread() == Unread();
      if maxRead > 0 { MarginKeepsBehind(); }
    }

    /** With the margin in the window, max_read cannot become negative. */
    lemma LateEnough()
      requires Valid() && fill >= MARGIN
      requires First(boundary, Unread()).Some? ==> First(boundary, Unread()).value >= 2
      ensures !TooSoon()
    {
    }

    /** The loop over the pieces of a part whose end is not in the window. */
    method TakePieces() returns (out: string, how: Pieces)
      requires Valid() && Synced() && |boundary| < MARGIN
      requires First(boundary, Window()).None? && maxRead == HeldBack(fill)
      modifies readbuf, this`cur, this`fill, this`contentRead, this`maxRead
      ensures Taken(old(Unread()), out)
      ensures how.Complete? ==> First(boundary, Unread()) == First(boundary, Window()) == Some(2)
      ensures how.Stuck? ==> Stalled()
      ensures how.Negative? <==> old(TooSoon())
      ensures how.NoRead? ==> answers(contentRead) <= 0 && contentRead < |stream|
      ensures !how.NoRead? ==> (how.Stuck? <==> old(First(boundary, Unread())).None? && !old(TooSoon()))
      ensures Eager() ==> (how.Stuck? <==> old(First(boundary, Unread())).None? && |old(Unread())| >= MARGIN)
      ensures contentRead >= old(contentRead) && (!how.NoRead? ==> contentRead >= old(contentRead + Refill()))
    {
      hide First, TooSoon, Open, Stalled, Closing;
      ghost var u0, soon, start, held := Unread(), TooSoon(), contentRead, fill;
      out := "";
      how := Complete;
      var going := true;
      NothingTaken();
      if Eager() { EagerTooSoon(); }
      while going
        invariant Taken(u0, out) && contentRead >= old(contentRead)
        invariant going ==> Open() && TooSoon() == soon
        invariant !going ==> Settled(how) && (how.Negative? <==> soon)
        invariant !going && how.NoRead? ==> answers(contentRead) <= 0
        invariant (contentRead == start && fill <= held && going) || (!going && how.NoRead?) || contentRead >= start + RefillAt(start, held)
        decreases going, |stream| - contentRead
      {
        out := WriteOpen(u0, out);
        if contentRead == start && fill <= held { RefillGrows(held, fill); }
        going, how := LookFurther(u0, out);
      }
      if how.Complete? { out := WriteLast(u0, out); }
      StuckIsOpen(how);
    }

    lemma StuckIsOpen(how: Pieces)
      requires Valid() && (how.Stuck? ==> Stalled())
      ensures how.Stuck? ==> First(boundary, Unread()).None?
    {
    }

    twostate lemma AsSoon()
      requires old(Valid()) && Valid()
      requires Unread() == old(Unread()) && fill == old(fill) && contentRead == old(contentRead)
      ensures TooSoon() == old(TooSoon())
    {
    }

    /** A piece of an open part; whether the next refill comes too soon is as before. */
    method WriteOpen(ghost u0: string, out: string) returns (more: string)
      requires Taken(u0, out) && Open() && |boundary| < MARGIN
      modifies this`cur, this`fill
      ensures Taken(u0, more) && fill <= MARGIN && TooSoon() == old(TooSoon()) && fill <= old(fill)
    {
      hide First, TooSoon;
      ghost var u := Unread();
      if maxRead == 0 {
        more := WritePiece(u0, out);
        assert Unread() == u && more == out;
        AsSoon();
      } else {
        NotTooSoon(u);
        LateEnough();
        more := WritePiece(u0, out);
        LateEnough();
      }
    }

    /** One turn of the loop from a stalled state: it writes nothing, reads nothing and changes nothing. */
    method StalledTurn() returns (piece: string, n: int, found: bool)
      requires Valid() && Synced() && Stalled()
      modifies readbuf, this`cur, this`fill, this`contentRead, this`maxRead
      ensures piece == "" && n == 0 && !found
      ensures Valid() && Synced() && Stalled()
      ensures Window() == old(Window()) && Unread() == old(Unread())
    {
      ghost var u := Unread();
      piece := TakePiece();
      assert Unread() == u;
      n, found := InField();
      AllInWindow();
    }

    /** However often the loop turns. */
    method StallsForEver(turns: nat) returns (out: string)
      requires Valid() && Synced() && Stalled()
      modifies readbuf, this`cur, this`fill, this`contentRead, this`maxRead
      ensures out == "" && Valid() && Synced() && Stalled() && Window() == old(Window())
    {
      out := "";
      for i := 0 to turns
        invariant out == "" && Valid() && Synced() && Stalled() && Window() == old(Window())
      {
        var piece, n, found := StalledTurn();
        out := out + piece;
      }
    }

    /** Every read delivers what it is asked for. */
    ghost predicate Eager() {
      forall p :: answers(p) >= BUFSIZE
    }

    /** When reads deliver in full, the next refill comes too soon for a part without end exactly when few bytes are left. */
    lemma EagerTooSoon()
      requires Valid() && Eager()
      ensures First(boundary, Unread()).None? ==> (TooSoon() <==> |Unread()| < MARGIN)
    {
      assert answers(contentRead) >= BUFSIZE;
      if |Unread()| < MARGIN {
        assert Unread()[..fill + Refill()] == Unread();
      }
    }

    /** The unread text continues the parts that were collected. */
    ghost predicate Ready(parts: seq<Part>)
      reads this`cur, this`fill, this`contentRead, readbuf
    {
      Valid() && Synced() && Progress(stream, parts, Unread(), boundary)
    }

    /** Writing out a part that is wholly in the window. */
    method TakeFull() returns (content: string)
      requires Valid() && 0 <= maxRead && maxRead + 2 <= fill && SyncedAfter(maxRead + 2)
      modifies this`cur, this`fill
      ensures Valid() && Synced()
      ensures content == old(Window())[..maxRead] && Window() == old(Window())[maxRead + 2..]
    {
      content := readbuf[cur..cur + maxRead];
      assert content == Window()[..maxRead];
      AdvancePointer(maxRead + 2);
    }

    /** Writing out a file whose end is further down the stream. */
    method TakePartial(header: Header, parts: seq<Part>, ghost w: string, ghost r: string) returns (more: seq<Part>, end: Option<End>)
      requires Valid() && Synced() && |boundary| < MARGIN && header.File?
      requires NextPart(w, boundary) == Partial(header, Window()) && maxRead == HeldBack(fill)
      requires r == stream[contentRead..] && Progress(stream, parts, w + r, boundary)
      modifies readbuf, this`cur, this`fill, this`contentRead, this`maxRead
      ensures Valid()
      ensures end.None? ==> Ready(more) && |Unread()| <= old(|Unread()|)
      ensures end.Some? ==> more == parts && !end.value.AllRead? && !end.value.LongField?
      ensures end == Some(Endless) ==> EndsOpen()
      ensures end == Some(ReadFailed) ==> exists p :: answers(p) <= 0
      ensures r == "" ==> end == Some(EndOf(Partial(header, old(Window()))))
    {
      hide First, NextPart, AllParts, TooSoon;
      StillOpen(header, w);
      if r == "" { OpenWhole(); }
      var out, how := TakePieces();
      if !how.Complete? {
        if how.Stuck? { StepEndless(stream, parts, w, r, boundary, out, Unread()); }
        return parts, Some(Stopped(how));
      }
      StepPartial(stream, parts, w, r, boundary, out, Unread());
      more := parts + [Part(header, out)];
      end := None;
    }

    /**
     Reading a field whose end is further down the stream.  The loop leaves it only behind the header
     of the next part, and then stores the value under the name that was read last.
     */
    method TakeLongField(header: Header, parts: seq<Part>, ghost w: string, ghost r: string)
      returns (more: seq<Part>, end: End, ghost behind: string)
      requires Valid() && Synced() && |boundary| < MARGIN && header.Field?
      requires NextPart(w, boundary) == Partial(header, Window()) && maxRead == HeldBack(fill)
      requires r == stream[contentRead..] && Progress(stream, parts, w + r, boundary)
      modifies readbuf, this`cur, this`fill, this`contentRead, this`maxRead, this`part
      ensures Valid() && Outcome(parts, header, old(Window()), r, old(TooSoon()), more, end, behind, Rest())
      ensures end.AllRead? ==> AllParts(stream, boundary) == (more, Done)
      ensures end.LongField? ==> Late(end.next, behind) && Misfiled(more, AllParts(stream, boundary), end.next)
      ensures end.Endless? ==> EndsOpen()
      ensures r == "" ==> more == parts && end == EndOf(Partial(header, old(Window())))
      ensures contentRead >= old(contentRead) && (!end.ReadFailed? ==> contentRead >= old(contentRead + Refill()))
    {
      hide First, NextPart, AllParts, TooSoon, Stored, Misfiled, Outcome, EndOf, CutOff, Late, EndsOpen, Progress;
      ghost var body, u, soon := Window(), Unread(), TooSoon();
      var value, how := ReadLong(header, parts, w, r);
      behind := "";
      if !how.Complete? {
        NotTaken(parts, header, body, r, soon, how, Stopped(how), Rest());
        return parts, Stopped(how), behind;
      }
      behind := Window();
      more, end := FileLate(header, parts, value);
      Collected(parts, header, body, r, soon, value, more, end, behind, Rest());
    }

    /** The pieces of a long field. */
    method ReadLong(header: Header, parts: seq<Part>, ghost w: string, ghost r: string) returns (value: string, how: Pieces)
      requires Valid() && Synced() && |boundary| < MARGIN && header.Field?
      requires NextPart(w, boundary) == Partial(header, Window()) && maxRead == HeldBack(fill)
      requires r == stream[contentRead..] && Progress(stream, parts, w + r, boundary)
      modifies readbuf, this`cur, this`fill, this`contentRead, this`maxRead
      ensures Valid() && Synced()
      ensures how.NoRead? ==> exists p :: answers(p) <= 0
      ensures !how.NoRead? ==> (how.Negative? <==> old(TooSoon())) && (how.Stuck? <==> old(First(boundary, Unread())).None? && !old(TooSoon()))
      ensures how.Stuck? ==> EndsOpen()
      ensures how.Complete? ==>
                && Progress(stream, parts + [Part(header, value)], Unread(), boundary)
                && old(First(boundary, Unread())) == Some(|value| + 2) && |value| + 2 <= old(|Unread()|)
                && value == old(Unread())[..|value|] && Unread() == old(Unread())[|value|..] && !old(TooSoon())
      ensures r == "" ==> !how.Complete? && Stopped(how) == EndOf(Partial(header, old(Window())))
      ensures contentRead >= old(contentRead) && (!how.NoRead? ==> contentRead >= old(contentRead + Refill()))
    {
      hide First, NextPart, AllParts, TooSoon, EndOf;
      ghost var u, soon := Unread(), TooSoon();
      StillOpen(header, w);
      if r == "" { OpenIsDecided(header, soon); }
      value, how := TakePieces();
      if how.Stuck? { EndlessIs(header, parts, w, r, value); }
      if how.Complete? {
        StepPartial(stream, parts, w, r, boundary, value, Unread());
        ValueIs(u, value, Unread());
      }
    }

    lemma OpenIsDecided(header: Header, soon: bool)
      requires Valid() && stream[contentRead..] == "" && First(boundary, Window()).None? && soon == TooSoon()
      ensures First(boundary, Unread()).None? && Refill() == 0
      ensures EndOf(Partial(header, Window())) == if soon then Broken(NegativeRead) else Endless
    {
      OpenWhole();
    }

    lemma EndlessIs(header: Header, parts: seq<Part>, w: string, r: string, out: string)
      requires Valid() && NextPart(w, boundary).Partial? && Progress(stream, parts, w + r, boundary)
      requires CutOff(NextPart(w, boundary).body + r, out, Unread(), boundary) && Stalled()
      ensures EndsOpen()
    {
      hide NextPart, AllParts, First;
      StepEndless(stream, parts, w, r, boundary, out, Unread());
    }

    lemma Collected(parts: seq<Part>, header: Header, body: string, rest: string, soon: bool, value: string,
                    more: seq<Part>, end: End, behind: string, left: string)
      requires !soon && First(boundary, body + rest) == Some(|value| + 2) && |value| + 2 <= |body + rest|
      requires value == (body + rest)[..|value|] && behind + left == (body + rest)[|value|..]
      requires Stored(parts, Part(header, value), NextPart(behind, boundary), more, end)
      ensures Outcome(parts, header, body, rest, soon, more, end, behind, left)
    {
      hide First, NextPart;
    }

    /** processChunk behind the value, and the name that is then stored with it. */
    method FileLate(header: Header, parts: seq<Part>, value: string) returns (more: seq<Part>, end: End)
      requires Valid() && Synced() && header.Field? && Progress(stream, parts + [Part(header, value)], Unread(), boundary)
      modifies readbuf, this`cur, this`fill, this`maxRead, this`part
      ensures Stored(parts, Part(header, value), NextPart(old(Window()), boundary), more, end)
      ensures end.AllRead? ==> AllParts(stream, boundary) == (more, Done)
      ensures end.LongField? ==> Late(end.next, old(Window())) && Misfiled(more, AllParts(stream, boundary), end.next)
      ensures Valid() && !end.Endless? && !end.ReadFailed?
    {
      hide NextPart, First, AllParts, Misfiled, Stored, Shows, InStep, Answers, Progress;
      ghost var behind, rest := Window(), Rest();
      var stat := StartOfField();
      AnswersIsShows(stat, behind);
      more, end := StoreLate(parts, header, value, stat);
      StoredLate(parts, Part(header, value), stat, more, end, behind, rest);
    }

    /** After the value: the closing mark has no name, so that the name is still the field's own. */
    method StoreLate(parts: seq<Part>, header: Header, value: string, stat: Stat) returns (more: seq<Part>, end: End)
      requires header.Field?
      ensures more == (if stat.Error? then parts else parts + [Part(if stat.Finished? then header else Field(stat.header.name), value)])
      ensures end == if stat.Error? then Broken(stat.failure) else if stat.Finished? then AllRead else LongField(stat)
    {
      if stat.Error? { return parts, Broken(stat.failure); }
      var name := header.name;
      if !stat.Finished? { name := stat.header.name; }
      more := parts + [Part(Field(name), value)];
      end := if stat.Finished? then AllRead else LongField(stat);
    }

    lemma StoredLate(parts: seq<Part>, p: Part, stat: Stat, more: seq<Part>, end: End, behind: string, rest: string)
      requires Valid() && Progress(stream, parts + [p], behind + rest, boundary) && Shows(stat, NextPart(behind, boundary))
      requires p.header.Field?
      requires more == (if stat.Error? then parts else parts + [Part(if stat.Finished? then p.header else Field(stat.header.name), p.content)])
      requires end == if stat.Error? then Broken(stat.failure) else if stat.Finished? then AllRead else LongField(stat)
      ensures Stored(parts, p, NextPart(behind, boundary), more, end)
      ensures end.AllRead? ==> AllParts(stream, boundary) == (more, Done)
      ensures end.LongField? ==> Misfiled(more, AllParts(stream, boundary), end.next)
    {
      hide NextPart, AllParts, Misfiled;
      var c := NextPart(behind, boundary);
      if c.Done? {
        StepDone(stream, parts + [p], behind, rest, boundary);
      } else if !c.Failed? {
        MisfiledIs(stream, parts, p, stat, more, behind, rest, boundary);
      }
    }

    /** The chunk `next` was read from `behind` and is still to be handled. */
    ghost predicate Late(next: Stat, behind: string)
      reads this, readbuf
    {
      Valid() && InStep(next) && (next.FullPart? || next.PartialPart?) && Shows(next, NextPart(behind, boundary))
    }

    /**
     A field whose content starts with `body` and goes on with `rest`: what was collected, how the run
     goes on, and from where it has read the header of the next part.
     */
    ghost predicate Outcome(parts: seq<Part>, header: Header, body: string, rest: string, soon: bool,
                            more: seq<Part>, end: End, behind: string, left: string) {
      if end.ReadFailed? then more == parts && exists p :: answers(p) <= 0
      else if soon then more == parts && end == Broken(NegativeRead)
      else
        match First(boundary, body + rest)
        case None => more == parts && end == Endless
        case Some(e) =>
          && 2 <= e <= |body + rest| && behind + left == (body + rest)[e - 2..]
          && Stored(parts, Part(header, (body + rest)[..e - 2]), NextPart(behind, boundary), more, end)
    }

    lemma NotTaken(parts: seq<Part>, header: Header, body: string, rest: string, soon: bool, how: Pieces, end: End, left: string)
      requires !how.Complete? && end == Stopped(how)
      requires how.NoRead? ==> exists p :: answers(p) <= 0
      requires !how.NoRead? ==> (how.Negative? <==> soon) && (how.Stuck? <==> First(boundary, body + rest).None? && !soon)
      ensures Outcome(parts, header, body, rest, soon, parts, end, "", left)
    {
    }

    lemma ValueIs(u: string, value: string, left: string)
      requires CutOff(u, value, left, boundary) && First(boundary, left) == Some(2)
      ensures First(boundary, u) == Some(|value| + 2) && |value| + 2 <= |u| && value == u[..|value|] && left == u[|value|..]
    {
    }

    /** How the run stops in the middle of a part. */
    function Stopped(how: Pieces): End
      requires !how.Complete?
    {
      if how.NoRead? then ReadFailed else if how.Negative? then Broken(NegativeRead) else Endless
    }

    /** The stream ends in a part without a delimiter, with at least the margin of content. */
    ghost predicate EndsOpen() {
      AllParts(stream, boundary).1.Partial? && |AllParts(stream, boundary).1.body| >= MARGIN
    }

    /** A part without end that is all there is. */
    lemma OpenWhole()
      requires Valid() && stream[contentRead..] == "" && First(boundary, Window()).None?
      ensures First(boundary, Unread()).None? && Refill() == 0
      ensures TooSoon() <==> fill < MARGIN
    {
      AllInWindow();
      assert Unread()[..fill] == Window();
    }

    lemma StillOpen(header: Header, w: string)
      requires Valid() && NextPart(w, boundary) == Partial(header, Window())
      ensures First(boundary, Window()).None?
    {
      PartialIsOpen(w, boundary);
    }

    /** The bytes behind the window. */
    ghost function Rest(): string
      requires Valid()
      reads this`cur, this`fill, this`contentRead
    {
      stream[contentRead..]
    }

    /** A chunk that ends the run. */
    lemma StopIs(parts: seq<Part>, stat: Stat, w: string, r: string)
      requires Valid() && Progress(stream, parts, w + r, boundary) && Shows(stat, NextPart(w, boundary))
      ensures stat.Finished? ==> AllParts(stream, boundary) == (parts, Done)
      ensures r == "" && !stat.FullPart? ==> AllParts(stream, boundary) == (parts, NextPart(w, boundary))
    {
      if stat.Finished? { StepDone(stream, parts, w, r, boundary); }
      if r == "" && !stat.FullPart? {
        assert w + r == w;
        EndProgress(stream, parts, w, boundary);
      }
    }

    /** A part that is wholly in the window. */
    method AddFull(header: Header, parts: seq<Part>, ghost w: string, ghost r: string) returns (more: seq<Part>)
      requires Valid() && r == stream[contentRead..] && Progress(stream, parts, w + r, boundary)
      requires Shows(FullPart(header), NextPart(w, boundary)) && InStep(FullPart(header))
      modifies this`cur, this`fill
      ensures Ready(more) && |Unread()| < |w + r|
    {
      hide NextPart;
      StepFull(stream, parts, w, r, boundary);
      var content := TakeFull();
      more := parts + [Part(header, content)];
    }

    /** When nothing is behind the window, where and how the run ends is decided by the window. */
    ghost predicate DecidedBy(parts: seq<Part>, end: End) {
      parts == AllParts(stream, boundary).0 && end == EndOf(AllParts(stream, boundary).1)
    }

    /** What the turn meets is a field whose end is not in the window. */
    ghost predicate LongAhead()
      requires Valid()
      reads this`cur, this`fill, this`contentRead, readbuf
    {
      NextPart(Window(), boundary).Partial? && NextPart(Window(), boundary).header.Field?
    }

    /** Its header, and as much of it as the window holds. */
    ghost function Ahead(): (c: Chunk)
      requires Valid()
      reads this`cur, this`fill, this`contentRead, readbuf
      ensures LongAhead() ==> c.Partial?
    {
      NextPart(Window(), boundary)
    }

    /** A part that is not wholly in the window. */
    method TakeOpen(header: Header, parts: seq<Part>, ghost w: string, ghost r: string)
      returns (more: seq<Part>, end: Option<End>, ghost behind: string)
      requires Valid() && Synced() && |boundary| < MARGIN
      requires NextPart(w, boundary) == Partial(header, Window()) && maxRead == HeldBack(fill)
      requires r == stream[contentRead..] && Progress(stream, parts, w + r, boundary)
      modifies readbuf, this`cur, this`fill, this`contentRead, this`maxRead, this`part
      ensures Valid()
      ensures end.None? ==> Ready(more) && |Unread()| <= old(|Unread()|)
      ensures end.Some? ==> Closed(parts, more, end.value, behind)
      ensures r == "" ==> more == parts && end == Some(EndOf(Partial(header, old(Window()))))
      ensures header.Field? ==>
                end.Some? && Outcome(parts, header, old(Window()), r, old(TooSoon()), more, end.value, behind, Rest())
      ensures header.File? ==> end.None? || !end.value.LongField?
      ensures header.Field? && !end.value.ReadFailed? ==> contentRead >= old(contentRead + Refill())
    {
      hide NextPart, First, AllParts, TooSoon, Misfiled, Outcome, EndOf, Late, EndsOpen;
      behind := "";
      if header.File? {
        more, end := TakePartial(header, parts, w, r);
      } else {
        var stop;
        more, stop, behind := TakeLongField(header, parts, w, r);
        end := Some(stop);
        if !stop.AllRead? && !stop.LongField? {
          NothingMore(parts, header, old(Window()), r, old(TooSoon()), more, stop, behind, Rest());
        }
      }
    }

    lemma NothingMore(parts: seq<Part>, header: Header, body: string, rest: string, soon: bool,
                      more: seq<Part>, end: End, behind: string, left: string)
      requires Outcome(parts, header, body, rest, soon, more, end, behind, left) && !end.AllRead? && !end.LongField?
      ensures more == parts && (end.ReadFailed? ==> exists p :: answers(p) <= 0)
    {
      hide First, NextPart;
    }

    /** What holds when the loop has stopped with `end`. */
    ghost predicate Closed(parts: seq<Part>, more: seq<Part>, end: End, behind: string)
      reads this, readbuf
    {
      && (!end.LongField? && !end.AllRead? ==> more == parts)
      && (end.AllRead? ==> AllParts(stream, boundary) == (more, Done))
      && (end.Endless? ==> EndsOpen())
      && (end.ReadFailed? ==> exists p :: answers(p) <= 0)
      && (end.LongField? ==> Late(end.next, behind) && Misfiled(more, AllParts(stream, boundary), end.next))
    }

    /** One turn of the part loop. */
    method OnePart(parts: seq<Part>) returns (more: seq<Part>, end: Option<End>, ghost behind: string)
      requires Ready(parts) && |boundary| < MARGIN
      modifies readbuf, this`cur, this`fill, this`contentRead, this`maxRead, this`part
      ensures Valid()
      ensures end.None? ==> Ready(more) && |Unread()| < old(|Unread()|)
      ensures end.Some? ==> Closed(parts, more, end.value, behind) && (end.value.LongField? ==> old(LongAhead()))
      ensures old(LongAhead()) ==>
                && end.Some?
                && Outcome(parts, old(Ahead()).header, old(Ahead()).body, old(Rest()), old(SoonFrom(Ahead().body)),
                           more, end.value, behind, Rest())
                && (!end.value.ReadFailed? ==> contentRead >= old(contentRead + RefillFrom(|Ahead().body|)))
      ensures old(Rest()) == "" ==> if end.None? then Rest() == "" else DecidedBy(more, end.value)
    {
      hide NextPart, First, AllParts, SoonFrom, Misfiled, Outcome, Late, EndsOpen, Progress, AfterDelimiter;
      ghost var w, r := Window(), Rest();
      behind := "";
      var stat := StartOfField();
      AnswersIsShows(stat, w);
      StopIs(parts, stat, w, r);
      ShownHeader(stat, NextPart(w, boundary));
      if stat.Error? {
        more, end := parts, Some(Broken(stat.failure));
      } else if stat.Finished? {
        more, end := parts, Some(AllRead);
      } else if stat.FullPart? {
        more := AddFull(stat.header, parts, w, r);
        end := None;
      } else {
        more, end, behind := TakeOpen(stat.header, parts, w, r);
      }
    }

    lemma ShownHeader(stat: Stat, c: Chunk)
      requires Valid() && Shows(stat, c)
      ensures c.Partial? <==> stat.PartialPart?
      ensures c.Partial? ==> c == Partial(stat.header, Window()) && maxRead == HeldBack(fill)
    {
    }

    /** The part loop over the whole post. */
    method ProcessMultiPart() returns (parts: seq<Part>, end: End, ghost behind: string)
      requires Valid() && fill == 0 && contentRead == 0 && |boundary| < MARGIN
      modifies readbuf, this`cur, this`fill, this`contentRead, this`maxRead, this`part
      ensures !end.LongField? ==> parts <= AllParts(stream, boundary).0
      ensures end.LongField? ==> Late(end.next, behind) && Misfiled(parts, AllParts(stream, boundary), end.next)
      ensures end.AllRead? ==> AllParts(stream, boundary) == (parts, Done)
      ensures end.Endless? ==> EndsOpen()
      ensures end.ReadFailed? ==> exists p :: answers(p) <= 0
      ensures |stream| <= Min(answers(0), BUFSIZE) ==> DecidedBy(parts, end)
    {
      hide Misfiled, Late, Outcome, AllParts, LongAhead, SoonFrom;
      parts := [];
      behind := "";
      var n := Start();
      if n < 0 {
        assert answers(0) <= 0;
        return parts, ReadFailed, behind;
      }
      ghost var whole := Rest() == "";
      var stop: Option<End> := None;
      ghost var before := parts;
      ProgressIsPrefix(stream, parts, Unread(), boundary);
      while stop.None?
        invariant stop.None? || !stop.value.LongField? ==> parts <= AllParts(stream, boundary).0
        invariant stop.None? ==> Ready(parts)
        invariant stop.Some? ==> Closed(before, parts, stop.value, behind)
        invariant whole ==> if stop.None? then Rest() == "" else DecidedBy(parts, stop.value)
        decreases if stop.None? then |Unread()| + 1 else 0
      {
        before := parts;
        parts, stop, behind := OnePart(parts);
        if stop.None? { ProgressIsPrefix(stream, parts, Unread(), boundary); }
      }
      end := stop.value;
    }

    /** The first refill. */
    method Start() returns (n: int)
      requires Valid() && fill == 0 && contentRead == 0
      modifies readbuf, this`cur, this`fill, this`contentRead
      ensures n >= 0 ==> Ready([]) && (|stream| <= Min(answers(0), BUFSIZE) ==> Rest() == "")
      ensures n < 0 ==> answers(0) <= 0 && stream != ""
      ensures n >= 0 ==> fill == contentRead == n == old(Refill())
    {
      FreshIsWhole();
      ProgressStart(stream, boundary);
      n := ReadPostPart();
    }

    lemma FreshIsWhole()
      requires Valid() && fill == 0 && contentRead == 0
      ensures Synced() && Unread() == stream
    {
      assert stream[0..] == stream;
    }

    /** The source skips two bytes, takes the value, and skips two bytes behind it. */
    method TakeShifted() returns (value: string)
      requires Valid() && 0 <= maxRead && maxRead + 4 <= fill && SyncedAfter(maxRead + 2)
      modifies this`cur, this`fill
      ensures Valid() && Synced()
      ensures value == old(Window())[2..maxRead + 2] && Window() == old(Window())[maxRead + 4..]
    {
      ghost var w := Window();
      AdvancePointer(2);
      value := readbuf[cur..cur + maxRead];
      assert value == Window()[..maxRead];
      AdvancePointer(maxRead + 2);
      assert Window() == w[maxRead + 4..];
    }

    lemma LateIs(next: Stat, behind: string)
      requires Late(next, behind) && next.FullPart?
      ensures var c, w := NextPart(behind, boundary), Window();
              && c.Full? && maxRead == |c.content| && maxRead + 4 <= fill && SyncedAfter(maxRead + 2)
              && LosesTwo(c.content, w[2..maxRead + 2]) && w[maxRead + 4..] == c.rest[2..]
    {
      hide LosesTwo, NextPart;
      var w, c := Window(), NextPart(behind, boundary);
      RestStarts(behind, boundary);
      LateLoses(c, w, w[2..maxRead + 2]);
      LateWindow(c, w, maxRead);
    }

    /**
     The part behind a field that was read in pieces: after its header block the source skips two
     bytes, so that the value lacks its first two bytes and ends with two others, and the loop goes on
     two bytes into the next delimiter.
     */
    method TakeLate(next: Stat, ghost behind: string) returns (value: string)
      requires Late(next, behind) && next.FullPart?
      modifies this`cur, this`fill
      ensures LosesTwo(NextPart(behind, boundary).content, value)
      ensures Valid() && Synced() && Window() == NextPart(behind, boundary).rest[2..]
    {
      hide LosesTwo, NextPart;
      LateIs(next, behind);
      value := TakeShifted();
    }
  }

  lemma EndedStarts(h: Header, body: string, b: string)
    requires Ended(h, body, b).Full?
    ensures b <= Ended(h, body, b).rest
  {
    FirstSound(b, body);
  }

  lemma PartBodyStarts(h: Header, w: string, b: string)
    requires PartBody(h, w, b).Full?
    ensures b <= PartBody(h, w, b).rest
  {
    EndedStarts(h, SkipHeaders(w).value, b);
  }

  /** What is left behind a part starts with the delimiter. */
  lemma RestStarts(w: string, b: string)
    requires NextPart(w, b).Full?
    ensures b <= NextPart(w, b).rest
  {
    var v := w[First(b, w).value + |b|..];
    var line := ReadLine(v[2..]).value;
    PartBodyStarts(ParseDisposition(line.0).header, line.1, b);
  }

  lemma LateWindow(c: Chunk, w: string, n: nat)
    requires c.Full? && n + 2 <= |w| && w[n + 2..] == c.rest && |c.rest| >= 2
    ensures w[n + 4..] == c.rest[2..]
  {
    assert w[n + 2..][2..] == w[n + 4..];
  }

  /** The value of a part, taken two bytes too late: it ends with the NUL and a byte more. */
  ghost predicate LosesTwo(content: string, value: string) {
    exists x: char :: value == (content + [NUL, x])[2..]
  }

  lemma LateLoses(c: Chunk, w: string, value: string)
    requires c.Full? && |c.content| + 2 <= |w| && w[..|c.content|] == c.content && w[|c.content|] == NUL
    requires value == w[2..|c.content| + 2]
    ensures LosesTwo(c.content, value)
  {
    var x := w[|c.content| + 1];
    assert w[..|c.content| + 2] == c.content + [NUL, x];
    assert value == (c.content + [NUL, x])[2..];
  }

  /** A form as a client sends it, read through any descriptor. */
  method ReadForm(sent: seq<Sent>, b: string, answers: int -> int) returns (parts: seq<Part>, end: End)
    requires BoundaryOk(b) && |b| < MARGIN && forall i :: 0 <= i < |sent| ==> SentOk(sent[i], b)
    ensures !end.LongField? ==> parts <= Received(sent)
    ensures end.LongField? ==> |parts| < |sent| && Misfiled(parts, (Received(sent), Done), end.next)
    ensures end.AllRead? ==> parts == Received(sent)
    ensures |Encode(sent, b)| <= Min(answers(0), BUFSIZE) ==> end.AllRead?
    ensures !end.Endless?
  {
    hide AllParts, First, NextPart;
    var ecgi := new Ecgi(Encode(sent, b), b, answers);
    AllPartsOfEncoding(sent, b);
    ReceivedEach(sent);
    ghost var behind;
    parts, end, behind := ecgi.ProcessMultiPart();
  }

  lemma {:induction false} ReceivedEach(sent: seq<Sent>)
    ensures |Received(sent)| == |sent|
  {
    if sent != [] { ReceivedEach(sent[1..]); }
  }
}
