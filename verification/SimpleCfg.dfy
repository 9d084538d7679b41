/**
 A configuration file kept as lines, with a map from keys to values and an index from keys
 to line numbers that must agree with the text.
 */
module SimpleCfg {
  import opened Basics

  // ----- one line -----

  function TrimLeft(s: string): (t: string)
    ensures |t| <= |s|
  {
    if s != "" && s[0] == ' ' then TrimLeft(s[1..]) else s
  }

  function TrimRight(s: string): (t: string)
    ensures |t| <= |s|
  {
    if s != "" && s[|s| - 1] == ' ' then TrimRight(s[..|s| - 1]) else s
  }

  function Trim(s: string): string { TrimRight(TrimLeft(s)) }

  /** The pieces between the delimiters. */
  function Pieces(s: string, delim: char): (p: seq<string>)
    ensures |p| >= 1
  {
    if s == "" then [""]
    else
      var rest := Pieces(s[1..], delim);
      if s[0] == delim then [""] + rest else [[s[0]] + rest[0]] + rest[1..]
  }

  /** Split: the pieces, trimmed. */
  function Split(s: string, delim: char): (p: seq<string>)
    ensures |p| == |Pieces(s, delim)|
  {
    var pieces := Pieces(s, delim);
    seq(|pieces|, i requires 0 <= i < |pieces| => Trim(pieces[i]))
  }

  /** What createindex makes of a line; None for comments, empty lines and lines of another form. */
  function ParseLine(text: string): Option<(string, string)> {
    var line := Trim(text);
    if line == "" || line[0] == '#' then None
    else
      var kval := Split(line, '=');
      if |kval| != 2 then None else Some((Trim(kval[0]), Trim(kval[1])))
  }

  /** The line that Update writes. */
  function Line(key: string, value: string): string { key + "=" + value }

  /** A text that parsing would not change. */
  predicate Clean(s: string) { '=' !in s && Trim(s) == s }

  predicate Canonical(key: string, value: string) {
    Clean(key) && Clean(value) && (key == "" || key[0] != '#')
  }

  lemma {:induction false} PiecesOfPlain(s: string)
    requires '=' !in s
    ensures Pieces(s, '=') == [s]
  {
    if s != "" {
      PiecesOfPlain(s[1..]);
      assert s == [s[0]] + s[1..];
    }
  }

  lemma {:induction false} PiecesOfLine(key: string, value: string)
    requires '=' !in key
    ensures Pieces(Line(key, value), '=') == [key] + Pieces(value, '=')
  {
    if key == "" {
      assert Line(key, value)[1..] == value;
    } else {
      assert Line(key, value)[1..] == Line(key[1..], value);
      PiecesOfLine(key[1..], value);
      assert key == [key[0]] + key[1..];
      assert Pieces(Line(key, value), '=') == [[key[0]] + key[1..]] + Pieces(value, '=');
    }
  }

  lemma {:induction false} TrimLeftStart(s: string)
    ensures TrimLeft(s) == "" || TrimLeft(s)[0] != ' '
    ensures s == "" || s[0] != ' ' ==> TrimLeft(s) == s
    ensures TrimLeft(s) == s ==> s == "" || s[0] != ' '
  {
    if s != "" { TrimLeftStart(s[1..]); }
  }

  lemma {:induction false} TrimRightEnd(s: string)
    ensures TrimRight(s) == "" || TrimRight(s)[|TrimRight(s)| - 1] != ' '
    ensures TrimRight(s) <= s
  {
    if s != "" && s[|s| - 1] == ' ' {
      TrimRightEnd(s[..|s| - 1]);
      assert s[..|s| - 1] <= s;
    }
  }

  /** A text is trimmed when neither end is a blank. */
  lemma TrimmedEnds(s: string)
    ensures Trim(s) == s <==> s == "" || (s[0] != ' ' && s[|s| - 1] != ' ')
  {
    TrimLeftStart(s);
    TrimRightEnd(TrimLeft(s));
    if s != "" && s[0] == ' ' { assert |TrimLeft(s[1..])| < |s|; }
  }

  lemma TrimTrims(s: string)
    ensures Trim(Trim(s)) == Trim(s)
  {
    TrimLeftStart(s);
    TrimRightEnd(TrimLeft(s));
    var t := Trim(s);
    if t != "" { assert t[0] == TrimLeft(s)[0]; }
    TrimmedEnds(t);
  }

  lemma LineIsTrimmed(key: string, value: string)
    requires Trim(key) == key && Trim(value) == value
    ensures Trim(Line(key, value)) == Line(key, value)
  {
    TrimmedEnds(key);
    TrimmedEnds(value);
    TrimmedEnds(Line(key, value));
  }

  /** A written line is parsed as what was written. */
  lemma CanonicalIsRead(key: string, value: string)
    requires Canonical(key, value)
    ensures ParseLine(Line(key, value)) == Some((key, value))
  {
    LineIsTrimmed(key, value);
    PiecesOfLine(key, value);
    PiecesOfPlain(value);
    assert Pieces(Line(key, value), '=') == [key, value];
    assert Line(key, value)[0] == if key == "" then '=' else key[0];
  }

  lemma {:induction false} PiecesArePlain(s: string, i: nat)
    requires i < |Pieces(s, '=')|
    ensures '=' !in Pieces(s, '=')[i]
    decreases |s|
  {
    if s != "" {
      var rest := Pieces(s[1..], '=');
      PiecesArePlain(s[1..], 0);
      if s[0] == '=' {
        if i > 0 { PiecesArePlain(s[1..], i - 1); }
      } else if i > 0 {
        PiecesArePlain(s[1..], i);
      }
    }
  }

  lemma FirstPiece(s: string)
    ensures Pieces(s, '=')[0] <= s
    ensures Pieces(s, '=')[0] == "" ==> s == "" || s[0] == '='
  {
    if s != "" && s[0] != '=' { FirstPiece(s[1..]); }
  }

  lemma {:induction false} TrimRightWithin(s: string, c: char)
    requires c !in s
    ensures c !in TrimRight(s)
  {
    TrimRightEnd(s);
  }

  lemma {:induction false} TrimLeftWithin(s: string, c: char)
    requires c !in s
    ensures c !in TrimLeft(s)
  {
    if s != "" { TrimLeftWithin(s[1..], c); }
  }

  /** The trimmed piece of a line: no delimiter in it, and trimmed. */
  lemma PieceIsClean(s: string, i: nat)
    requires i < |Pieces(s, '=')|
    ensures Clean(Split(s, '=')[i]) && Trim(Split(s, '=')[i]) == Split(s, '=')[i]
  {
    var p := Pieces(s, '=')[i];
    PiecesArePlain(s, i);
    TrimLeftWithin(p, '=');
    TrimRightWithin(TrimLeft(p), '=');
    TrimTrims(p);
  }

  /** The first character of a key is that of its line. */
  lemma KeyStarts(line: string)
    requires line != "" && line[0] != ' '
    ensures var key := Split(line, '=')[0]; key == "" || key[0] == line[0]
  {
    var p := Pieces(line, '=')[0];
    FirstPiece(line);
    TrimLeftStart(p);
    TrimRightEnd(p);
    if p != "" { assert p[0] == line[0]; }
  }

  /** What is parsed is canonical, so that a pair is read back exactly when it is canonical. */
  lemma ReadIsCanonical(text: string)
    requires ParseLine(text).Some?
    ensures Canonical(ParseLine(text).value.0, ParseLine(text).value.1)
  {
    var line := Trim(text);
    PieceIsClean(line, 0);
    PieceIsClean(line, 1);
    TrimTrims(text);
    TrimmedEnds(line);
    KeyStarts(line);
  }

  lemma ReadBackIffCanonical(key: string, value: string)
    ensures ParseLine(Line(key, value)) == Some((key, value)) <==> Canonical(key, value)
  {
    if Canonical(key, value) { CanonicalIsRead(key, value); }
    if ParseLine(Line(key, value)) == Some((key, value)) { ReadIsCanonical(Line(key, value)); }
  }

  // ----- every line there can be -----

  predicate Blank(s: string) { forall i :: 0 <= i < |s| ==> s[i] == ' ' }

  /** A text without the delimiter and without blanks at its ends. */
  predicate Plain(s: string) {
    '=' !in s && (s == "" || (s[0] != ' ' && s[|s| - 1] != ' '))
  }

  /** A line that sets `key` to `value`: one delimiter, and blanks around key and value as one likes. */
  ghost predicate Assigns(text: string, key: string, value: string, a: string, b: string, c: string, d: string) {
    && text == (a + key + b) + "=" + (c + value + d)
    && Blank(a) && Blank(b) && Blank(c) && Blank(d)
    && Plain(key) && Plain(value) && (key == "" || key[0] != '#')
  }

  lemma {:induction false} TrimLeftSplits(s: string) returns (a: string)
    ensures Blank(a) && s == a + TrimLeft(s)
  {
    a := "";
    if s != "" && s[0] == ' ' {
      a := TrimLeftSplits(s[1..]);
      a := " " + a;
    }
  }

  lemma {:induction false} TrimRightSplits(s: string) returns (d: string)
    ensures Blank(d) && s == TrimRight(s) + d
  {
    d := "";
    if s != "" && s[|s| - 1] == ' ' {
      d := TrimRightSplits(s[..|s| - 1]);
      d := d + " ";
      assert s == s[..|s| - 1] + " ";
    }
  }

  lemma TrimSplits(s: string) returns (a: string, d: string)
    ensures Blank(a) && Blank(d) && s == a + Trim(s) + d
    ensures Trim(s) == "" || (Trim(s)[0] != ' ' && Trim(s)[|Trim(s)| - 1] != ' ')
  {
    a := TrimLeftSplits(s);
    d := TrimRightSplits(TrimLeft(s));
    TrimTrims(s);
    TrimmedEnds(Trim(s));
  }

  /** Two ways to take blanks off both ends of a text come to the same. */
  lemma TrimIs(a: string, s: string, d: string)
    requires Blank(a) && Blank(d) && (s == "" || (s[0] != ' ' && s[|s| - 1] != ' '))
    ensures Trim(a + s + d) == s
  {
    hide Trim;
    var x := a + s + d;
    var a', d' := TrimSplits(x);
    var t := Trim(x);
    assert s == "" || t == "" ==> Blank(x);
    assert s != "" ==> x[|a|] == s[0] && x[|a| + |s| - 1] == s[|s| - 1];
    assert t != "" ==> x[|a'|] == t[0] && x[|a'| + |t| - 1] == t[|t| - 1];
    if s != "" && t != "" {
      assert |a| == |a'| && |s| == |t|;
      assert s == x[|a|..|a| + |s|] == t;
    }
  }

  lemma {:induction false} PiecesPrepend(a: string, s: string)
    requires '=' !in a
    ensures var p := Pieces(s, '='); Pieces(a + s, '=') == [a + p[0]] + p[1..]
  {
    var p := Pieces(s, '=');
    if a == "" {
      assert "" + s == s && "" + p[0] == p[0];
    } else {
      assert (a + s)[1..] == a[1..] + s;
      PiecesPrepend(a[1..], s);
      assert [a[0]] + (a[1..] + p[0]) == a + p[0];
    }
  }

  lemma {:induction false} TwoPieces(s: string)
    requires |Pieces(s, '=')| == 2
    ensures var p := Pieces(s, '='); s == p[0] + "=" + p[1] && '=' !in p[0] && '=' !in p[1]
  {
    PiecesArePlain(s, 0);
    PiecesArePlain(s, 1);
    if s[0] == '=' {
      OnePiece(s[1..]);
      assert s == "" + "=" + s[1..];
    } else {
      TwoPieces(s[1..]);
      assert s == [s[0]] + s[1..];
    }
  }

  lemma {:induction false} OnePiece(s: string)
    requires |Pieces(s, '=')| == 1
    ensures Pieces(s, '=') == [s]
  {
    if s != "" {
      OnePiece(s[1..]);
      assert s == [s[0]] + s[1..];
    }
  }

  lemma BlankIsPlain(s: string)
    requires Blank(s)
    ensures '=' !in s
  {
  }

  /** Blanks at the ends of a line do not matter to its pieces. */
  lemma PiecesOfTrimmed(text: string, left: string, right: string)
    requires text == left + "=" + right && '=' !in left && '=' !in right
    ensures Pieces(text, '=') == [left, right]
  {
    PiecesOfPlain(right);
    assert Pieces("=" + right, '=') == ["", right] by { assert ("=" + right)[1..] == right; }
    PiecesPrepend(left, "=" + right);
    assert left + ("=" + right) == text && left + "" == left;
  }

  lemma PlainIs(s: string)
    ensures Clean(s) <==> Plain(s)
  {
    TrimmedEnds(s);
  }

  /** What stands in front of the delimiter: blanks, and a rest that is the key without them. */
  lemma LeftSide(a: string, key: string, b: string) returns (gap: string, left: string)
    requires Blank(a) && Blank(b) && Plain(key)
    ensures Blank(gap) && a + key + b == gap + left && '=' !in left && Trim(left) == key
    ensures if key == "" then left == "" else left != "" && left[0] == key[0]
  {
    hide Trim;
    BlankIsPlain(b);
    if key == "" {
      gap, left := a + b, "";
      TrimIs("", "", "");
      assert "" + "" + "" == "";
    } else {
      gap, left := a, key + b;
      TrimIs("", key, b);
      assert "" + key + b == left && a + key + b == a + left;
    }
  }

  /** And what stands behind it. */
  lemma RightSide(c: string, value: string, d: string) returns (right: string, gap: string)
    requires Blank(c) && Blank(d) && Plain(value)
    ensures Blank(gap) && c + value + d == right + gap && '=' !in right && Trim(right) == value
    ensures if value == "" then right == "" else right != "" && right[|right| - 1] == value[|value| - 1]
  {
    hide Trim;
    BlankIsPlain(c);
    if value == "" {
      right, gap := "", c + d;
      TrimIs("", "", "");
      assert "" + "" + "" == "";
    } else {
      right, gap := c + value, d;
      TrimIs(c, value, "");
      assert c + value + "" == right;
    }
  }

  lemma SidesAreRead(text: string, a: string, left: string, right: string, d: string)
    requires text == a + (left + "=" + right) + d && Blank(a) && Blank(d) && '=' !in left && '=' !in right
    requires (left == "" || (left[0] != ' ' && left[0] != '#')) && (right == "" || right[|right| - 1] != ' ')
    ensures ParseLine(text) == Some((Trim(left), Trim(right)))
  {
    hide Trim, Pieces;
    var core := left + "=" + right;
    assert core[0] == (if left == "" then '=' else left[0]);
    assert core[|core| - 1] == (if right == "" then '=' else right[|right| - 1]);
    TrimIs(a, core, d);
    PiecesOfTrimmed(core, left, right);
    TrimTrims(left);
    TrimTrims(right);
  }

  lemma AssignedIsRead(text: string, key: string, value: string, a: string, b: string, c: string, d: string)
    requires Assigns(text, key, value, a, b, c, d)
    ensures ParseLine(text) == Some((key, value))
  {
    hide ParseLine, Trim, Blank;
    var a', left := LeftSide(a, key, b);
    var right, d' := RightSide(c, value, d);
    assert (a' + left) + "=" + (right + d') == a' + (left + "=" + right) + d';
    SidesAreRead(text, a', left, right, d');
  }

  lemma ReadIsAssigned(text: string, key: string, value: string) returns (a: string, b: string, c: string, d: string)
    requires ParseLine(text) == Some((key, value))
    ensures Assigns(text, key, value, a, b, c, d)
  {
    hide Pieces, Trim, Blank;
    var line := Trim(text);
    var p := Pieces(line, '=');
    ReadIsCanonical(text);
    PlainIs(key);
    PlainIs(value);
    TwoPieces(line);
    a, d := TrimSplits(text);
    var a0, b0 := TrimSplits(p[0]);
    var a1, b1 := TrimSplits(p[1]);
    TrimTrims(p[0]);
    TrimTrims(p[1]);
    Regroup(a, a0, key, b0, a1, value, b1, d);
    BlankJoined(a, a0);
    BlankJoined(b1, d);
    a, b, c, d := a + a0, b0, a1, b1 + d;
  }

  lemma Regroup(a: string, a0: string, key: string, b0: string, a1: string, value: string, b1: string, d: string)
    ensures a + ((a0 + key + b0) + "=" + (a1 + value + b1)) + d == ((a + a0) + key + b0) + "=" + (a1 + value + (b1 + d))
  {
  }

  lemma BlankJoined(a: string, b: string)
    requires Blank(a) && Blank(b)
    ensures Blank(a + b)
  {
  }

  /** A line is read as a pair exactly if it has one delimiter, with key and value around it, and is no comment. */
  lemma ReadIffAssigns(text: string, key: string, value: string)
    ensures ParseLine(text) == Some((key, value)) <==> exists a, b, c, d :: Assigns(text, key, value, a, b, c, d)
  {
    hide ParseLine, Assigns;
    if ParseLine(text) == Some((key, value)) {
      var a, b, c, d := ReadIsAssigned(text, key, value);
    }
    forall a, b, c, d | Assigns(text, key, value, a, b, c, d)
      ensures ParseLine(text) == Some((key, value))
    {
      AssignedIsRead(text, key, value, a, b, c, d);
    }
  }

  // ----- the text -----

  /** Line `i` sets `key`. */
  predicate Sets(content: seq<string>, i: int, key: string) {
    0 <= i < |content| && ParseLine(content[i]).Some? && ParseLine(content[i]).value.0 == key
  }

  /** The map createindex builds: the first line of a key gives its value. */
  function Values(content: seq<string>): map<string, string> {
    if content == [] then map[]
    else
      var m := Values(content[..|content| - 1]);
      match ParseLine(content[|content| - 1])
      case None => m
      case Some(kv) => if kv.0 in m then m else m[kv.0 := kv.1]
  }

  /** The index createindex builds: the last line of a key. */
  function Index(content: seq<string>): map<string, int> {
    if content == [] then map[]
    else
      var m := Index(content[..|content| - 1]);
      match ParseLine(content[|content| - 1])
      case None => m
      case Some(kv) => m[kv.0 := |content| - 1]
  }

  lemma NoLines(content: seq<string>)
    requires content == []
    ensures Values(content) == map[] && Index(content) == map[]
  {
  }

  lemma NextLine(content: seq<string>, n: int)
    requires 0 <= n < |content|
    ensures var m, x, line := Values(content[..n]), Index(content[..n]), ParseLine(content[n]);
            && Values(content[..n + 1]) == (if line.None? || line.value.0 in m then m else m[line.value.0 := line.value.1])
            && Index(content[..n + 1]) == (if line.None? then x else x[line.value.0 := n])
  {
    assert content[..n + 1][..n] == content[..n];
  }

  /** No key is set by two lines. */
  ghost predicate NoDuplicates(content: seq<string>) {
    forall i, j, key :: Sets(content, i, key) && Sets(content, j, key) ==> i == j
  }

  lemma SetsInPrefix(content: seq<string>, i: int, key: string)
    requires content != []
    ensures Sets(content, i, key) <==>
            Sets(content[..|content| - 1], i, key) || (i == |content| - 1 && ParseLine(content[i]).Some? && ParseLine(content[i]).value.0 == key)
  {
  }

  lemma {:induction false} IndexIsLast(content: seq<string>, key: string)
    ensures key in Index(content) <==> exists i :: Sets(content, i, key)
    ensures key in Index(content) ==> Sets(content, Index(content)[key], key)
    ensures key in Index(content) ==> forall i :: Sets(content, i, key) ==> i <= Index(content)[key]
  {
    hide ParseLine;
    if content != [] {
      IndexIsLast(content[..|content| - 1], key);
      forall i
        ensures Sets(content, i, key) <==>
                Sets(content[..|content| - 1], i, key) || (i == |content| - 1 && ParseLine(content[i]).Some? && ParseLine(content[i]).value.0 == key)
      {
        SetsInPrefix(content, i, key);
      }
      var last := |content| - 1;
      if ParseLine(content[last]).Some? && ParseLine(content[last]).value.0 == key { assert Sets(content, last, key); }
    }
  }

  /** The value of a key is that of the first line that sets it. */
  lemma {:induction false} ValueIsFirst(content: seq<string>, key: string, i: int)
    requires Sets(content, i, key) && forall j :: j < i ==> !Sets(content, j, key)
    ensures key in Values(content) && Values(content)[key] == ParseLine(content[i]).value.1
  {
    var last := |content| - 1;
    if i == last {
      NotSet(content[..last], key, content);
    } else {
      assert Sets(content[..last], i, key);
      forall j | j < i
        ensures !Sets(content[..last], j, key)
      {
        SetsInPrefix(content, j, key);
      }
      ValueIsFirst(content[..last], key, i);
    }
  }

  lemma {:induction false} NotSet(content: seq<string>, key: string, whole: seq<string>)
    requires content <= whole && forall j :: j < |content| ==> !Sets(whole, j, key)
    ensures key !in Values(content)
  {
    if content != [] {
      assert !Sets(whole, |content| - 1, key);
      NotSet(content[..|content| - 1], key, whole);
    }
  }

  lemma {:induction false} HasValue(content: seq<string>, key: string)
    ensures key in Values(content) <==> exists i :: Sets(content, i, key)
  {
    if content != [] {
      var last := |content| - 1;
      HasValue(content[..last], key);
      forall i
        ensures Sets(content, i, key) <==>
                Sets(content[..last], i, key) || (i == last && ParseLine(content[i]).Some? && ParseLine(content[i]).value.0 == key)
      {
        SetsInPrefix(content, i, key);
      }
      if ParseLine(content[last]).Some? && ParseLine(content[last]).value.0 == key { assert Sets(content, last, key); }
    }
  }

  ghost predicate IsFirst(content: seq<string>, key: string, i: int) {
    Sets(content, i, key) && forall j :: j < i ==> !Sets(content, j, key)
  }

  /** A key of the map has a first line, which gives its value. */
  lemma FirstLine(content: seq<string>, key: string) returns (first: int)
    requires key in Values(content)
    ensures IsFirst(content, key, first) && Values(content)[key] == ParseLine(content[first]).value.1
  {
    hide Values, ParseLine;
    HasValue(content, key);
    first := 0;
    while !Sets(content, first, key)
      invariant 0 <= first && forall j :: j < first ==> !Sets(content, j, key)
      invariant exists i :: first <= i && Sets(content, i, key)
      decreases |content| - first
    {
      first := first + 1;
    }
    ValueIsFirst(content, key, first);
  }

  // ----- the operations -----

  /** What Update makes of the text. */
  function UpdateText(content: seq<string>, key: string, value: string): seq<string> {
    if key in Values(content) && key in Index(content) && 0 <= Index(content)[key] < |content| then
      content[Index(content)[key] := Line(key, value)]
    else content + [Line(key, value)]
  }

  /** What Remove makes of the text. */
  function RemoveText(content: seq<string>, key: string): seq<string> {
    if key in Values(content) && key in Index(content) && 0 <= Index(content)[key] < |content| then
      content[..Index(content)[key]] + content[Index(content)[key] + 1..]
    else content
  }

  lemma Indexed(content: seq<string>, key: string)
    requires key in Values(content)
    ensures key in Index(content) && Sets(content, Index(content)[key], key)
  {
    HasValue(content, key);
    IndexIsLast(content, key);
  }

  /** Rewriting the line of a key leaves every line setting what it set. */
  lemma RewriteSets(content: seq<string>, n: int, key: string, value: string, i: int, k: string)
    requires Sets(content, n, key) && Canonical(key, value)
    ensures Sets(content[n := Line(key, value)], i, k) <==> Sets(content, i, k)
  {
    CanonicalIsRead(key, value);
  }

  /** Some line other than the indexed one sets the key, too. */
  ghost predicate SetAgain(content: seq<string>, key: string) {
    key in Index(content) && exists i :: i != Index(content)[key] && Sets(content, i, key)
  }

  lemma SetsWhere(content: seq<string>, i: int, key: string)
    requires Sets(content, i, key)
    ensures 0 <= i < |content|
  {
  }

  lemma FirstOfOne(content: seq<string>, i: int, key: string, k: string)
    requires Sets(content, i, key)
    ensures IsFirst(content, k, i) ==> k == key
  {
  }

  /** Of the values, at most the one of the rewritten line changes, and only if it is the first line of its key. */
  lemma RewriteValue(content: seq<string>, n: int, key: string, value: string, k: string)
    requires Sets(content, n, key) && Canonical(key, value)
    ensures var c, m := content[n := Line(key, value)], Values(content);
            && (k in Values(c) <==> k in m)
            && (k in m ==> Values(c)[k] == if IsFirst(content, k, n) then value else m[k])
  {
    hide Values, ParseLine, Line;
    var c := content[n := Line(key, value)];
    forall i
      ensures Sets(c, i, k) <==> Sets(content, i, k)
    {
      RewriteSets(content, n, key, value, i, k);
    }
    HasValue(c, k);
    HasValue(content, k);
    if k in Values(content) {
      var first := FirstLine(content, k);
      ValueIsFirst(c, k, first);
      CanonicalIsRead(key, value);
    }
  }

  /** The indexed line is the first line of its key exactly when no other line sets the key. */
  lemma FirstIsIndexed(content: seq<string>, key: string)
    requires key in Values(content)
    ensures key in Index(content) && Sets(content, Index(content)[key], key) && 0 <= Index(content)[key] < |content|
    ensures IsFirst(content, key, Index(content)[key]) <==> !SetAgain(content, key)
  {
    hide Values, Index, Sets;
    Indexed(content, key);
    IndexIsLast(content, key);
    SetsWhere(content, Index(content)[key], key);
  }

  lemma RewriteIndex(content: seq<string>, n: int, key: string, value: string)
    requires Sets(content, n, key) && Canonical(key, value)
    ensures Index(content[n := Line(key, value)]) == Index(content)
  {
    var c := content[n := Line(key, value)];
    forall k
      ensures k in Index(c) <==> k in Index(content)
      ensures k in Index(c) ==> Index(c)[k] == Index(content)[k]
    {
      forall i
        ensures Sets(c, i, k) <==> Sets(content, i, k)
      {
        RewriteSets(content, n, key, value, i, k);
      }
      IndexIsLast(c, k);
      IndexIsLast(content, k);
    }
  }

  lemma AppendSets(content: seq<string>, key: string, value: string, i: int, k: string)
    requires Canonical(key, value)
    ensures Sets(content + [Line(key, value)], i, k) <==> Sets(content, i, k) || (i == |content| && k == key)
  {
    hide ParseLine, Line, Sets;
    var c := content + [Line(key, value)];
    assert c[..|c| - 1] == content && c[|c| - 1] == Line(key, value);
    CanonicalIsRead(key, value);
    SetsInPrefix(c, i, k);
  }

  lemma AppendMaps(content: seq<string>, key: string, value: string)
    requires key !in Values(content) && Canonical(key, value)
    ensures var c := content + [Line(key, value)];
            Values(c) == Values(content)[key := value] && Index(c) == Index(content)[key := |content|]
  {
    hide ParseLine, Line;
    var c := content + [Line(key, value)];
    assert c[..|c| - 1] == content;
    CanonicalIsRead(key, value);
  }

  lemma AppendLine(content: seq<string>, key: string, value: string)
    requires key !in Values(content) && Canonical(key, value)
    ensures var c := content + [Line(key, value)];
            Values(c) == Values(content)[key := value] && Index(c) == Index(content)[key := |content|]
    ensures NoDuplicates(content) ==> NoDuplicates(content + [Line(key, value)])
  {
    hide ParseLine, Line, Sets, Values, Index;
    AppendMaps(content, key, value);
    HasValue(content, key);
    var c := content + [Line(key, value)];
    forall i, j, k | NoDuplicates(content) && Sets(c, i, k) && Sets(c, j, k)
      ensures i == j
    {
      AppendSets(content, key, value, i, k);
      AppendSets(content, key, value, j, k);
    }
  }

  /**
   What a fresh parse finds after Update: the new value when at most one line sets the key.
   Otherwise the last line has changed and the first one still counts, so nothing has.
   */
  lemma UpdateParse(content: seq<string>, key: string, value: string)
    requires Canonical(key, value)
    ensures Values(UpdateText(content, key, value)) ==
            if SetAgain(content, key) then Values(content) else Values(content)[key := value]
  {
    hide Line, ParseLine, Sets;
    if key in Values(content) {
      FirstIsIndexed(content, key);
      var c := UpdateText(content, key, value);
      forall k
        ensures k in Values(c) <==> k in Values(content)
        ensures k in Values(c) ==> Values(c)[k] == if k == key && !SetAgain(content, key) then value else Values(content)[k]
      {
        RewriteValue(content, Index(content)[key], key, value, k);
        FirstOfOne(content, Index(content)[key], key, k);
      }
    } else {
      AppendLine(content, key, value);
      HasValue(content, key);
    }
  }

  lemma UpdateIndex(content: seq<string>, key: string, value: string)
    requires Canonical(key, value)
    ensures Index(UpdateText(content, key, value)) ==
            if key in Values(content) then Index(content) else Index(content)[key := |content|]
  {
    hide Line, ParseLine, Sets, Values, Index;
    if key in Values(content) {
      FirstIsIndexed(content, key);
      RewriteIndex(content, Index(content)[key], key, value);
    } else {
      AppendLine(content, key, value);
    }
  }

  lemma ParsedIsCanonical(content: seq<string>, key: string)
    requires key in Values(content)
    ensures Canonical(key, Values(content)[key])
  {
    var first := FirstLine(content, key);
    ReadIsCanonical(content[first]);
  }

  /**
   Update does to the map what it does to the text exactly when the pair is canonical and no other
   line sets the key, or the first such line has the value already.
   */
  lemma UpdateAgreesIff(content: seq<string>, key: string, value: string)
    ensures Values(UpdateText(content, key, value)) == Values(content)[key := value] <==>
            Canonical(key, value) && (SetAgain(content, key) ==> key in Values(content) && Values(content)[key] == value)
  {
    hide Values, Index, Canonical, UpdateText;
    if Canonical(key, value) {
      UpdateParse(content, key, value);
      HasValue(content, key);
    } else if Values(UpdateText(content, key, value)) == Values(content)[key := value] {
      ParsedIsCanonical(UpdateText(content, key, value), key);
    }
  }

  /** In a file that sets no key twice, Update keeps text and map in agreement. */
  lemma UpdateAgrees(content: seq<string>, key: string, value: string)
    requires NoDuplicates(content) && Canonical(key, value)
    ensures var c := UpdateText(content, key, value);
            NoDuplicates(c) && Values(c) == Values(content)[key := value]
  {
    hide Line, ParseLine, Values, Sets, Canonical, Index;
    UpdateParse(content, key, value);
    HasValue(content, key);
    if key in Values(content) {
      FirstIsIndexed(content, key);
      RewriteDuplicates(content, Index(content)[key], key, value);
    } else {
      AppendLine(content, key, value);
    }
  }

  lemma RewriteDuplicates(content: seq<string>, n: int, key: string, value: string)
    requires NoDuplicates(content) && Sets(content, n, key) && 0 <= n < |content| && Canonical(key, value)
    ensures NoDuplicates(content[n := Line(key, value)])
  {
    hide Line, ParseLine, Canonical, Sets;
    var c := content[n := Line(key, value)];
    forall i, j, k | Sets(c, i, k) && Sets(c, j, k)
      ensures i == j
    {
      RewriteSets(content, n, key, value, i, k);
      RewriteSets(content, n, key, value, j, k);
    }
  }

  /** Where line `i` of the text without line `n` was. */
  function Before(n: int, i: int): int { if i < n then i else i + 1 }

  lemma CutSets(content: seq<string>, n: int, i: int, k: string)
    requires 0 <= n < |content|
    ensures Sets(content[..n] + content[n + 1..], i, k) <==> 0 <= i && Sets(content, Before(n, i), k)
  {
    var c := content[..n] + content[n + 1..];
    if 0 <= i < |c| { assert c[i] == content[Before(n, i)]; }
  }

  lemma CutAt(content: seq<string>, n: int, c: seq<string>)
    requires 0 <= n < |content| && c == content[..n] + content[n + 1..]
    ensures |c| == |content| - 1 && forall i :: 0 <= i < |c| ==> c[i] == content[Before(n, i)]
  {
  }

  /** The line that Remove takes out is the one that sets the key; all others keep their text and order. */
  lemma RemoveTakesOwnLine(content: seq<string>, key: string)
    requires key in Values(content)
    ensures key in Index(content) && Sets(content, Index(content)[key], key)
    ensures |RemoveText(content, key)| == |content| - 1
    ensures forall i :: 0 <= i < |RemoveText(content, key)| ==>
              RemoveText(content, key)[i] == content[Before(Index(content)[key], i)]
  {
    hide Values, Index, ParseLine, Before;
    Indexed(content, key);
    CutAt(content, Index(content)[key], RemoveText(content, key));
  }

  /** Of the values, at most the one of the line taken out is lost, and only if no other line sets its key. */
  lemma CutValue(content: seq<string>, n: int, key: string, k: string)
    requires Sets(content, n, key) && forall i :: Sets(content, i, key) ==> i <= n
    ensures var c, m := content[..n] + content[n + 1..], Values(content);
            && (k in Values(c) <==> k in m && !IsFirst(content, k, n))
            && (k in Values(c) ==> Values(c)[k] == m[k])
  {
    hide Values, ParseLine, IsFirst, Sets;
    SetsWhere(content, n, key);
    var c := content[..n] + content[n + 1..];
    HasValue(c, k);
    HasValue(content, k);
    if k in Values(content) {
      var first := FirstLine(content, k);
      if first == n {
        CutFirst(content, n, key, k);
      } else {
        CutKeeps(content, n, k, first);
      }
    } else if k in Values(c) {
      var i :| Sets(c, i, k);
      CutSets(content, n, i, k);
    }
  }

  lemma CutFirst(content: seq<string>, n: int, key: string, k: string)
    requires Sets(content, n, key) && (forall i :: Sets(content, i, key) ==> i <= n) && IsFirst(content, k, n)
    ensures k !in Values(content[..n] + content[n + 1..])
  {
    hide Values, ParseLine;
    var c := content[..n] + content[n + 1..];
    HasValue(c, k);
    forall i
      ensures !Sets(c, i, k)
    {
      CutSets(content, n, i, k);
      assert Sets(content, Before(n, i), k) ==> Sets(content, Before(n, i), key);
    }
  }

  lemma CutKeeps(content: seq<string>, n: int, k: string, first: int)
    requires 0 <= n < |content| && n != first && IsFirst(content, k, first)
    ensures var c := content[..n] + content[n + 1..];
            k in Values(content) && k in Values(c) && Values(c)[k] == Values(content)[k] && !IsFirst(content, k, n)
  {
    hide Values, ParseLine;
    var c := content[..n] + content[n + 1..];
    var j := if first < n then first else first - 1;
    forall i | i <= j
      ensures Sets(c, i, k) <==> i == j
    {
      CutSets(content, n, i, k);
    }
    ValueIsFirst(content, k, first);
    ValueIsFirst(c, k, j);
  }

  /**
   What a fresh parse finds after Remove: the map without the key when one line sets it.
   Otherwise the last line is gone and the first one still counts, so the key is back with its value.
   */
  lemma RemoveParse(content: seq<string>, key: string)
    requires key in Values(content)
    ensures Values(RemoveText(content, key)) == if SetAgain(content, key) then Values(content) else Values(content) - {key}
  {
    hide Line, ParseLine, Sets, IsFirst, SetAgain, Values, Index;
    FirstIsIndexed(content, key);
    IndexIsLast(content, key);
    var n := Index(content)[key];
    var c := content[..n] + content[n + 1..];
    forall k
      ensures k in Values(c) <==> k in Values(content) && (k == key ==> SetAgain(content, key))
      ensures k in Values(c) ==> Values(c)[k] == Values(content)[k]
    {
      CutValue(content, n, key, k);
      FirstOfOne(content, n, key, k);
    }
  }

  /** Remove does to the map what it does to the text exactly when no second line sets the key. */
  lemma RemoveAgreesIff(content: seq<string>, key: string)
    ensures Values(RemoveText(content, key)) == Values(content) - {key} <==> !SetAgain(content, key)
  {
    hide Values, Index;
    HasValue(content, key);
    if key in Values(content) {
      RemoveParse(content, key);
    } else {
      assert Values(content) - {key} == Values(content);
    }
  }

  /** In a file that sets no key twice, Remove keeps text and map in agreement. */
  lemma RemoveAgrees(content: seq<string>, key: string)
    requires NoDuplicates(content)
    ensures var c := RemoveText(content, key);
            NoDuplicates(c) && Values(c) == Values(content) - {key}
  {
    hide Values, Index, Sets;
    RemoveAgreesIff(content, key);
    IndexIsLast(content, key);
    if key in Values(content) {
      FirstIsIndexed(content, key);
      CutDuplicates(content, Index(content)[key]);
    }
  }

  lemma CutDuplicates(content: seq<string>, n: int)
    requires NoDuplicates(content) && 0 <= n < |content|
    ensures NoDuplicates(content[..n] + content[n + 1..])
  {
    hide ParseLine;
    var c := content[..n] + content[n + 1..];
    forall i, j, k | Sets(c, i, k) && Sets(c, j, k)
      ensures i == j
    {
      CutSets(content, n, i, k);
      CutSets(content, n, j, k);
      assert Before(n, i) == Before(n, j);
    }
  }

  /** Two lines for one key: the update is not there when the file is read again, and the removal does not remove. */
  lemma TwoLines()
    ensures var content := ["a=1", "a=2"];
            && Values(content) == map["a" := "1"]
            && UpdateText(content, "a", "3") == ["a=1", "a=3"] && Values(["a=1", "a=3"]) == map["a" := "1"]
            && RemoveText(content, "a") == ["a=1"] && Values(["a=1"]) == map["a" := "1"]
  {
    hide ParseLine, Values, Index;
    TwoLinesParse("2");
    TwoLinesParse("3");
    assert "a=" + "2" == "a=2" && "a=" + "3" == "a=3" && Line("a", "3") == "a=3";
  }

  lemma TwoLinesParse(digit: string)
    requires digit == "2" || digit == "3"
    ensures Values(["a=1"]) == map["a" := "1"] && Index(["a=1"]) == map["a" := 0]
    ensures var content := ["a=1", "a=" + digit];
            Values(content) == map["a" := "1"] && Index(content) == map["a" := 1]
  {
    hide ParseLine;
    assert Line("a", "1") == "a=1" && Line("a", digit) == "a=" + digit;
    TrimmedEnds("a");
    TrimmedEnds("1");
    TrimmedEnds(digit);
    CanonicalIsRead("a", "1");
    CanonicalIsRead("a", digit);
    var none: seq<string>, one := [], ["a=1"];
    assert one[..0] == none;
    var both := ["a=1", "a=" + digit];
    assert both[..1] == one;
  }

  // ----- the object -----

  class Cfg {
    var values: map<string, string>  // the inherited map
    var index: map<string, int>
    var content: seq<string>
    var ind: int

    /** What every operation keeps, for any keys and values: the index leads into the text. */
    ghost predicate Bounded()
      reads this
    {
      && ind == |content| && index.Keys == values.Keys
      && forall key :: key in index ==> 0 <= index[key] < |content|
    }

    /** Map, index and count are those of a fresh parse of the text. */
    ghost predicate Parsed()
      reads this
    {
      values == Values(content) && index == Index(content) && ind == |content|
    }

    /** Nothing is lost when the text is read again after an operation. */
    ghost predicate Valid()
      reads this
    {
      Parsed() && NoDuplicates(content)
    }

    lemma ParsedIsBounded()
      requires Parsed()
      ensures Bounded()
    {
      hide Values, Index;
      forall key
        ensures key in index <==> key in values
        ensures key in index ==> 0 <= index[key] < |content|
      {
        HasValue(content, key);
        IndexIsLast(content, key);
      }
    }

    constructor (lines: seq<string>)
      ensures content == lines && Parsed() && Bounded()
      ensures NoDuplicates(lines) ==> Valid()
    {
      content := lines;
      values, index, ind := map[], map[], 0;
      new;
      CreateIndex();
      ParsedIsBounded();
    }

    method CreateIndex()
      modifies this`values, this`index, this`ind
      ensures Parsed()
    {
      hide ParseLine, Values, Index;
      index := map[];
      values := map[];
      ind := 0;
      NoLines(content[..0]);
      while ind < |content|
        invariant 0 <= ind <= |content|
        invariant values == Values(content[..ind]) && index == Index(content[..ind])
      {
        NextLine(content, ind);
        var line := ParseLine(content[ind]);
        if line.Some? {
          var (key, value) := line.value;
          index := index[key := ind];
          if key !in values { values := values[key := value]; }
        }
        ind := ind + 1;
      }
      assert content[..ind] == content;
    }

    method Update(key: string, value: string)
      requires Bounded()
      modifies this
      ensures Bounded() && values == old(values)[key := value]
      ensures content == if key in old(values) then old(content[index[key] := key + "=" + value]) else old(content) + [key + "=" + value]
      ensures index == if key in old(values) then old(index) else old(index)[key := old(|content|)]
      ensures old(Parsed()) ==> content == UpdateText(old(content), key, value)
      ensures old(Parsed()) && Canonical(key, value) ==> index == Index(content)
      ensures old(Valid()) && Canonical(key, value) ==> Valid()
    {
      hide Values, Index, Canonical, NoDuplicates;
      if Parsed() && Canonical(key, value) { UpdateIndex(content, key, value); }
      if Parsed() && Canonical(key, value) && NoDuplicates(content) { UpdateAgrees(content, key, value); }
      if key in values {
        values := values[key := value];
        content := content[index[key] := key + "=" + value];
      } else {
        content := content + [key + "=" + value];
        values := values[key := value];
        index := index[key := ind];
        ind := ind + 1;
      }
    }

    /** Ends with a fresh parse, which need not be the map without the key: see RemoveParse. */
    method Remove(key: string)
      requires Bounded()
      modifies this
      ensures Bounded()
      ensures key !in old(values) ==> values == old(values) && index == old(index) && content == old(content)
      ensures key in old(values) ==> Parsed() && content == old(content[..index[key]] + content[index[key] + 1..])
      ensures old(Parsed()) ==> Parsed() && content == RemoveText(old(content), key)
      ensures old(Valid()) ==> Valid() && values == old(values) - {key}
    {
      hide Values, Index, Sets, NoDuplicates;
      if Parsed() && NoDuplicates(content) { RemoveAgrees(content, key); }
      if key !in values { return; }
      content := content[..index[key]] + content[index[key] + 1..];
      CreateIndex();
      ParsedIsBounded();
    }

    /** After a parse, the value comes from the first line that sets the key, and the default is used if none does. */
    method ValueOrDefault(key: string, def: string) returns (value: string)
      ensures key in values ==> value == values[key]
      ensures Parsed() ==> forall i :: IsFirst(content, key, i) ==> value == ParseLine(content[i]).value.1
      ensures (if Parsed() then forall i :: !Sets(content, i, key) else key !in values) ==> value == def
    {
      hide Values, Index, ParseLine;
      HasValue(content, key);
      if key !in values { return def; }
      value := values[key];
      if Parsed() {
        forall i | IsFirst(content, key, i)
          ensures value == ParseLine(content[i]).value.1
        {
          ValueIsFirst(content, key, i);
        }
      }
    }
  }

  // ----- whole sessions -----

  datatype Op = Update(key: string, value: string) | Remove(key: string)

  predicate OpOk(op: Op) { op.Update? ==> Canonical(op.key, op.value) }

  function RunText(content: seq<string>, ops: seq<Op>): seq<string>
    decreases ops
  {
    if ops == [] then content
    else RunText(if ops[0].Update? then UpdateText(content, ops[0].key, ops[0].value) else RemoveText(content, ops[0].key), ops[1..])
  }

  function RunMap(m: map<string, string>, ops: seq<Op>): map<string, string>
    decreases ops
  {
    if ops == [] then m
    else RunMap(if ops[0].Update? then m[ops[0].key := ops[0].value] else m - {ops[0].key}, ops[1..])
  }

  /** After any sequence of updates and removals, reading the text afresh gives what a plain map would hold. */
  lemma {:induction false} TextIsMap(content: seq<string>, ops: seq<Op>)
    requires NoDuplicates(content) && forall i :: 0 <= i < |ops| ==> OpOk(ops[i])
    ensures NoDuplicates(RunText(content, ops))
    ensures Values(RunText(content, ops)) == RunMap(Values(content), ops)
    decreases ops
  {
    if ops != [] {
      if ops[0].Update? {
        UpdateAgrees(content, ops[0].key, ops[0].value);
        TextIsMap(UpdateText(content, ops[0].key, ops[0].value), ops[1..]);
      } else {
        RemoveAgrees(content, ops[0].key);
        TextIsMap(RemoveText(content, ops[0].key), ops[1..]);
      }
    }
  }
}
