/**
 The forms of a part's header line that the parser takes: any case of its keywords, any gaps between
 them, quotes that may be missing, and file names with the directory they had at the client.
 */
module DispositionForms {
  import opened Basics
  import opened CText
  import opened Multipart

  /** The same letter, in either case, or the same character. */
  predicate SameLetter(c: char, d: char) {
    || c == d
    || ('a' <= d <= 'z' && c as int + 32 == d as int)
    || ('A' <= d <= 'Z' && c as int == d as int + 32)
  }

  /** A spelling of the keyword. */
  predicate Spells(s: string, keyword: string) {
    |s| == |keyword| && forall i :: 0 <= i < |s| ==> SameLetter(s[i], keyword[i])
  }

  predicate Letter(c: char) { 65 <= c as int <= 90 || 97 <= c as int <= 122 }

  /** What may stand between two keywords. */
  predicate Gap(s: string) { forall i :: 0 <= i < |s| ==> !Letter(s[i]) }

  lemma LetterIs(c: char)
    ensures Letter(c) <==> IsAlpha(c)
  {
  }

  lemma SameLetterIs(c: char, d: char)
    ensures SameLetter(c, d) <==> ToLower(c) == ToLower(d)
  {
  }

  lemma PrefixSpelled(s: string, keyword: string)
    ensures HasPrefix(s, keyword) <==> |keyword| <= |s| && Spells(s[..|keyword|], keyword)
  {
    if |keyword| <= |s| {
      forall i | 0 <= i < |keyword|
        ensures SameLetter(s[..|keyword|][i], keyword[i]) <==> ToLower(s[..|keyword|][i]) == ToLower(keyword[i])
      {
        SameLetterIs(s[..|keyword|][i], keyword[i]);
      }
    }
  }

  lemma KeywordStarts(a: string, keyword: string, r: string)
    requires Spells(a, keyword)
    ensures HasPrefix(a + r, keyword) && (a + r)[|keyword|..] == r
  {
    assert (a + r)[..|a|] == a;
    PrefixSpelled(a + r, keyword);
  }

  lemma {:induction false} GapIsSkipped(g: string, r: string)
    requires Gap(g) && (r == "" || Letter(r[0]))
    ensures SkipToAlpha(g + r) == r
  {
    if g == "" {
      assert "" + r == r;
      if r != "" { LetterIs(r[0]); }
    } else {
      LetterIs(g[0]);
      assert (g + r)[1..] == g[1..] + r;
      GapIsSkipped(g[1..], r);
    }
  }

  /** The directory that a client puts in front of a file name. */
  predicate Directory(s: string) { s == "" || s[|s| - 1] == '\\' }

  /** What remains of a path is what follows its last backslash. */
  lemma {:induction false} BaseNameIs(dir: string, base: string)
    requires Directory(dir) && '\\' !in base
    ensures BaseName(dir + base) == base
    decreases |dir|
  {
    var s := dir + base;
    if dir == "" {
      assert s == base && base + "" == base;
      UptoStops(base, '\\', "");
    } else {
      var first := Upto(dir, '\\');
      UptoIs(dir, '\\');
      assert s == first + ("\\" + (dir[|first| + 1..] + base));
      UptoStops(first, '\\', "\\" + (dir[|first| + 1..] + base));
      assert s[|first| + 1..] == dir[|first| + 1..] + base;
      BaseNameIs(dir[|first| + 1..], base);
    }
  }

  lemma {:induction false} UptoIs(s: string, stop: char)
    ensures var t := Upto(s, stop); t <= s && stop !in t && (|t| < |s| ==> s[|t|] == stop)
    ensures stop in s ==> |Upto(s, stop)| < |s|
  {
    if s != "" && s[0] != stop { UptoIs(s[1..], stop); }
  }

  /** The name and what follows it: in quotes, or without them at the end of the line. */
  predicate Named(text: string, name: string, after: string) {
    && '"' !in name
    && (|| text == "\"" + name + "\"" + after
        || (text == name + "\"" + after && name != "")
        || (after == "" && (text == "\"" + name || text == name)))
  }

  lemma NameIsRead(text: string, name: string, after: string)
    requires Named(text, name, after)
    ensures QuotedName(text) == (name, after)
  {
    if text == "\"" + name + "\"" + after {
      assert text[1..] == name + ("\"" + after);
      UptoStops(name, '"', "\"" + after);
      assert (name + ("\"" + after))[|name| + 1..] == after;
    } else if text == name + "\"" + after && name != "" {
      assert text == name + ("\"" + after) && text[0] == name[0];
      UptoStops(name, '"', "\"" + after);
      assert text[|name| + 1..] == after;
    } else {
      assert name + "" == name;
      UptoStops(name, '"', "");
      if text == "\"" + name { assert text[1..] == name; }
    }
  }

  /** What follows the name of a field: nothing that begins with the keyword of a file name. */
  ghost predicate NoFile(after: string) {
    exists g, r :: TailIs(after, g, r) && !(exists a, t :: FileIs(r, a, t))
  }

  /** A gap and then a letter, or the end. */
  predicate TailIs(s: string, g: string, r: string) {
    s == g + r && Gap(g) && (r == "" || Letter(r[0]))
  }

  predicate FileIs(s: string, a: string, t: string) {
    s == a + t && Spells(a, FORM_FILENAME) && t != ""
  }

  lemma FileStarts(s: string)
    ensures HasPrefix(s, FORM_FILENAME) && |s| > |FORM_FILENAME| <==> exists a, t :: FileIs(s, a, t)
  {
    var n := |FORM_FILENAME|;
    PrefixSpelled(s, FORM_FILENAME);
    if HasPrefix(s, FORM_FILENAME) && |s| > n {
      assert FileIs(s, s[..n], s[n..]);
    }
    forall a, t | FileIs(s, a, t)
      ensures HasPrefix(s, FORM_FILENAME) && |s| > n
    {
      KeywordStarts(a, FORM_FILENAME, t);
    }
  }

  lemma FieldIsRead(text: string, name: string, after: string)
    requires Named(text, name, after) && NoFile(after)
    ensures ParseName(text) == Good(Field(name))
  {
    NameIsRead(text, name, after);
    var g, r :| TailIs(after, g, r) && !(exists a, t :: FileIs(r, a, t));
    GapIsSkipped(g, r);
    FileStarts(r);
  }

  /** The path of a file: quoted, or up to the end of the line. */
  ghost predicate PathIs(text: string, dir: string, base: string) {
    && Directory(dir) && '\\' !in base && '"' !in dir + base
    && exists after :: Named(text, dir + base, after)
  }

  lemma FileIsRead(text: string, name: string, g: string, a: string, path: string, dir: string, base: string)
    requires Named(text, name, g + (a + path)) && Gap(g) && Spells(a, FORM_FILENAME) && path != "" && PathIs(path, dir, base)
    ensures ParseName(text) == Good(File(name, base))
  {
    NameIsRead(text, name, g + (a + path));
    KeywordStarts(a, FORM_FILENAME, path);
    FirstIsLetter(a, path);
    GapIsSkipped(g, a + path);
    var after :| Named(path, dir + base, after);
    NameIsRead(path, dir + base, after);
    BaseNameIs(dir, base);
  }

  lemma FirstIsLetter(a: string, r: string)
    requires Spells(a, FORM_FILENAME) || Spells(a, FORM_NAME) || Spells(a, FORM_DATA)
    ensures a + r != "" && Letter((a + r)[0])
  {
    assert (a + r)[0] == a[0];
    LetterIs(a[0]);
  }

  // ----- the whole line -----

  /** The line up to the name, and then `text`. */
  predicate LineIs(line: string, a: string, g: string, b: string, h: string, c: string, text: string) {
    && line == a + (g + (b + (h + (c + text))))
    && Spells(a, DISPOSITION) && Gap(g) && Spells(b, FORM_DATA) && Gap(h) && Spells(c, FORM_NAME)
  }

  lemma LineIsRead(line: string, a: string, g: string, b: string, h: string, c: string, text: string)
    requires LineIs(line, a, g, b, h, c, text)
    ensures ParseDisposition(line) == ParseName(text)
  {
    hide ParseName;
    KeywordStarts(a, DISPOSITION, g + (b + (h + (c + text))));
    FirstIsLetter(b, h + (c + text));
    GapIsSkipped(g, b + (h + (c + text)));
    KeywordStarts(b, FORM_DATA, h + (c + text));
    FirstIsLetter(c, text);
    GapIsSkipped(h, c + text);
    KeywordStarts(c, FORM_NAME, text);
  }

  /** A field, in every form. */
  lemma FieldForms(line: string, a: string, g: string, b: string, h: string, c: string, text: string, name: string, after: string)
    requires LineIs(line, a, g, b, h, c, text) && Named(text, name, after) && NoFile(after)
    ensures ParseDisposition(line) == Good(Field(name))
  {
    LineIsRead(line, a, g, b, h, c, text);
    FieldIsRead(text, name, after);
  }

  /** A file, in every form: of its path the last component is kept. */
  lemma FileForms(line: string, a: string, g: string, b: string, h: string, c: string, text: string,
                  name: string, k: string, f: string, path: string, dir: string, base: string)
    requires LineIs(line, a, g, b, h, c, text) && Named(text, name, k + (f + path))
    requires Gap(k) && Spells(f, FORM_FILENAME) && path != "" && PathIs(path, dir, base)
    ensures ParseDisposition(line) == Good(File(name, base))
  {
    LineIsRead(line, a, g, b, h, c, text);
    FileIsRead(text, name, k, f, path, dir, base);
  }

  /** What is missing decides the error. */
  lemma WrongLines(line: string)
    ensures ParseDisposition(line) == Bad(OutOfSync) <==>
            !exists a, r :: line == a + r && Spells(a, DISPOSITION) && r != ""
  {
    var n := |DISPOSITION|;
    PrefixSpelled(line, DISPOSITION);
    if HasPrefix(line, DISPOSITION) && |line| > n {
      assert line == line[..n] + line[n..];
    }
    forall a, r | line == a + r && Spells(a, DISPOSITION) && r != ""
      ensures HasPrefix(line, DISPOSITION) && |line| > n
    {
      KeywordStarts(a, DISPOSITION, r);
    }
  }

  lemma NotFormData(line: string, a: string, g: string, r: string)
    requires line == a + (g + r) && g + r != "" && Spells(a, DISPOSITION) && Gap(g) && (r == "" || Letter(r[0]))
    ensures ParseDisposition(line) == Bad(NoFormData) <==> !exists b, t :: r == b + t && Spells(b, FORM_DATA) && t != ""
  {
    KeywordStarts(a, DISPOSITION, g + r);
    GapIsSkipped(g, r);
    var n := |FORM_DATA|;
    PrefixSpelled(r, FORM_DATA);
    if HasPrefix(r, FORM_DATA) && |r| > n {
      assert r == r[..n] + r[n..];
    }
    forall b, t | r == b + t && Spells(b, FORM_DATA) && t != ""
      ensures HasPrefix(r, FORM_DATA) && |r| > n
    {
      KeywordStarts(b, FORM_DATA, t);
    }
  }

  lemma NoName(line: string, a: string, g: string, b: string, h: string, r: string)
    requires line == a + (g + (b + (h + r))) && h + r != ""
    requires Spells(a, DISPOSITION) && Gap(g) && Spells(b, FORM_DATA) && Gap(h) && (r == "" || Letter(r[0]))
    ensures ParseDisposition(line) == Bad(NoFormName) <==> !exists c, t :: r == c + t && Spells(c, FORM_NAME)
  {
    KeywordStarts(a, DISPOSITION, g + (b + (h + r)));
    FirstIsLetter(b, h + r);
    GapIsSkipped(g, b + (h + r));
    KeywordStarts(b, FORM_DATA, h + r);
    GapIsSkipped(h, r);
    var n := |FORM_NAME|;
    PrefixSpelled(r, FORM_NAME);
    if HasPrefix(r, FORM_NAME) { assert r == r[..n] + r[n..]; }
    forall c, t | r == c + t && Spells(c, FORM_NAME)
      ensures HasPrefix(r, FORM_NAME)
    {
      KeywordStarts(c, FORM_NAME, t);
    }
  }

  // ----- lines -----

  /** What a line shows: all of it, or what stands in front of its first NUL. */
  predicate Shows(line: string, shown: string) {
    NulFree(shown) && shown <= line && (shown != line ==> line[|shown|] == NUL)
  }

  /**
   Control characters in front of a line are dropped, unless they are the line break of an empty one; of
   the line what stands in front of a NUL is returned.
   */
  lemma {:induction false} JunkIsDropped(junk: string, line: string, shown: string, r: string)
    requires (forall i :: 0 <= i < |junk| ==> (junk[i] as int) < 32) && line != "" && line[0] >= ' ' && '\r' !in line
    requires !(CRLF <= junk) && Shows(line, shown)
    ensures ReadLine(junk + line + CRLF + r) == Some((shown, r))
  {
    var s := line + CRLF + r;
    assert junk + line + CRLF + r == junk + s;
    assert !(CRLF <= junk + s) by {
      assert s[0] == line[0] && |s| >= 2;
      var two := (junk + s)[..2];
      if |junk| >= 2 {
        assert two == junk[..2];
      } else {
        assert two[|junk|] == line[0];
        assert CRLF[0] == '\r' && CRLF[1] == '\n';
      }
    }
    SkipsJunk(junk, s);
    TextIsRead(line, r);
    CutIs(line, shown);
  }

  lemma {:induction false} CutIs(line: string, shown: string)
    requires Shows(line, shown)
    ensures Cut(line) == shown
  {
    if shown != "" {
      assert shown == [line[0]] + shown[1..];
      CutIs(line[1..], shown[1..]);
    }
  }

  lemma {:induction false} SkipsJunk(junk: string, s: string)
    requires (forall i :: 0 <= i < |junk| ==> (junk[i] as int) < 32) && s != "" && s[0] as int >= 32
    ensures SkipJunk(junk + s) == s
  {
    if junk == "" {
      assert "" + s == s;
    } else {
      assert (junk + s)[1..] == junk[1..] + s;
      SkipsJunk(junk[1..], s);
    }
  }

  lemma TextIsRead(line: string, r: string)
    requires '\r' !in line
    ensures ReadText(line + CRLF + r) == Some((Cut(line), r))
  {
    var w := line + CRLF + r;
    assert w == line + (CRLF + r);
    UptoStops(line, '\r', CRLF + r);
    assert w[|line| + 2..] == r;
  }
}
