/**
 The layout of StyledWriter, as lines: a block is its brackets with the lines of its items between them,
 indented by three blanks.
 */
module JsonLayout {
  import opened CText
  import opened JsonNumber
  import opened JsonStyledWriter
  import opened JsonText
  import opened JsonValue
  import opened JsonWriter

  // ----- lines -----

  function Indented(lines: seq<string>): (more: seq<string>)
    ensures |more| == |lines|
  {
    seq(|lines|, i requires 0 <= i < |lines| => "   " + lines[i])
  }

  /** A text in front of the first line. */
  function Headed(head: string, lines: seq<string>): (more: seq<string>)
    requires lines != []
    ensures |more| == |lines|
  {
    [head + lines[0]] + lines[1..]
  }

  /** A text behind the last line. */
  function Tailed(lines: seq<string>, tail: string): (more: seq<string>)
    requires lines != []
    ensures |more| == |lines|
  {
    lines[..|lines| - 1] + [lines[|lines| - 1] + tail]
  }

  function Commas(texts: seq<string>): string {
    if texts == [] then "" else if |texts| == 1 then texts[0] else texts[0] + ", " + Commas(texts[1..])
  }

  /** An array on one line. */
  function OneLine(texts: seq<string>): string { "[ " + Commas(texts) + " ]" }

  /** Whether a container takes one line: an array without containers in it, short enough for the margin. */
  predicate OnOneLine(v: Value)
    requires Writable(v)
  {
    v.Arr? && AllFlat(v.elems) && Count(v.elems) * 3 < 74 && |OneLine(FlatTexts(v.elems))| < 74
  }

  /** The lines of a value at the left margin. */
  function Lines(v: Value): (lines: seq<string>)
    requires Writable(v)
    ensures lines != []
    decreases v, 1
  {
    if Flat(v) then [FlatText(v)]
    else if OnOneLine(v) then [OneLine(FlatTexts(v.elems))]
    else if v.Arr? then ["["] + Indented(ItemLines(v.elems, false)) + ["]"]
    else ["{"] + Indented(ItemLines(v.members, true)) + ["}"]
  }

  /** What stands in front of an item: the name of a member. */
  function Head(ms: Members, named: bool): string
    requires ItemsOk(ms, named) && ms.Member?
  {
    if named then Quote(ms.key.name) + " : " else ""
  }

  function ItemLines(ms: Members, named: bool): (lines: seq<string>)
    requires ItemsOk(ms, named)
    ensures ms.Member? ==> lines != []
    decreases ms, 0
  {
    if ms.End? then []
    else
      var item := Headed(Head(ms, named), Lines(ms.value));
      if ms.rest.End? then item else Tailed(item, ",") + ItemLines(ms.rest, named)
  }

  /** The lines as a text in which every line but the first starts with `indent`. */
  function Joined(lines: seq<string>, indent: string): string
    requires lines != []
  {
    if |lines| == 1 then lines[0] else lines[0] + "\n" + indent + Joined(lines[1..], indent)
  }

  // ----- joining -----

  lemma {:induction false} JoinedAppend(a: seq<string>, b: seq<string>, indent: string)
    requires a != [] && b != []
    ensures Joined(a + b, indent) == Joined(a, indent) + "\n" + indent + Joined(b, indent)
  {
    assert (a + b)[0] == a[0];
    if |a| == 1 {
      assert (a + b)[1..] == b;
    } else {
      assert (a + b)[1..] == a[1..] + b;
      JoinedAppend(a[1..], b, indent);
      var x, y, z := a[0] + "\n" + indent, Joined(a[1..], indent), "\n" + indent + Joined(b, indent);
      assert x + (y + z) == x + y + z;
      assert y + "\n" + indent + Joined(b, indent) == y + z;
      assert x + y + "\n" + indent + Joined(b, indent) == x + y + z;
    }
  }

  lemma JoinedHeaded(head: string, lines: seq<string>, indent: string)
    requires lines != []
    ensures Joined(Headed(head, lines), indent) == head + Joined(lines, indent)
  {
    var more := Headed(head, lines);
    if |lines| > 1 {
      assert more[1..] == lines[1..];
      var rest := Joined(lines[1..], indent);
      assert head + lines[0] + "\n" + indent + rest == head + (lines[0] + "\n" + indent + rest);
    }
  }

  lemma {:induction false} JoinedTailed(lines: seq<string>, tail: string, indent: string)
    requires lines != []
    ensures Joined(Tailed(lines, tail), indent) == Joined(lines, indent) + tail
  {
    if |lines| > 1 {
      assert Tailed(lines, tail)[0] == lines[0] && Tailed(lines, tail)[1..] == Tailed(lines[1..], tail);
      JoinedTailed(lines[1..], tail, indent);
      var x := lines[0] + "\n" + indent;
      assert x + (Joined(lines[1..], indent) + tail) == x + Joined(lines[1..], indent) + tail;
    }
  }

  lemma {:induction false} JoinedIndented(lines: seq<string>, indent: string)
    requires lines != []
    ensures Joined(Indented(lines), indent) == "   " + Joined(lines, indent + "   ")
  {
    var more := Indented(lines);
    if |lines| > 1 {
      assert more[1..] == Indented(lines[1..]);
      JoinedIndented(lines[1..], indent);
      var rest := Joined(lines[1..], indent + "   ");
      assert "   " + lines[0] + "\n" + indent + ("   " + rest) == "   " + (lines[0] + "\n" + (indent + "   ") + rest);
    }
  }

  // ----- one line -----

  lemma {:induction false} LineItemsAre(ms: Members)
    requires AllWritable(ms) && AllFlat(ms)
    ensures LineItems(ms, true) == Commas(FlatTexts(ms))
    ensures ms.Member? ==> LineItems(ms, false) == ", " + Commas(FlatTexts(ms))
    ensures ms.Member? ==> |Commas(FlatTexts(ms))| == TotalLength(ms) + 2 * (Count(ms) - 1)
  {
    if ms.Member? {
      LineItemsAre(ms.rest);
      var x, texts := FlatText(ms.value), FlatTexts(ms);
      assert texts[1..] == FlatTexts(ms.rest);
      if ms.rest.End? {
        assert x + "" == x;
      } else {
        var rest := Commas(FlatTexts(ms.rest));
        assert x + (", " + rest) == x + ", " + rest;
      }
      assert "" + Commas(texts) == Commas(texts);
    }
  }

  lemma LineIs(ms: Members)
    requires AllWritable(ms) && AllFlat(ms)
    ensures LineText(ms) == OneLine(FlatTexts(ms))
  {
    hide LineItems, Commas, FlatTexts;
    LineItemsAre(ms);
    var x := LineItems(ms, true);
    assert LineText(ms) == "[ " + x + " ]";
  }

  /** The writer measures the line it would print. */
  lemma OneLineIff(v: Value)
    requires Writable(v) && v.Arr? && v.elems.Member?
    ensures OnOneLine(v) <==> !Multiline(v.elems)
  {
    if AllFlat(v.elems) { LineItemsAre(v.elems); }
  }

  // ----- the document -----

  /** Printing may begin here: at the start of everything, or behind a blank. */
  predicate Begins(document: string, indent: string) {
    if document == "" then indent == "" else document[|document| - 1] == ' '
  }

  predicate EndsPlain(s: string) {
    s != "" && s[|s| - 1] != ' ' && s[|s| - 1] != '\n'
  }

  lemma PlainThenIndent(document: string, indent: string)
    requires EndsPlain(document)
    ensures IndentText(document, indent) == "\n" + indent
  {
  }

  lemma FlatEnds(v: Value)
    requires Writable(v) && Flat(v)
    ensures EndsPlain(FlatText(v))
  {
    if v.Int? || v.UInt? || v.Long? || v.ULong? {
      DigitsEnd(if v.i < 0 then -v.i else v.i);
    } else if v.Str? {
      var q := Quote(v.c.s);
      assert q[|q| - 1] == '"';
    }
  }

  lemma DigitsEnd(n: nat)
    ensures EndsPlain(Digits(n)) && EndsPlain("-" + Digits(n))
  {
    var d := Digits(n);
    assert IsDigit(d[|d| - 1]);
    assert ("-" + d)[|d|] == d[|d| - 1];
  }

  lemma EndsAfter(a: string, b: string)
    requires EndsPlain(b)
    ensures EndsPlain(a + b)
  {
    assert (a + b)[|a + b| - 1] == b[|b| - 1];
  }

  lemma {:induction false} JoinedEnds(lines: seq<string>, indent: string)
    requires lines != [] && EndsPlain(lines[|lines| - 1])
    ensures EndsPlain(Joined(lines, indent))
  {
    if |lines| > 1 {
      JoinedEnds(lines[1..], indent);
      EndsAfter(lines[0] + "\n" + indent, Joined(lines[1..], indent));
    }
  }

  lemma LinesEnd(v: Value, indent: string)
    requires Writable(v)
    ensures EndsPlain(Joined(Lines(v), indent))
  {
    var lines := Lines(v);
    if Flat(v) {
      FlatEnds(v);
    } else if OnOneLine(v) {
      var line := OneLine(FlatTexts(v.elems));
      assert line[|line| - 1] == ']';
    }
    JoinedEnds(lines, indent);
  }

  /** What StyledWriter appends for a value is its lines. */
  lemma {:induction false} StyledIsLines(document: string, v: Value, indent: string)
    requires Writable(v) && Begins(document, indent)
    ensures Styled(document, v, indent) == document + Joined(Lines(v), indent)
    decreases v, 2
  {
    if !Flat(v) {
      if v.Arr? { OneLineIff(v); }
      if v.Arr? && !Multiline(v.elems) { LineIs(v.elems); } else { BlockIsLines(document, v, indent); }
    }
  }

  lemma {:induction false} BlockIsLines(document: string, v: Value, indent: string)
    requires Writable(v) && Begins(document, indent) && !Flat(v) && !OnOneLine(v) && (v.Arr? || v.Obj?)
    ensures StyledBlock(document, if v.Arr? then v.elems else v.members, v.Obj?, indent) == document + Joined(Lines(v), indent)
    decreases v, 1
  {
    var ms, named := if v.Arr? then v.elems else v.members, v.Obj?;
    var inner := ItemLines(ms, named);
    var start := document + IndentText(document, indent) + Open(named);
    assert start == document + Open(named) by { assert document + "" == document; }
    EndsAfter(document, Open(named));
    ItemsAreLines(start, ms, named, indent + "   ");
    var text := Joined(inner, indent + "   ");
    var inside := StyledItems(start, ms, named, indent + "   ");
    assert inside == start + "\n" + (indent + "   ") + text;
    EndsAfter(start + "\n" + (indent + "   "), text);
    PlainThenIndent(inside, indent);
    BlockJoined(Open(named), inner, Close(named), indent);
    assert Lines(v) == [Open(named)] + Indented(inner) + [Close(named)];
    Regrouped(document, Open(named), indent, text, Close(named));
  }

  lemma BlockJoined(open: string, inner: seq<string>, close: string, indent: string)
    requires inner != []
    ensures Joined([open] + Indented(inner) + [close], indent) ==
            open + "\n" + indent + ("   " + Joined(inner, indent + "   ")) + "\n" + indent + close
  {
    JoinedAppend([open] + Indented(inner), [close], indent);
    JoinedAppend([open], Indented(inner), indent);
    JoinedIndented(inner, indent);
  }

  lemma Regrouped(document: string, open: string, indent: string, text: string, close: string)
    ensures (document + open) + "\n" + (indent + "   ") + text + ("\n" + indent) + close ==
            document + (open + "\n" + indent + ("   " + text) + "\n" + indent + close)
  {
  }

  lemma {:induction false} ItemsAreLines(document: string, ms: Members, named: bool, indent: string)
    requires ItemsOk(ms, named) && ms.Member? && EndsPlain(document) && indent != "" && indent[|indent| - 1] == ' '
    ensures StyledItems(document, ms, named, indent) == document + "\n" + indent + Joined(ItemLines(ms, named), indent)
    ensures EndsPlain(Joined(ItemLines(ms, named), indent))
    decreases ms, 1
  {
    hide Lines, Joined, Headed, Tailed, StyledItem, EndsPlain;
    var item := Headed(Head(ms, named), Lines(ms.value));
    var d, text := document + "\n" + indent, Joined(item, indent);
    OneItem(document, ms, named, indent);
    if ms.rest.Member? {
      var rest := Joined(ItemLines(ms.rest, named), indent);
      CommaEnds(d + text);
      ItemsAreLines(d + text + ",", ms.rest, named, indent);
      JoinedAppend(Tailed(item, ","), ItemLines(ms.rest, named), indent);
      JoinedTailed(item, ",", indent);
      Concat3(d, text, ",");
      Concat3(d, text + ",", "\n" + indent + rest);
      CommaLine(d, text + ",", indent, rest);
      EndsAfter(text + "," + "\n" + indent, rest);
    }
  }

  lemma CommaLine(d: string, text: string, indent: string, rest: string)
    ensures d + text + "\n" + indent + rest == d + (text + "\n" + indent + rest)
  {
  }

  lemma CommaEnds(s: string)
    ensures EndsPlain(s + ",")
  {
  }

  /** Where the value of an item begins. */
  lemma ItemBegins(document: string, ms: Members, named: bool, indent: string)
    requires ItemsOk(ms, named) && ms.Member? && EndsPlain(document) && indent != "" && indent[|indent| - 1] == ' '
    ensures var start := document + "\n" + indent + Head(ms, named);
            Begins(start, indent) && StyledItem(document, ms, named, indent) == Styled(start, ms.value, indent)
  {
    hide Styled, Quote;
    PlainThenIndent(document, indent);
    var d := document + IndentText(document, indent);
    assert d == document + "\n" + indent;
    if named {
      Concat3(d, Quote(ms.key.name), " : ");
    } else {
      assert d + "" == d;
    }
  }

  lemma {:induction false} OneItem(document: string, ms: Members, named: bool, indent: string)
    requires ItemsOk(ms, named) && ms.Member? && EndsPlain(document) && indent != "" && indent[|indent| - 1] == ' '
    ensures var item := Headed(Head(ms, named), Lines(ms.value));
            && StyledItem(document, ms, named, indent) == document + "\n" + indent + Joined(item, indent)
            && EndsPlain(Joined(item, indent))
    decreases ms, 0
  {
    hide Lines, Joined, Headed, Head, Styled, StyledItem, EndsPlain, Begins;
    var d, head, text := document + "\n" + indent, Head(ms, named), Joined(Lines(ms.value), indent);
    ItemBegins(document, ms, named, indent);
    StyledIsLines(d + head, ms.value, indent);
    JoinedHeaded(head, Lines(ms.value), indent);
    LinesEnd(ms.value, indent);
    EndsAfter(head, text);
    Concat3(d, head, text);
  }

  /** The document of StyledWriter. */
  lemma DocumentIsLines(v: Value)
    requires Writable(v)
    ensures Styled("", v, "") == Joined(Lines(v), "")
  {
    StyledIsLines("", v, "");
    assert "" + Joined(Lines(v), "") == Joined(Lines(v), "");
  }
}
