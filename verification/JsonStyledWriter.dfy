/**
 StyledWriter: containers are printed on one line or as an indented block.  While it decides
 which, it collects the texts of the elements in a buffer that nested arrays reuse.
 */
module JsonStyledWriter {
  import opened CText
  import opened JsonNumber
  import opened JsonValue
  import opened JsonText
  import opened JsonReading
  import opened JsonRoundTrip
  import opened JsonWriter

  const RIGHT_MARGIN := 74

  /** A value that prints without containers inside it. */
  predicate Flat(v: Value) {
    !(v.Arr? && v.elems.Member?) && !(v.Obj? && v.members.Member?)
  }

  predicate AllFlat(ms: Members) {
    ms.End? || (Flat(ms.value) && AllFlat(ms.rest))
  }

  function FlatText(v: Value): string
    requires Writable(v) && Flat(v)
  {
    if v.Arr? then "[]" else if v.Obj? then "{}" else Scalar(v)
  }

  function FlatTexts(ms: Members): (texts: seq<string>)
    requires AllWritable(ms) && AllFlat(ms)
    ensures |texts| == Count(ms)
  {
    if ms.End? then [] else [FlatText(ms.value)] + FlatTexts(ms.rest)
  }

  function TotalLength(ms: Members): nat
    requires AllWritable(ms) && AllFlat(ms)
  {
    if ms.End? then 0 else |FlatText(ms.value)| + TotalLength(ms.rest)
  }

  /** The texts buffered so far and those of the elements `it` make up the texts of `ms`. */
  ghost predicate Collected(buffered: seq<string>, width: int, it: Members, ms: Members) {
    AllWritable(ms) && AllFlat(ms) && AllWritable(it) && AllFlat(it) &&
    buffered + FlatTexts(it) == FlatTexts(ms) && width + TotalLength(it) == TotalLength(ms)
  }

  lemma CollectedNext(buffered: seq<string>, width: int, it: Members, ms: Members)
    requires Collected(buffered, width, it, ms) && it.Member?
    ensures Collected(buffered + [FlatText(it.value)], width + |FlatText(it.value)|, it.rest, ms)
  {
    assert buffered + ([FlatText(it.value)] + FlatTexts(it.rest)) == buffered + [FlatText(it.value)] + FlatTexts(it.rest);
  }

  /** An array takes several lines when it is long, nested or too wide for the margin. */
  predicate Multiline(ms: Members)
    requires AllWritable(ms)
  {
    Count(ms) * 3 >= RIGHT_MARGIN || !AllFlat(ms) ||
    4 + (Count(ms) - 1) * 2 + TotalLength(ms) >= RIGHT_MARGIN
  }

  lemma FlatRenders(v: Value)
    requires Writable(v) && Flat(v)
    ensures Renders(FlatText(v), v)
  {
    if v.Arr? { RendersEmpty(false); } else if v.Obj? { RendersEmpty(true); } else { RendersScalar(v); }
  }

  /** What writeIndent appends to a document. */
  function IndentText(document: string, indent: string): string {
    if document == "" then indent
    else if document[|document| - 1] == ' ' then ""
    else if document[|document| - 1] == '\n' then indent
    else "\n" + indent
  }

  // ----- what StyledWriter prints -----

  /** The elements of a one-line array, separated by commas. */
  function LineItems(ms: Members, first: bool): string
    requires AllWritable(ms) && AllFlat(ms)
  {
    if ms.End? then "" else (if first then "" else ", ") + (FlatText(ms.value) + LineItems(ms.rest, false))
  }

  function LineText(ms: Members): string
    requires AllWritable(ms) && AllFlat(ms)
  {
    "[" + (" " + LineItems(ms, true) + " ") + "]"
  }

  /** The document after printing `v` at its end. */
  function Styled(document: string, v: Value, indent: string): string
    requires Writable(v)
    decreases v, 2
  {
    if Flat(v) then document + FlatText(v)
    else if v.Arr? && !Multiline(v.elems) then document + LineText(v.elems)
    else StyledBlock(document, if v.Arr? then v.elems else v.members, v.Obj?, indent)
  }

  function Open(named: bool): string { if named then "{" else "[" }
  function Close(named: bool): string { if named then "}" else "]" }

  function StyledBlock(document: string, ms: Members, named: bool, indent: string): string
    requires ms.Member? && AllWritable(ms) && (named ==> NamesAscend(ms))
    decreases ms, 2
  {
    var inside := StyledItems(document + IndentText(document, indent) + Open(named), ms, named, indent + "   ");
    inside + IndentText(inside, indent) + Close(named)
  }

  function StyledItems(document: string, ms: Members, named: bool, indent: string): string
    requires ms.Member? && AllWritable(ms) && (named ==> NamesAscend(ms))
    decreases ms, 1
  {
    var d := StyledItem(document, ms, named, indent);
    if ms.rest.End? then d else StyledItems(d + ",", ms.rest, named, indent)
  }

  function StyledItem(document: string, it: Members, named: bool, indent: string): string
    requires it.Member? && AllWritable(it) && (named ==> NamesAscend(it))
    decreases it, 0
  {
    var d := document + IndentText(document, indent);
    Styled(if named then d + Quote(it.key.name) + " : " else d, it.value, indent)
  }

  // ----- what it prints is a rendering -----

  /** `after` is `before` with a rendering of `v` appended. */
  ghost predicate Printed(before: string, after: string, v: Value)
    requires Writable(v)
  {
    before <= after && Renders(after[|before|..], v)
  }

  /** `after` is `before` with text appended that stands for the items from `a` up to `b`. */
  ghost predicate Extended(before: string, after: string, named: bool, a: Members, fa: bool, b: Members, fb: bool) {
    before <= after && Extends(after[|before|..], named, a, fa, b, fb)
  }

  lemma PrintedIs(before: string, text: string, v: Value)
    requires Writable(v) && Renders(text, v)
    ensures Printed(before, before + text, v)
  {
    assert (before + text)[|before|..] == text;
  }

  lemma ExtendedIs(before: string, text: string, named: bool, a: Members, fa: bool, b: Members, fb: bool)
    requires Extends(text, named, a, fa, b, fb)
    ensures Extended(before, before + text, named, a, fa, b, fb)
  {
    assert (before + text)[|before|..] == text;
  }

  lemma ExtendedTwice(d0: string, d1: string, d2: string, named: bool, a: Members, fa: bool, b: Members, fb: bool,
                      c: Members, fc: bool)
    requires Extended(d0, d1, named, a, fa, b, fb) && Extended(d1, d2, named, b, fb, c, fc)
    ensures Extended(d0, d2, named, a, fa, c, fc)
  {
    var x, y := d1[|d0|..], d2[|d1|..];
    ExtendsTwice(x, y, named, a, fa, b, fb, c, fc);
    assert d2[|d0|..] == x + y;
  }

  lemma RendersSpaced(ws: string, text: string, v: Value)
    requires Writable(v) && Renders(text, v) && AllSpace(ws)
    ensures Renders(ws + text, v)
  {
    forall r, more | Layout(r, more)
      ensures Layout(ws + text + r, Tokens(v, more))
    {
      LayoutAfterSpace(ws, text + r, Tokens(v, more));
      Concat3(ws, text, r);
    }
  }

  lemma {:induction false} LineExtends(ms: Members, first: bool)
    requires ItemsOk(ms, false) && AllFlat(ms) && (ms.End? ==> !first)
    ensures Extends(LineItems(ms, first), false, ms, first, End, false)
    decreases ms, if first then 0 else 1
  {
    if ms.End? {
      ExtendsNothing(false, End, false);
    } else if !first {
      LineExtends(ms, true);
      ExtendsComma(false, ms);
      ExtendsSpace(" ", false, ms, true);
      ExtendsTwice(",", " ", false, ms, false, ms, true, ms, true);
      ExtendsTwice("," + " ", LineItems(ms, true), false, ms, false, ms, true, End, false);
      var tail := FlatText(ms.value) + LineItems(ms.rest, false);
      assert "," + " " == ", " && "" + tail == tail;
    } else {
      FlatRenders(ms.value);
      ExtendsElement(FlatText(ms.value), ms);
      LineExtends(ms.rest, false);
      ExtendsTwice(FlatText(ms.value), LineItems(ms.rest, false), false, ms, true, ms.rest, false, End, false);
      var tail := FlatText(ms.value) + LineItems(ms.rest, false);
      assert "" + tail == tail;
    }
  }

  lemma LineRenders(ms: Members)
    requires Writable(Arr(ms)) && ms.Member? && AllFlat(ms)
    ensures Renders(LineText(ms), Arr(ms))
  {
    var x := LineItems(ms, true);
    LineExtends(ms, true);
    ExtendsSpace(" ", false, ms, true);
    ExtendsSpace(" ", false, End, false);
    ExtendsTwice(" ", x, false, ms, true, ms, true, End, false);
    ExtendsTwice(" " + x, " ", false, ms, true, End, false, End, false);
    RendersContainer(" " + x + " ", ms, false);
  }

  lemma {:induction false} StyledRenders(document: string, v: Value, indent: string)
    requires Writable(v) && AllSpace(indent)
    ensures Printed(document, Styled(document, v, indent), v)
    decreases v, 2
  {
    if Flat(v) {
      FlatRenders(v);
      PrintedIs(document, FlatText(v), v);
    } else if v.Arr? && !Multiline(v.elems) {
      LineRenders(v.elems);
      PrintedIs(document, LineText(v.elems), v);
    } else {
      BlockRenders(document, if v.Arr? then v.elems else v.members, v.Obj?, indent);
    }
  }

  lemma {:induction false} BlockRenders(document: string, ms: Members, named: bool, indent: string)
    requires ms.Member? && Writable(Container(ms, named)) && AllSpace(indent)
    ensures Printed(document, StyledBlock(document, ms, named, indent), Container(ms, named))
    decreases ms, 2
  {
    hide Extends, Printed, Renders, StyledItems;
    var ws := IndentText(document, indent);
    var start := document + ws + Open(named);
    ItemsExtend(start, ms, named, indent + "   ");
    var inside := StyledItems(start, ms, named, indent + "   ");
    var x := inside[|start|..];
    var ws2 := IndentText(inside, indent);
    ExtendsSpace(ws2, named, End, false);
    ExtendsTwice(x, ws2, named, ms, true, End, false, End, false);
    RendersContainer(x + ws2, ms, named);
    RendersSpaced(ws, Open(named) + (x + ws2) + Close(named), Container(ms, named));
    PrintedIs(document, ws + (Open(named) + (x + ws2) + Close(named)), Container(ms, named));
    BlockText(document, ws, Open(named), x, ws2, Close(named));
    assert inside == start + x;
  }

  lemma BlockText(before: string, ws: string, open: string, x: string, ws2: string, close: string)
    ensures before + (ws + (open + (x + ws2) + close)) == before + ws + open + x + ws2 + close
  {
  }

  lemma {:induction false} ItemsExtend(document: string, ms: Members, named: bool, indent: string)
    requires ms.Member? && ItemsOk(ms, named) && AllSpace(indent)
    ensures Extended(document, StyledItems(document, ms, named, indent), named, ms, true, End, false)
    decreases ms, 1
  {
    var d := StyledItem(document, ms, named, indent);
    ItemExtends(document, ms, named, indent);
    if ms.rest.Member? {
      ExtendsComma(named, ms.rest);
      ExtendedIs(d, ",", named, ms.rest, false, ms.rest, true);
      ExtendedTwice(document, d, d + ",", named, ms, true, ms.rest, false, ms.rest, true);
      ItemsExtend(d + ",", ms.rest, named, indent);
      ExtendedTwice(document, d + ",", StyledItems(d + ",", ms.rest, named, indent), named, ms, true, ms.rest, true, End, false);
    }
  }

  lemma {:induction false} ItemExtends(document: string, it: Members, named: bool, indent: string)
    requires it.Member? && ItemsOk(it, named) && AllSpace(indent)
    ensures Extended(document, StyledItem(document, it, named, indent), named, it, true, it.rest, false)
    decreases it, 0
  {
    var ws := IndentText(document, indent);
    var d := document + ws;
    ExtendsSpace(ws, named, it, true);
    ExtendedIs(document, ws, named, it, true, it, true);
    var start := if named then d + Quote(it.key.name) + " : " else d;
    StyledRenders(start, it.value, indent);
    var after := StyledItem(document, it, named, indent);
    var text := after[|start|..];
    assert after == start + text;
    if named {
      var name := Quote(it.key.name);
      ExtendsMember(" ", " ", text, it);
      ExtendedIs(d, name + " " + ":" + " " + text, named, it, true, it.rest, false);
      MemberText(d, name, text);
    } else {
      ExtendsElement(text, it);
      ExtendedIs(d, text, named, it, true, it.rest, false);
    }
    ExtendedTwice(document, d, after, named, it, true, it, true, it.rest, false);
  }

  lemma MemberText(d: string, name: string, text: string)
    ensures d + (name + " " + ":" + " " + text) == d + name + " : " + text
  {
    Concat3(name + " ", ":", " ");
    Concat3(name, " ", ":" + " ");
    assert " " + (":" + " ") == " : ";
    Concat3(d, name + " : ", text);
    Concat3(d, name, " : ");
  }

  // ----- the writer, with its reused buffer -----

  class StyledWriter {
    var childValues_: seq<string>
    var document_: string
    var indentString_: string
    var addChildValues_: bool

    constructor ()
    {
      childValues_, document_, indentString_, addChildValues_ := [], "", "", false;
    }

    method Write(root: Value) returns (s: string)
      requires Writable(root)
      modifies this
      ensures s == document_ == Styled("", root, "") + "\n"
      ensures indentString_ == ""
    {
      document_ := "";
      addChildValues_ := false;
      indentString_ := "";
      WriteValue(root);
      document_ := document_ + "\n";
      s := document_;
    }

    method PushValue(value: string)
      modifies this`childValues_, this`document_
      ensures childValues_ == if addChildValues_ then old(childValues_) + [value] else old(childValues_)
      ensures document_ == if addChildValues_ then old(document_) else old(document_) + value
    {
      if addChildValues_ {
        childValues_ := childValues_ + [value];
      } else {
        document_ := document_ + value;
      }
    }

    method WriteIndent()
      modifies this`document_
      ensures document_ == old(document_) + IndentText(old(document_), indentString_)
    {
      if document_ != "" {
        var last := document_[|document_| - 1];
        if last == ' ' { return; }
        if last != '\n' { document_ := document_ + "\n"; }
      }
      document_ := document_ + indentString_;
    }

    method WriteWithIndent(value: string)
      modifies this`document_
      ensures document_ == old(document_) + IndentText(old(document_), indentString_) + value
    {
      WriteIndent();
      document_ := document_ + value;
    }

    method Indent()
      modifies this`indentString_
      ensures indentString_ == old(indentString_) + "   "
    {
      indentString_ := indentString_ + "   ";
    }

    method Unindent()
      requires |indentString_| >= 3
      modifies this`indentString_
      ensures indentString_ == old(indentString_)[..|old(indentString_)| - 3]
    {
      indentString_ := indentString_[..|indentString_| - 3];
    }

    /** Prints `v`, or buffers its text while elements are being collected. */
    method WriteValue(v: Value)
      requires Writable(v) && (addChildValues_ ==> Flat(v))
      modifies this
      ensures indentString_ == old(indentString_) && addChildValues_ == old(addChildValues_)
      ensures addChildValues_ ==> document_ == old(document_) && childValues_ == old(childValues_) + [FlatText(v)]
      ensures !addChildValues_ ==> document_ == Styled(old(document_), v, indentString_)
      decreases v, 2
    {
      if v.Arr? {
        WriteArrayValue(v);
      } else if v.Obj? {
        if v.members.End? {
          PushValue("{}");
        } else {
          WriteWithIndent("{");
          WriteMembers(v.members);
          WriteWithIndent("}");
        }
      } else {
        var s := ScalarToString(v);
        PushValue(s);
      }
    }

    /** The members of an object, one per line. */
    method WriteMembers(ms: Members)
      requires AllWritable(ms) && NamesAscend(ms) && ms.Member? && !addChildValues_
      modifies this
      ensures indentString_ == old(indentString_) && !addChildValues_
      ensures document_ == StyledItems(old(document_), ms, true, old(indentString_) + "   ")
      decreases ms, 1
    {
      Indent();
      var it := ms;
      while true
        invariant it.Member? && (it == ms || it < ms) && AllWritable(it) && NamesAscend(it) && !addChildValues_
        invariant indentString_ == old(indentString_) + "   "
        invariant StyledItems(document_, it, true, indentString_) == StyledItems(old(document_), ms, true, indentString_)
        decreases it
      {
        var name := ValueToQuotedString(it.key.name);
        WriteWithIndent(name);
        document_ := document_ + " : ";
        WriteValue(it.value);
        if it.rest.End? { break; }
        it := it.rest;
        document_ := document_ + ",";
      }
      Unindent();
      assert indentString_ == old(indentString_);
    }

    method WriteArrayValue(v: Value)
      requires v.Arr? && Writable(v) && (addChildValues_ ==> Flat(v))
      modifies this
      ensures indentString_ == old(indentString_) && addChildValues_ == old(addChildValues_)
      ensures addChildValues_ ==> document_ == old(document_) && childValues_ == old(childValues_) + [FlatText(v)]
      ensures !addChildValues_ ==> document_ == Styled(old(document_), v, indentString_)
      decreases v, 1
    {
      var ms := v.elems;
      if ms.End? {
        PushValue("[]");
      } else {
        var isArrayMultiLine := IsMultilineArray(ms);
        if isArrayMultiLine {
          WriteWithIndent("[");
          WriteElements(ms);
          WriteWithIndent("]");
        } else {
          WriteLine(ms);
        }
      }
    }

    /** Decides how to print an array; the element texts stay in the buffer when they were collected. */
    method IsMultilineArray(ms: Members) returns (isMultiLine: bool)
      requires ms.Member? && AllWritable(ms) && !addChildValues_
      modifies this
      ensures indentString_ == old(indentString_) && !addChildValues_ && document_ == old(document_)
      ensures isMultiLine <==> Multiline(ms)
      ensures childValues_ == [] || (AllFlat(ms) && childValues_ == FlatTexts(ms))
      ensures !isMultiLine ==> AllFlat(ms) && childValues_ == FlatTexts(ms)
      decreases ms, 1
    {
      childValues_ := [];
      isMultiLine := IsLongOrNested(ms);
      if !isMultiLine {
        var lineLength := CollectElements(ms);
        isMultiLine := lineLength >= RIGHT_MARGIN;
      }
    }

    /** The first loop of isMultineArray: too many elements, or a container with contents among them. */
    method IsLongOrNested(ms: Members) returns (isMultiLine: bool)
      ensures isMultiLine <==> Count(ms) * 3 >= RIGHT_MARGIN || !AllFlat(ms)
    {
      isMultiLine := Count(ms) * 3 >= RIGHT_MARGIN;
      var it := ms;
      while it.Member? && !isMultiLine
        invariant isMultiLine ==> Count(ms) * 3 >= RIGHT_MARGIN || !AllFlat(ms)
        invariant !isMultiLine ==> Count(ms) * 3 < RIGHT_MARGIN && (AllFlat(ms) <==> AllFlat(it))
        decreases it
      {
        isMultiLine := !Flat(it.value);
        it := it.rest;
      }
    }

    /** The second loop of isMultineArray: the element texts are buffered and measured. */
    method CollectElements(ms: Members) returns (lineLength: int)
      requires ms.Member? && AllWritable(ms) && AllFlat(ms) && childValues_ == []
      modifies this
      ensures indentString_ == old(indentString_) && !addChildValues_ && document_ == old(document_)
      ensures childValues_ == FlatTexts(ms)
      ensures lineLength == 4 + (Count(ms) - 1) * 2 + TotalLength(ms)
      decreases ms, 0
    {
      addChildValues_ := true;
      var start := 4 + (Count(ms) - 1) * 2;
      lineLength := start;
      var it := ms;
      while it.Member?
        invariant addChildValues_ && document_ == old(document_) && indentString_ == old(indentString_)
        invariant it == ms || it < ms
        invariant Collected(childValues_, lineLength - start, it, ms)
        decreases it
      {
        CollectedNext(childValues_, lineLength - start, it, ms);
        WriteValue(it.value);
        lineLength := lineLength + |childValues_[|childValues_| - 1]|;
        it := it.rest;
      }
      addChildValues_ := false;
    }

    /** The elements of an array, one per line; the buffered texts are used when there are any. */
    method WriteElements(ms: Members)
      requires AllWritable(ms) && ms.Member? && !addChildValues_
      requires childValues_ == [] || (AllFlat(ms) && childValues_ == FlatTexts(ms))
      modifies this
      ensures indentString_ == old(indentString_) && !addChildValues_
      ensures document_ == StyledItems(old(document_), ms, false, old(indentString_) + "   ")
      decreases ms, 1
    {
      Indent();
      var hasChildValue := childValues_ != [];
      var it, index := ms, 0;
      while true
        invariant it.Member? && (it == ms || it < ms) && AllWritable(it) && !addChildValues_
        invariant indentString_ == old(indentString_) + "   "
        invariant hasChildValue ==> index <= |childValues_| && AllFlat(it) && childValues_[index..] == FlatTexts(it)
        invariant StyledItems(document_, it, false, indentString_) == StyledItems(old(document_), ms, false, indentString_)
        decreases it
      {
        WriteElement(it, index, hasChildValue);
        if it.rest.End? { break; }
        if hasChildValue { assert childValues_[index + 1..] == FlatTexts(it)[1..] == FlatTexts(it.rest); }
        it, index := it.rest, index + 1;
        document_ := document_ + ",";
      }
      Unindent();
      assert indentString_ == old(indentString_);
    }

    /** One element on a line of its own. */
    method WriteElement(it: Members, index: nat, hasChildValue: bool)
      requires it.Member? && AllWritable(it) && !addChildValues_
      requires hasChildValue ==> index <= |childValues_| && AllFlat(it) && childValues_[index..] == FlatTexts(it)
      modifies this
      ensures indentString_ == old(indentString_) && !addChildValues_
      ensures hasChildValue ==> childValues_ == old(childValues_)
      ensures document_ == StyledItem(old(document_), it, false, indentString_)
      decreases it, 0
    {
      if hasChildValue {
        assert childValues_[index] == childValues_[index..][0] == FlatText(it.value);
        WriteWithIndent(childValues_[index]);
      } else {
        WriteIndent();
        WriteValue(it.value);
      }
    }

    /** An array on one line, from the buffered texts. */
    method WriteLine(ms: Members)
      requires AllWritable(ms) && ms.Member? && AllFlat(ms) && childValues_ == FlatTexts(ms)
      modifies this`document_
      ensures document_ == old(document_) + LineText(ms)
    {
      assert |childValues_| == Count(ms);  // the size assertion of writeArrayValue
      document_ := document_ + "[ ";
      var it, index := ms, 0;
      while index < |childValues_|
        invariant index <= |childValues_| && AllWritable(it) && AllFlat(it) && childValues_[index..] == FlatTexts(it)
        invariant document_ + LineItems(it, index == 0) == old(document_) + "[ " + LineItems(ms, true)
        decreases it
      {
        assert it.Member?;
        ghost var before := document_;
        if index > 0 { document_ := document_ + ", "; }
        assert childValues_[index] == childValues_[index..][0] == FlatText(it.value);
        document_ := document_ + childValues_[index];
        Concat4(before, if index == 0 then "" else ", ", FlatText(it.value), LineItems(it.rest, false));
        assert before + "" == before;
        assert childValues_[index + 1..] == FlatTexts(it)[1..] == FlatTexts(it.rest);
        it, index := it.rest, index + 1;
      }
      document_ := document_ + " ]";
      LineIs(old(document_), LineItems(ms, true));
    }

    lemma LineIs(before: string, items: string)
      ensures before + "[ " + items + " ]" == before + ("[" + (" " + items + " ") + "]")
    {
      assert "[ " == "[" + " " && " ]" == " " + "]";
    }
  }

  // ----- main results -----

  /** The tokens run together, with a blank behind each colon when the YAML spacing is asked for. */
  function Spaced(tokens: seq<string>, yaml: bool): string {
    if tokens == [] then "" else (if yaml && tokens[0] == ":" then ": " else tokens[0]) + Spaced(tokens[1..], yaml)
  }

  lemma {:induction false} NotSpaced(tokens: seq<string>)
    ensures Spaced(tokens, false) == Concat(tokens)
  {
    if tokens != [] { NotSpaced(tokens[1..]); }
  }

  lemma NoColon(v: Value)
    requires Writable(v) && !v.Arr? && !v.Obj?
    ensures Scalar(v) != ":"
  {
    if v.Str? { assert |Quote(v.c.s)| >= 2; } else { hide Digits; }
  }

  /** FastWriter's text is the tokens run together. */
  lemma {:induction false} FastIsTokens(v: Value, more: seq<string>, yaml: bool)
    requires Writable(v)
    ensures Spaced(Tokens(v, more), yaml) == FastText(v, yaml) + Spaced(more, yaml)
    decreases v, 1
  {
    if v.Arr? || v.Obj? {
      var named := v.Obj?;
      var ms := if named then v.members else v.elems;
      var open, close := if named then "{" else "[", if named then "}" else "]";
      FastItemsAreTokens(ms, named, true, [close] + more, yaml);
      ClosedTokens(open, FastItems(ms, named, true, yaml), close, ItemTokens(ms, named, true, [close] + more), more, yaml);
    } else {
      NoColon(v);
      SpacedOne(Scalar(v), more, yaml);
    }
  }

  lemma ClosedTokens(open: string, items: string, close: string, tokens: seq<string>, more: seq<string>, yaml: bool)
    requires open != ":" && close != ":" && Spaced(tokens, yaml) == items + Spaced([close] + more, yaml)
    ensures Spaced([open] + tokens, yaml) == open + items + close + Spaced(more, yaml)
  {
    assert ([open] + tokens)[1..] == tokens;
    assert ([close] + more)[1..] == more;
    Concat3(items, close, Spaced(more, yaml));
    Concat3(open, items + close, Spaced(more, yaml));
    Concat3(open, items, close);
  }

  lemma {:induction false} FastItemsAreTokens(ms: Members, named: bool, first: bool, more: seq<string>, yaml: bool)
    requires ItemsOk(ms, named)
    ensures Spaced(ItemTokens(ms, named, first, more), yaml) == FastItems(ms, named, first, yaml) + Spaced(more, yaml)
    decreases ms, 0
  {
    if ms.End? {
      assert "" + Spaced(more, yaml) == Spaced(more, yaml);
    } else {
      var rest := ItemTokens(ms.rest, named, false, more);
      FastItemsAreTokens(ms.rest, named, false, more, yaml);
      FastIsTokens(ms.value, rest, yaml);
      HeadTokens(ms, named, first, Tokens(ms.value, rest), yaml);
      Concat4(FastHead(ms, named, first, yaml), FastText(ms.value, yaml), FastItems(ms.rest, named, false, yaml), Spaced(more, yaml));
      Concat3(FastHead(ms, named, first, yaml), FastText(ms.value, yaml), FastItems(ms.rest, named, false, yaml));
    }
  }

  lemma SpacedOne(token: string, tokens: seq<string>, yaml: bool)
    requires token != ":"
    ensures Spaced([token] + tokens, yaml) == token + Spaced(tokens, yaml)
  {
    assert ([token] + tokens)[1..] == tokens;
  }

  lemma NameTokens(name: string, tokens: seq<string>, yaml: bool)
    requires name != ":"
    ensures Spaced([name, ":"] + tokens, yaml) == name + (if yaml then ": " else ":") + Spaced(tokens, yaml)
  {
    assert [name, ":"] + tokens == [name] + ([":"] + tokens);
    SpacedOne(name, [":"] + tokens, yaml);
    assert ([":"] + tokens)[1..] == tokens;
    Concat3(name, if yaml then ": " else ":", Spaced(tokens, yaml));
  }

  lemma HeadTokens(ms: Members, named: bool, first: bool, tokens: seq<string>, yaml: bool)
    requires ms.Member? && (named ==> ms.key.Name?)
    ensures Spaced((if first then [] else [","]) + (if named then [Quote(ms.key.name), ":"] else []) + tokens, yaml) ==
            FastHead(ms, named, first, yaml) + Spaced(tokens, yaml)
  {
    var name := if named then [Quote(ms.key.name), ":"] else [];
    var head := FastHead(ms, named, true, yaml);
    var middle := name + tokens;
    if named { assert |Quote(ms.key.name)| >= 2; NameTokens(Quote(ms.key.name), tokens, yaml); } else { assert middle == tokens; }
    assert Spaced(middle, yaml) == head + Spaced(tokens, yaml);
    if first {
      assert [] + name + tokens == middle;
    } else {
      assert [","] + name + tokens == [","] + middle;
      SpacedOne(",", middle, yaml);
      Concat3(",", head, Spaced(tokens, yaml));
    }
  }

  /**
   Both writers print the same text once white space outside string literals is removed,
   and that text is FastWriter's.
   */
  lemma StyledAgreesWithFast(styled: string, v: Value)
    requires Writable(v) && Renders(styled, v)
    ensures Compact(styled, Outside) == FastText(v, false)
    ensures Compact(FastText(v, true), Outside) == FastText(v, false)
  {
    FastRenders(v, true);
    RenderingsAgree(styled, FastText(v, true), v);
    FastIsTokens(v, [], false);
    NotSpaced(Tokens(v, []));
    assert FastText(v, false) + "" == FastText(v, false);
  }

  /** StyledWriter's output, white space apart, is FastWriter's, and it reads back as the same tree. */
  lemma StyledRoundTrip(v: Value, root: Value, scan: DoubleParser)
    requires Writable(v)
    ensures Compact(Styled("", v, ""), Outside) == FastText(v, false)
    ensures AllExact(v) ==>
              var o := Parse(Styled("", v, "") + "\n", root, scan); o.ok && o.value == Canon(v) && o.errors == []
  {
    var text := Styled("", v, "");
    StyledRenders("", v, "");
    assert text[|""|..] == text;
    StyledAgreesWithFast(text, v);
    RoundTrip(text, v, root);
  }

  /** FastWriter's output reads back, with or without the YAML spacing. */
  lemma FastRoundTrip(v: Value, yaml: bool, root: Value, scan: DoubleParser)
    requires Writable(v) && AllExact(v)
    ensures var o := Parse(FastText(v, yaml) + "\n", root, scan); o.ok && o.value == Canon(v) && o.errors == []
  {
    FastRenders(v, yaml);
    RoundTrip(FastText(v, yaml), v, root);
  }
}
