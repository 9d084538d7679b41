/**
 The two JSON writers.  FastWriter prints one line; StyledWriter prints either a line or an
 indented block per container.  Both print a rendering of the value.
 */
module JsonWriter {
  import opened CText
  import opened JsonValue
  import opened JsonNumber
  import opened JsonText
  import opened JsonReading
  import opened JsonRoundTrip

  // ----- pieces of a rendering -----

  ghost predicate ItemsOk(ms: Members, named: bool) {
    AllWritable(ms) && (named ==> NamesAscend(ms))
  }

  /** The tokens of the items of an array, or of an object when `named`. */
  ghost function ItemTokens(ms: Members, named: bool, first: bool, more: seq<string>): seq<string>
    requires ItemsOk(ms, named)
  {
    if named then MemberTokens(ms, first, more) else ElementTokens(ms, first, more)
  }

  /** Put in front of a layout of the items `b`, `text` makes a layout of the items `a`. */
  ghost predicate Extends(text: string, named: bool, a: Members, fa: bool, b: Members, fb: bool) {
    ItemsOk(a, named) && ItemsOk(b, named) &&
    forall r, more :: Layout(r, ItemTokens(b, named, fb, more)) ==> Layout(text + r, ItemTokens(a, named, fa, more))
  }

  lemma ExtendsNothing(named: bool, a: Members, first: bool)
    requires ItemsOk(a, named)
    ensures Extends("", named, a, first, a, first)
  {
    forall r, more | Layout(r, ItemTokens(a, named, first, more))
      ensures Layout("" + r, ItemTokens(a, named, first, more))
    {
      assert "" + r == r;
    }
  }

  lemma ExtendsTwice(x: string, y: string, named: bool, a: Members, fa: bool, b: Members, fb: bool, c: Members, fc: bool)
    requires Extends(x, named, a, fa, b, fb) && Extends(y, named, b, fb, c, fc)
    ensures Extends(x + y, named, a, fa, c, fc)
  {
    forall r, more | Layout(r, ItemTokens(c, named, fc, more))
      ensures Layout(x + y + r, ItemTokens(a, named, fa, more))
    {
      assert Layout(y + r, ItemTokens(b, named, fb, more));
      assert x + y + r == x + (y + r);
    }
  }

  lemma ExtendsSpace(ws: string, named: bool, a: Members, first: bool)
    requires ItemsOk(a, named) && AllSpace(ws)
    ensures Extends(ws, named, a, first, a, first)
  {
    forall r, more | Layout(r, ItemTokens(a, named, first, more))
      ensures Layout(ws + r, ItemTokens(a, named, first, more))
    {
      LayoutAfterSpace(ws, r, ItemTokens(a, named, first, more));
    }
  }

  lemma ExtendsComma(named: bool, a: Members)
    requires ItemsOk(a, named) && a.Member?
    ensures Extends(",", named, a, false, a, true)
  {
    forall r, more | Layout(r, ItemTokens(a, named, true, more))
      ensures Layout("," + r, ItemTokens(a, named, false, more))
    {
      assert ItemTokens(a, named, false, more) == [","] + ItemTokens(a, named, true, more);
      LayoutToken(",", r, ItemTokens(a, named, true, more));
    }
  }

  lemma ExtendsElement(text: string, a: Members)
    requires ItemsOk(a, false) && a.Member? && Renders(text, a.value)
    ensures Extends(text, false, a, true, a.rest, false)
  {
    forall r, more | Layout(r, ItemTokens(a.rest, false, false, more))
      ensures Layout(text + r, ItemTokens(a, false, true, more))
    {
      var tail := ElementTokens(a.rest, false, more);
      assert [] + Tokens(a.value, tail) == Tokens(a.value, tail);
    }
  }

  lemma Concat3(a: string, b: string, c: string)
    ensures a + b + c == a + (b + c)
  {
  }

  lemma Concat4(a: string, b: string, c: string, d: string)
    ensures a + b + c + d == a + (b + (c + d))
  {
  }

  /** A token, white space after it, and a layout. */
  lemma LayoutSpaced(token: string, ws: string, s: string, tokens: seq<string>)
    requires token != "" && !IsSpace(token[0]) && AllSpace(ws) && Layout(s, tokens)
    ensures Layout(token + ws + s, [token] + tokens)
  {
    LayoutAfterSpace(ws, s, tokens);
    LayoutToken(token, ws + s, tokens);
    Concat3(token, ws, s);
  }

  lemma MemberLayout(name: string, before: string, after: string, text: string, r: string, tokens: seq<string>)
    requires AllSpace(before) && AllSpace(after) && Layout(text + r, tokens)
    ensures Layout(Quote(name) + before + ":" + after + text + r, [Quote(name), ":"] + tokens)
  {
    LayoutSpaced(":", after, text + r, tokens);
    LayoutSpaced(Quote(name), before, ":" + after + (text + r), [":"] + tokens);
    Concat4(Quote(name) + before, ":" + after, text, r);
    Concat3(":", after, text + r);
    Concat3(Quote(name) + before, ":", after);
    Concat3(":" + after, text, r);
    assert [Quote(name), ":"] + tokens == [Quote(name)] + ([":"] + tokens);
  }

  lemma ExtendsMember(before: string, after: string, text: string, a: Members)
    requires ItemsOk(a, true) && a.Member? && Renders(text, a.value) && AllSpace(before) && AllSpace(after)
    ensures Extends(Quote(a.key.name) + before + ":" + after + text, true, a, true, a.rest, false)
  {
    var whole := Quote(a.key.name) + before + ":" + after + text;
    forall r, more | Layout(r, ItemTokens(a.rest, true, false, more))
      ensures Layout(whole + r, ItemTokens(a, true, true, more))
    {
      var tokens := Tokens(a.value, MemberTokens(a.rest, false, more));
      assert Layout(text + r, tokens);
      MemberLayout(a.key.name, before, after, text, r, tokens);
      assert ItemTokens(a, true, true, more) == [Quote(a.key.name), ":"] + tokens;
    }
  }

  /** Brackets around all items render the container. */
  lemma RendersContainer(x: string, ms: Members, named: bool)
    requires Writable(Container(ms, named))
    requires Extends(x, named, ms, true, End, false)
    ensures Renders((if named then "{" else "[") + x + (if named then "}" else "]"), Container(ms, named))
  {
    hide Layout, Writable;
    var open, close := if named then "{" else "[", if named then "}" else "]";
    forall r, more | Layout(r, more)
      ensures Layout(open + x + close + r, Tokens(Container(ms, named), more))
    {
      LayoutToken(close, r, more);
      assert Layout(close + r, ItemTokens(End, named, false, [close] + more));
      assert Layout(x + (close + r), ItemTokens(ms, named, true, [close] + more));
      LayoutToken(open, x + (close + r), ItemTokens(ms, named, true, [close] + more));
      assert open + x + close + r == open + (x + (close + r));
    }
  }

  lemma RendersScalar(v: Value)
    requires Writable(v) && !v.Arr? && !v.Obj?
    ensures Renders(Scalar(v), v)
  {
    ScalarStart(v);
    forall r, more | Layout(r, more)
      ensures Layout(Scalar(v) + r, Tokens(v, more))
    {
      LayoutToken(Scalar(v), r, more);
    }
  }

  lemma RendersEmpty(named: bool)
    ensures Renders(if named then "{}" else "[]", Container(End, named))
  {
    forall r, more | Layout(r, ItemTokens(End, named, false, more))
      ensures Layout("" + r, ItemTokens(End, named, true, more))
    {
      assert "" + r == r;
    }
    assert Extends("", named, End, true, End, false);
    assert "{" + "" + "}" == "{}" && "[" + "" + "]" == "[]";
    RendersContainer("", End, named);
  }

  // ----- quoting -----

  predicate Special(c: char) {
    c == '"' || c == '\\' || c == BACKSPACE || c == FORMFEED || c == '\n' || c == '\r' || c == '\t'
  }

  lemma {:induction false} EscapePlain(s: string)
    requires forall i :: 0 <= i < |s| ==> !Special(s[i])
    ensures Escape(s) == s
  {
    if s != "" { EscapePlain(s[1..]); }
  }

  lemma EscapeNone()
    ensures Escape("") == ""
  {
  }

  /** What one character is escaped to. */
  lemma EscapeOne(c: char)
    ensures c == '"' ==> Escape([c]) == "\\\""
    ensures c == '\\' ==> Escape([c]) == "\\\\"
    ensures c == '\n' ==> Escape([c]) == "\\n"
    ensures c == '\r' ==> Escape([c]) == "\\r"
    ensures c == '\t' ==> Escape([c]) == "\\t"
    ensures c == BACKSPACE ==> Escape([c]) == "\\b"
    ensures c == FORMFEED ==> Escape([c]) == "\\f"
    ensures !Special(c) ==> Escape([c]) == [c]
  {
    assert [c][1..] == "";
  }

  method ValueToQuotedString(value: string) returns (result: string)
    requires NulFree(value)
    ensures result == Quote(value)
  {
    hide Escape;
    if forall i :: 0 <= i < |value| ==> !Special(value[i]) {
      EscapePlain(value);
      return "\"" + value + "\"";
    }
    result := "\"";
    EscapeNone();
    assert value[..0] == "";
    for c := 0 to |value|
      invariant result == "\"" + Escape(value[..c])
    {
      assert value[..c + 1] == value[..c] + [value[c]];
      EscapeConcat(value[..c], [value[c]]);
      EscapeOne(value[c]);
      match value[c] {
        case '"' => result := result + "\\\"";
        case '\\' => result := result + "\\\\";
        case '\n' => result := result + "\\n";
        case '\r' => result := result + "\\r";
        case '\t' => result := result + "\\t";
        case ch =>
          if ch == BACKSPACE { result := result + "\\b"; }
          else if ch == FORMFEED { result := result + "\\f"; }
          else { result := result + [ch]; }
      }
    }
    assert value[..|value|] == value;
    result := result + "\"";
  }

  /** The text pushed for a value that is neither an array nor an object. */
  method ScalarToString(v: Value) returns (s: string)
    requires Writable(v) && !v.Arr? && !v.Obj?
    ensures s == Scalar(v)
  {
    match v {
      case Null => s := "null";
      case Bool(b) => s := if b then "true" else "false";
      case Int(i) => s := SignedToString(i, INT_RANGE);
      case UInt(i) => s := UnsignedToString(i);
      case Long(i) => s := SignedToString(i, LONG_RANGE);
      case ULong(i) => s := UnsignedToString(i);
      case Str(c) => s := ValueToQuotedString(c.s);
    }
  }

  // ----- FastWriter -----

  function Colon(yaml: bool): string { if yaml then ": " else ":" }

  /** What FastWriter prints. */
  function FastText(v: Value, yaml: bool): string
    requires Writable(v)
  {
    match v
    case Arr(ms) => "[" + FastItems(ms, false, true, yaml) + "]"
    case Obj(ms) => "{" + FastItems(ms, true, true, yaml) + "}"
    case _ => Scalar(v)
  }

  function FastItems(ms: Members, named: bool, first: bool, yaml: bool): string
    requires AllWritable(ms) && (named ==> NamesAscend(ms))
  {
    if ms.End? then ""
    else FastHead(ms, named, first, yaml) + (FastText(ms.value, yaml) + FastItems(ms.rest, named, false, yaml))
  }

  /** What comes before the value of an item. */
  function FastHead(ms: Members, named: bool, first: bool, yaml: bool): string
    requires ms.Member? && (named ==> ms.key.Name?)
  {
    (if first then "" else ",") + (if named then Quote(ms.key.name) + Colon(yaml) else "")
  }

  lemma {:induction false} FastRenders(v: Value, yaml: bool)
    requires Writable(v)
    ensures Renders(FastText(v, yaml), v)
    decreases v, 1
  {
    match v {
      case Arr(ms) => FastContainer(ms, false, yaml);
      case Obj(ms) => FastContainer(ms, true, yaml);
      case _ => RendersScalar(v);
    }
  }

  lemma {:induction false} FastContainer(ms: Members, named: bool, yaml: bool)
    requires Writable(Container(ms, named))
    ensures Renders(FastText(Container(ms, named), yaml), Container(ms, named))
    decreases ms, 2
  {
    if ms.End? {
      RendersEmpty(named);
      assert "[" + "" + "]" == "[]" && "{" + "" + "}" == "{}";
    } else {
      FastExtends(ms, named, true, yaml);
      RendersContainer(FastItems(ms, named, true, yaml), ms, named);
    }
  }

  lemma FastItem(ms: Members, named: bool, yaml: bool)
    requires ItemsOk(ms, named) && ms.Member? && Renders(FastText(ms.value, yaml), ms.value)
    ensures Extends(FastHead(ms, named, true, yaml) + FastText(ms.value, yaml), named, ms, true, ms.rest, false)
  {
    var text := FastText(ms.value, yaml);
    if named {
      var after := Colon(yaml)[1..];
      ExtendsMember("", after, text, ms);
      assert Quote(ms.key.name) + "" + ":" + after + text == FastHead(ms, named, true, yaml) + text;
    } else {
      ExtendsElement(text, ms);
      assert FastHead(ms, named, true, yaml) + text == text;
    }
  }

  lemma {:induction false} FastExtends(ms: Members, named: bool, first: bool, yaml: bool)
    requires ItemsOk(ms, named) && (ms.End? ==> !first)
    ensures Extends(FastItems(ms, named, first, yaml), named, ms, first, End, false)
    decreases ms, if first then 0 else 1
  {
    if ms.End? {
      ExtendsNothing(named, End, false);
    } else if !first {
      FastExtends(ms, named, true, yaml);
      ExtendsComma(named, ms);
      ExtendsTwice(",", FastItems(ms, named, true, yaml), named, ms, false, ms, true, End, false);
      FastComma(ms, named, yaml);
    } else {
      FastRenders(ms.value, yaml);
      FastItem(ms, named, yaml);
      FastExtends(ms.rest, named, false, yaml);
      var head, text, tail := FastHead(ms, named, true, yaml), FastText(ms.value, yaml), FastItems(ms.rest, named, false, yaml);
      ExtendsTwice(head + text, tail, named, ms, true, ms.rest, false, End, false);
      assert head + text + tail == head + (text + tail);
    }
  }

  lemma FastComma(ms: Members, named: bool, yaml: bool)
    requires ItemsOk(ms, named) && ms.Member?
    ensures FastItems(ms, named, false, yaml) == "," + FastItems(ms, named, true, yaml)
  {
    hide FastText;
    var head, tail := FastHead(ms, named, true, yaml), FastText(ms.value, yaml) + FastItems(ms.rest, named, false, yaml);
    assert FastHead(ms, named, false, yaml) == "," + head;
    Concat3(",", head, tail);
  }

  class FastWriter {
    var document_: string
    var yamlCompatibilityEnabled_: bool

    constructor ()
      ensures !yamlCompatibilityEnabled_
    {
      document_ := "";
      yamlCompatibilityEnabled_ := false;
    }

    method EnableYAMLCompatibility()
      modifies this`yamlCompatibilityEnabled_
      ensures yamlCompatibilityEnabled_
    {
      yamlCompatibilityEnabled_ := true;
    }

    method Write(root: Value) returns (s: string)
      requires Writable(root)
      modifies this`document_
      ensures s == document_ == FastText(root, yamlCompatibilityEnabled_) + "\n"
    {
      document_ := "";
      WriteValue(root);
      document_ := document_ + "\n";
      s := document_;
    }

    method WriteValue(v: Value)
      requires Writable(v)
      modifies this`document_
      ensures document_ == old(document_) + FastText(v, yamlCompatibilityEnabled_)
      decreases v, 1
    {
      hide Scalar;
      if v.Arr? {
        document_ := document_ + "[";
        WriteItems(v.elems, false);
        document_ := document_ + "]";
      } else if v.Obj? {
        document_ := document_ + "{";
        WriteItems(v.members, true);
        document_ := document_ + "}";
      } else {
        var s := ScalarToString(v);
        document_ := document_ + s;
      }
    }

    /** What precedes the value of one item. */
    method WriteHead(it: Members, named: bool, first: bool)
      requires it.Member? && (named ==> it.key.Name? && NulFree(it.key.name))
      modifies this`document_
      ensures document_ == old(document_) + FastHead(it, named, first, yamlCompatibilityEnabled_)
    {
      if !first { document_ := document_ + ","; }
      if named {
        var name := ValueToQuotedString(it.key.name);
        document_ := document_ + name;
        document_ := document_ + Colon(yamlCompatibilityEnabled_);
      }
    }

    /** The loop over the elements of an array or over the names of an object. */
    method WriteItems(ms: Members, named: bool)
      requires AllWritable(ms) && (named ==> NamesAscend(ms))
      modifies this`document_
      ensures document_ == old(document_) + FastItems(ms, named, true, yamlCompatibilityEnabled_)
      decreases ms, 0
    {
      var it, first := ms, true;
      while it.Member?
        invariant it == ms || it < ms
        invariant AllWritable(it) && (named ==> NamesAscend(it))
        invariant document_ + FastItems(it, named, first, yamlCompatibilityEnabled_) ==
                  old(document_) + FastItems(ms, named, true, yamlCompatibilityEnabled_)
        decreases it
      {
        ghost var done, head, text := document_, FastHead(it, named, first, yamlCompatibilityEnabled_),
                                      FastText(it.value, yamlCompatibilityEnabled_);
        WriteHead(it, named, first);
        WriteValue(it.value);
        Concat4(done, head, text, FastItems(it.rest, named, false, yamlCompatibilityEnabled_));
        it, first := it.rest, false;
      }
    }
  }
}
