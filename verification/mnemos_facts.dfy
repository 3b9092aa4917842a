/** Properties of the mnemonic renderer modelled in module Mnemos. */
module MnemosFacts {
  import opened Mnemos

  // ---------------------------------------------------------------------------
  // Joining with ", "

  /** Joining two non-empty lists is joining each and putting one separator
      between them. */
  lemma {:induction false} JoinAppend(a: seq<string>, b: seq<string>)
    requires |a| > 0 && |b| > 0
    ensures Join(a + b) == Join(a) + Comma + Join(b)
    decreases |b|
  {
    var ab := a + b;
    if |b| == 1 {
      assert ab[..|ab| - 1] == a;
    } else {
      var front := b[..|b| - 1];
      assert ab[..|ab| - 1] == a + front;
      JoinAppend(a, front);
    }
  }

  /** The first part comes first, followed by ", " and the rest when there is one. */
  lemma JoinFront(x: string, rest: seq<string>)
    ensures Join([x] + rest) == if rest == [] then x else x + Comma + Join(rest)
  {
    if rest != [] {
      JoinAppend([x], rest);
    }
  }

  /** `open + Join([head] + tail) + close`, with the first part taken out. */
  lemma JoinFrontFramed(open: string, close: string, head: string, tail: seq<string>)
    ensures open + Join([head] + tail) + close
         == open + head + (if tail == [] then "" else Comma + Join(tail)) + close
  {
    JoinFront(head, tail);
  }

  /** Three parts joined, spelled out. */
  lemma JoinThree(a: string, b: string, c: string)
    ensures Join([a, b, c]) == a + Comma + b + Comma + c
  {
    assert [a, b][..1] == [a];
    assert Join([a, b]) == a + Comma + b;
    assert [a, b, c][..2] == [a, b];
  }

  // ---------------------------------------------------------------------------
  // toText(Method, Object[], boolean)

  /** The argument renderings of `a + b` are those of a followed by those of b. */
  lemma ArgTextsAppend(a: seq<Value>, b: seq<Value>, trim: bool, fmt: Trimmer)
    ensures ArgTexts(a + b, trim, fmt) == ArgTexts(a, trim, fmt) + ArgTexts(b, trim, fmt)
  {
    var whole := ArgTexts(a + b, trim, fmt);
    forall k | |a| <= k < |whole|
      ensures whole[k] == ArgTexts(b, trim, fmt)[k - |a|]
    {
      assert (a + b)[k] == b[k - |a|];
    }
  }

  /** A call without arguments renders as `#name()`. */
  lemma MnemoNoArguments(name: string, trim: bool, fmt: Trimmer)
    ensures Mnemo(name, [], trim, fmt) == "#" + name + "()"
  {
  }

  /** Arguments keep their order: the arguments of `a + b` render as those of a,
      one separator, then those of b. */
  lemma MnemoSplit(name: string, a: seq<Value>, b: seq<Value>, trim: bool, fmt: Trimmer)
    requires |a| > 0 && |b| > 0
    ensures Mnemo(name, a + b, trim, fmt)
         == "#" + name + "(" + Join(ArgTexts(a, trim, fmt)) + Comma + Join(ArgTexts(b, trim, fmt)) + ")"
  {
    ArgTextsAppend(a, b, trim, fmt);
    JoinAppend(ArgTexts(a, trim, fmt), ArgTexts(b, trim, fmt));
  }

  /** The first argument's rendering follows `#name(` directly. */
  lemma MnemoFirst(name: string, arg: Value, rest: seq<Value>, trim: bool, fmt: Trimmer)
    ensures Mnemo(name, [arg] + rest, trim, fmt)
         == "#" + name + "(" + Rendered(arg, trim, fmt)
            + (if rest == [] then "" else Comma + Join(ArgTexts(rest, trim, fmt))) + ")"
  {
    ArgTextsAppend([arg], rest, trim, fmt);
    assert ArgTexts([arg], trim, fmt) == [Rendered(arg, trim, fmt)];
    JoinFrontFramed("#" + name + "(", ")", Rendered(arg, trim, fmt), ArgTexts(rest, trim, fmt));
  }

  /** A call with three arguments, rendered in order and separated by ", ". */
  lemma MnemoThree(name: string, x: Value, y: Value, z: Value, trim: bool, fmt: Trimmer)
    ensures Mnemo(name, [x, y, z], trim, fmt)
         == "#" + name + "(" + Rendered(x, trim, fmt) + Comma + Rendered(y, trim, fmt)
            + Comma + Rendered(z, trim, fmt) + ")"
  {
    var parts := ArgTexts([x, y, z], trim, fmt);
    assert parts == [Rendered(x, trim, fmt), Rendered(y, trim, fmt), Rendered(z, trim, fmt)];
    JoinThree(parts[0], parts[1], parts[2]);
  }

  // ---------------------------------------------------------------------------
  // toText(Object, boolean): null, quoting, failures

  /** Null renders as NULL whatever the trim flag; untrimmed, the only other value
      that renders as NULL is an object whose toString() gives exactly NULL (a
      String "NULL" is quoted). */
  lemma NullMarker(v: Value, trim: bool, fmt: Trimmer)
    ensures v.Null? ==> Rendered(v, trim, fmt) == "NULL"
    ensures Rendered(v, false, fmt) == "NULL" ==> v.Null? || (v.Obj? && v.toStr == Done("NULL"))
  {
    if !v.Null? {
      var r := Rendered(v, false, fmt);
      match v
      case ObjArr(_, _) =>
        assert CoreText(v, fmt) == Done("[" + Join(ElementTexts(v, fmt)) + "]");
        assert r[0] == '[';
      case PrimArr(c, e) =>
        assert CoreText(v, fmt) == Threw(e);
        assert r == Placeholder(c, e);
      case Str(s) =>
        assert CoreText(v, fmt) == Done(Quote(s));
      case Obj(c, Threw(e)) =>
        assert CoreText(v, fmt) == Threw(e);
        assert r == Placeholder(c, e);
      case Obj(c, Done(o)) =>
        if NeedsQuotes(v, o) {
          assert CoreText(v, fmt) == Done(Quote(o));
        }
    }
  }

  /** A String is single-quoted even without spaces, and what stands between the
      quotes is the string itself, with nothing escaped. */
  lemma StringAlwaysQuoted(s: string, fmt: Trimmer)
    ensures Rendered(Str(s), false, fmt) == "'" + s + "'"
  {
  }

  /** Any other object is quoted exactly when its text is empty or holds a space,
      and is printed verbatim exactly when it is not. */
  lemma ObjectQuoting(c: string, origin: string, fmt: Trimmer)
    ensures Rendered(Obj(c, Done(origin)), false, fmt) == Quote(origin) <==> (origin == "" || ' ' in origin)
    ensures Rendered(Obj(c, Done(origin)), false, fmt) == origin <==> !(origin == "" || ' ' in origin)
  {
    assert |Quote(origin)| != |origin|;
  }

  /** Embedded quotes are not escaped, so two different arrays can render alike:
      one String holding `a', 'b` and the two Strings `a` and `b`. */
  lemma QuotesNotEscaped(c: string, fmt: Trimmer)
    ensures Rendered(ObjArr(c, [Str("a', 'b")]), false, fmt) == "['a', 'b']"
    ensures Rendered(ObjArr(c, [Str("a"), Str("b")]), false, fmt) == "['a', 'b']"
  {
    ArraySingle(c, Str("a', 'b"), fmt);
    StringAlwaysQuoted("a', 'b", fmt);
    ArrayPair(c, Str("a"), Str("b"), fmt);
    StringAlwaysQuoted("a", fmt);
    StringAlwaysQuoted("b", fmt);
  }

  /** Nothing escapes `toText(Object, boolean)`: a non-null value's attempt fails
      exactly when its class is a primitive array (the cast to Object[] throws),
      its toString() throws, or the trimmer throws on its text; the rendering is
      then the placeholder naming the value's class and the exception. */
  lemma FailureSources(v: Value, trim: bool, fmt: Trimmer)
    requires !v.Null?
    ensures Trimmed(CoreText(v, fmt), trim, fmt).Threw?
        <==> v.PrimArr? || (v.Obj? && v.toStr.Threw?)
             || (trim && CoreText(v, fmt).Done? && fmt(CoreText(v, fmt).text).Threw?)
    ensures Trimmed(CoreText(v, fmt), trim, fmt).Threw?
        ==> Rendered(v, trim, fmt) == "[" + ClassName(v) + " thrown " + Trimmed(CoreText(v, fmt), trim, fmt).error + "]"
  {
  }

  /** A primitive array is not rendered element by element: it always yields the
      placeholder with the cast's exception. */
  lemma PrimitiveArrayPlaceholder(c: string, castError: string, trim: bool, fmt: Trimmer)
    ensures Rendered(PrimArr(c, castError), trim, fmt) == "[" + c + " thrown " + castError + "]"
  {
  }

  // ---------------------------------------------------------------------------
  // Object arrays

  /** An empty object array renders as `[]`. */
  lemma EmptyArray(c: string, fmt: Trimmer)
    ensures Rendered(ObjArr(c, []), false, fmt) == "[]"
  {
  }

  /** The core text of an object array, as the bracketed join of its elements. */
  lemma ArrayCore(c: string, es: seq<Value>, fmt: Trimmer)
    ensures CoreText(ObjArr(c, es), fmt) == Done("[" + Join(ElementTexts(ObjArr(c, es), fmt)) + "]")
  {
  }

  /** The element renderings of `[e] + rest` are e's followed by those of rest. */
  lemma ElementTextsFirst(c: string, e: Value, rest: seq<Value>, fmt: Trimmer)
    ensures ElementTexts(ObjArr(c, [e] + rest), fmt)
         == [Rendered(e, false, fmt)] + ElementTexts(ObjArr(c, rest), fmt)
  {
    var v := ObjArr(c, [e] + rest);
    var whole := ElementTexts(v, fmt);
    var tail := ElementTexts(ObjArr(c, rest), fmt);
    forall k | 0 < k < |whole|
      ensures whole[k] == tail[k - 1]
    {
      assert v.elems[k] == rest[k - 1];
    }
  }

  /** An object array renders as `[`, its first element untrimmed, then ", " and
      the remaining elements, then `]`; it never fails by itself. */
  lemma ArrayFirst(c: string, e: Value, rest: seq<Value>, fmt: Trimmer)
    ensures CoreText(ObjArr(c, [e] + rest), fmt)
         == Done("[" + Rendered(e, false, fmt)
                 + (if rest == [] then "" else Comma + Join(ElementTexts(ObjArr(c, rest), fmt))) + "]")
  {
    ElementTextsFirst(c, e, rest, fmt);
    ArrayCore(c, [e] + rest, fmt);
    JoinFrontFramed("[", "]", Rendered(e, false, fmt), ElementTexts(ObjArr(c, rest), fmt));
  }

  /** A one-element object array is its element's untrimmed rendering in brackets. */
  lemma ArraySingle(c: string, x: Value, fmt: Trimmer)
    ensures CoreText(ObjArr(c, [x]), fmt) == Done("[" + Rendered(x, false, fmt) + "]")
  {
    ArrayFirst(c, x, [], fmt);
    assert [x] + [] == [x];
  }

  /** A two-element object array is both renderings, separated by ", ", in brackets. */
  lemma ArrayPair(c: string, x: Value, y: Value, fmt: Trimmer)
    ensures CoreText(ObjArr(c, [x, y]), fmt)
         == Done("[" + Rendered(x, false, fmt) + Comma + Rendered(y, false, fmt) + "]")
  {
    ArrayFirst(c, x, [y], fmt);
    ElementTextsFirst(c, y, [], fmt);
    assert [x] + [y] == [x, y];
    assert [y] + [] == [y];
  }

  /** A failing element yields its own placeholder inside the brackets, the array
      itself still renders, and replacing one element leaves the renderings of
      all the others as they were. */
  lemma FailingElementContained(c: string, es: seq<Value>, i: nat, x: Value, fmt: Trimmer)
    requires i < |es| && !es[i].Null? && CoreText(es[i], fmt).Threw?
    ensures CoreText(ObjArr(c, es), fmt).Done?
    ensures ElementTexts(ObjArr(c, es), fmt)[i]
         == Placeholder(ClassName(es[i]), CoreText(es[i], fmt).error)
    ensures forall j :: 0 <= j < |es| && j != i
              ==> ElementTexts(ObjArr(c, es[i := x]), fmt)[j] == ElementTexts(ObjArr(c, es), fmt)[j]
  {
  }

  // ---------------------------------------------------------------------------
  // Trimming

  /** The untrimmed core text never consults the trimmer, however deeply arrays
      are nested: array elements are always rendered with trim off. */
  lemma {:induction false} CoreIgnoresTrimmer(v: Value, f: Trimmer, g: Trimmer)
    requires !v.Null?
    ensures CoreText(v, f) == CoreText(v, g)
    decreases v
  {
    if v.ObjArr? {
      forall i | 0 <= i < |v.elems|
        ensures ElementTexts(v, f)[i] == ElementTexts(v, g)[i]
      {
        if !v.elems[i].Null? {
          CoreIgnoresTrimmer(v.elems[i], f, g);
        }
      }
      assert ElementTexts(v, f) == ElementTexts(v, g);
    }
  }

  /** With trim off, the rendering does not depend on the trimmer at all. */
  lemma UntrimmedIgnoresTrimmer(v: Value, f: Trimmer, g: Trimmer)
    ensures Rendered(v, false, f) == Rendered(v, false, g)
  {
    if !v.Null? {
      CoreIgnoresTrimmer(v, f, g);
    }
  }

  /** With trim on, the trimmer is consulted once, on the whole untrimmed text
      (quotes and brackets included): two trimmers that agree on that one text
      give the same rendering. */
  lemma TrimmedOnceWhole(v: Value, f: Trimmer, g: Trimmer)
    requires !v.Null? && CoreText(v, f).Done? ==> f(CoreText(v, f).text) == g(CoreText(v, f).text)
    ensures Rendered(v, true, f) == Rendered(v, true, g)
  {
    if !v.Null? {
      CoreIgnoresTrimmer(v, f, g);
    }
  }

  /** With trim on and a core text that did not throw, the rendering is the
      trimmer applied to the untrimmed rendering, or the placeholder naming the
      trimmer's exception. */
  lemma TrimmerOnWholeText(v: Value, fmt: Trimmer)
    requires !v.Null? && CoreText(v, fmt).Done?
    ensures Rendered(v, false, fmt) == CoreText(v, fmt).text
    ensures Rendered(v, true, fmt)
         == match fmt(Rendered(v, false, fmt))
            case Done(t) => t
            case Threw(e) => Placeholder(ClassName(v), e)
  {
  }

  /** A trimmer that returns its input unchanged makes trim on and trim off agree:
      trimming is the only thing the flag changes. */
  lemma IdentityTrimmer(v: Value, fmt: Trimmer)
    ensures Rendered(v, true, s => Done(s)) == Rendered(v, false, fmt)
  {
    if !v.Null? {
      CoreIgnoresTrimmer(v, s => Done(s), fmt);
    }
  }

  // ---------------------------------------------------------------------------
  // Worked examples

  /** `#foo(1, 'a b', '')`: a number unquoted, a String with a space and an empty
      String quoted. */
  lemma ExampleCall(fmt: Trimmer)
    ensures Mnemo("foo", [Obj("java.lang.Integer", Done("1")), Str("a b"), Str("")], false, fmt)
         == "#foo(1, 'a b', '')"
  {
    MnemoThree("foo", Obj("java.lang.Integer", Done("1")), Str("a b"), Str(""), false, fmt);
    ObjectQuoting("java.lang.Integer", "1", fmt);
    assert "1" != "" && ' ' !in "1";
    StringAlwaysQuoted("a b", fmt);
    StringAlwaysQuoted("", fmt);
  }

  /** An array with a String and a number: no spaces inside the brackets, and the
      trimmer sees the whole bracketed text, not the elements. */
  lemma ExampleArray(fmt: Trimmer)
    ensures Rendered(ObjArr("[Ljava.lang.Object;", [Str("a b"), Obj("java.lang.Integer", Done("7"))]), false, fmt)
         == "['a b', 7]"
    ensures fmt("['a b', 7]").Done?
        ==> Rendered(ObjArr("[Ljava.lang.Object;", [Str("a b"), Obj("java.lang.Integer", Done("7"))]), true, fmt)
            == fmt("['a b', 7]").text
  {
    ArrayPair("[Ljava.lang.Object;", Str("a b"), Obj("java.lang.Integer", Done("7")), fmt);
    StringAlwaysQuoted("a b", fmt);
    ObjectQuoting("java.lang.Integer", "7", fmt);
  }
}
