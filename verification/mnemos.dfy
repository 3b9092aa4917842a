/** A model of the mnemonic renderer of jcabi-aspects (class Mnemos): it turns a
    method call into the log fragment `#name(arg1, arg2, ...)`.

    Java values are a closed datatype. What Java computes by virtual dispatch
    (an object's toString(), getClass().getName(), an exception's text) is carried
    as opaque strings inside the values, and the jcabi-log trimmer is a parameter.
    The specification functions come first; the methods after them follow the
    source's StringBuilder loops and are proved equal to those functions. */
module Mnemos {

  /** What a Java call that may throw produced: its text, or the text of the
      exception it threw (the exception's own toString()). */
  datatype Outcome = Done(text: string) | Threw(error: string)

  /** The "trim long texts" formatter, `Logger.format("%[text]s", ...)`: it may
      shorten its input, or throw. */
  type Trimmer = string -> Outcome

  /** A Java argument value, classified the way the renderer looks at it. */
  datatype Value =
    | Null
      /** A java.lang.String. */
    | Str(s: string)
      /** An array whose elements are references (Object[], String[], int[][], ...),
          so the cast to Object[] succeeds. */
    | ObjArr(className: string, elems: seq<Value>)
      /** An array of a primitive type (int[], byte[], ...): isArray() holds but the
          cast to Object[] throws; castError is that ClassCastException's text. */
    | PrimArr(className: string, castError: string)
      /** Any other object; toStr is what its toString() does. A toString() that
          returns null is a Threw as well, since the renderer then throws a
          NullPointerException on it. */
    | Obj(className: string, toStr: Outcome)

  /** The separator between rendered elements and arguments. */
  const Comma: string := ", "

  /** getClass().getName() of a non-null value. */
  function ClassName(v: Value): string
    requires !v.Null?
  {
    match v
    case Str(_) => "java.lang.String"
    case ObjArr(c, _) => c
    case PrimArr(c, _) => c
    case Obj(c, _) => c
  }

  /** `String.format("'%s'", s)`: single quotes around s, nothing inside escaped. */
  function Quote(s: string): (r: string)
    ensures |r| == |s| + 2 && r[0] == '\'' && r[|r| - 1] == '\''
    ensures r[1..|r| - 1] == s
  {
    "'" + s + "'"
  }

  /** The inline diagnostic `[<class> thrown <exception>]` that replaces a value
      whose rendering failed. */
  function Placeholder(className: string, error: string): (r: string)
    ensures |r| > 0 && r[0] == '[' && r[|r| - 1] == ']'
  {
    "[" + className + " thrown " + error + "]"
  }

  /** The parts separated by ", ", in order, with nothing around them. */
  function Join(parts: seq<string>): string
    decreases |parts|
  {
    if |parts| == 0 then ""
    else if |parts| == 1 then parts[0]
    else Join(parts[..|parts| - 1]) + Comma + parts[|parts| - 1]
  }

  /** What `arg.toString()` does for a non-array value. */
  function Stringify(v: Value): Outcome
    requires v.Str? || v.Obj?
  {
    if v.Str? then Done(v.s) else v.toStr
  }

  /** Whether the text `origin` of a non-array value is put in single quotes:
      always for a String, otherwise when it is empty or holds a space. */
  predicate NeedsQuotes(v: Value, origin: string)
  {
    v.Str? || ' ' in origin || origin == ""
  }

  /** The private `toText(Object)`: the untrimmed text of a non-null value, or the
      exception it throws. */
  function CoreText(v: Value, fmt: Trimmer): (r: Outcome)
    requires !v.Null?
    ensures r.Done? ==> |r.text| > 0
    decreases v, 1
  {
    match v
    case ObjArr(_, _) => Done("[" + Join(ElementTexts(v, fmt)) + "]")
    case PrimArr(_, castError) => Threw(castError)
    case Str(_) => TextOf(v)
    case Obj(_, _) => TextOf(v)
  }

  /** The non-array branch of `toText(Object)`: `arg.toString()`, quoted when
      NeedsQuotes says so, otherwise verbatim. */
  function TextOf(v: Value): Outcome
    requires v.Str? || v.Obj?
  {
    match Stringify(v)
    case Threw(e) => Threw(e)
    case Done(origin) => Done(if NeedsQuotes(v, origin) then Quote(origin) else origin)
  }

  /** The renderings of an object array's elements, each untrimmed. */
  function ElementTexts(v: Value, fmt: Trimmer): (parts: seq<string>)
    requires v.ObjArr?
    ensures |parts| == |v.elems|
    decreases v, 0
  {
    seq(|v.elems|, i requires 0 <= i < |v.elems| => Rendered(v.elems[i], false, fmt))
  }

  /** The `try` block of `toText(Object, boolean)` once the core text is known:
      that text, passed through the trimmer when trim is set; either step may
      have thrown. */
  function Trimmed(core: Outcome, trim: bool, fmt: Trimmer): Outcome
  {
    match core
    case Threw(e) => Threw(e)
    case Done(mnemo) => if trim then fmt(mnemo) else Done(mnemo)
  }

  /** `toText(Object, boolean)`: "NULL" for null, otherwise the (trimmed) core
      text, and the placeholder when either step threw. An untrimmed rendering is
      never empty. */
  function Rendered(v: Value, trim: bool, fmt: Trimmer): (r: string)
    ensures !trim ==> |r| > 0
    decreases v, 2
  {
    if v.Null? then "NULL"
    else
      match Trimmed(CoreText(v, fmt), trim, fmt)
      case Done(text) => text
      case Threw(e) => Placeholder(ClassName(v), e)
  }

  /** The renderings of a call's arguments, each with the caller's trim flag. */
  function ArgTexts(args: seq<Value>, trim: bool, fmt: Trimmer): (parts: seq<string>)
    ensures |parts| == |args|
  {
    seq(|args|, i requires 0 <= i < |args| => Rendered(args[i], trim, fmt))
  }

  /** `toText(Method, Object[], boolean)`: `#name(` + the joined arguments + `)`. */
  function Mnemo(name: string, args: seq<Value>, trim: bool, fmt: Trimmer): string
  {
    "#" + name + "(" + Join(ArgTexts(args, trim, fmt)) + ")"
  }

  /** `toText(Method, Object[], boolean)`, building the text in a buffer; the
      method is represented by its name. */
  method MethodToText(name: string, args: seq<Value>, trim: bool, fmt: Trimmer)
    returns (log: string)
    ensures log == Mnemo(name, args, trim, fmt)
  {
    log := "#" + name + "(";
    ghost var parts := ArgTexts(args, trim, fmt);
    var pos := 0;
    while pos < |args|
      invariant 0 <= pos <= |args|
      invariant log == "#" + name + "(" + Join(parts[..pos])
    {
      if pos > 0 {
        log := log + Comma;
      }
      var item := ValueToText(args[pos], trim, fmt);
      assert parts[..pos + 1][..pos] == parts[..pos];
      log := log + item;
      pos := pos + 1;
    }
    assert parts[..pos] == parts;
    log := log + ")";
  }

  /** The deprecated `toString(Method, Object[], boolean)`: the same text. */
  method MethodToString(name: string, args: seq<Value>, trim: bool, fmt: Trimmer)
    returns (log: string)
    ensures log == Mnemo(name, args, trim, fmt)
  {
    log := MethodToText(name, args, trim, fmt);
  }

  /** `toText(Object, boolean)`: never fails; a failure inside becomes the
      placeholder. */
  method ValueToText(v: Value, trim: bool, fmt: Trimmer) returns (text: string)
    ensures text == Rendered(v, trim, fmt)
    decreases v, 2
  {
    if v.Null? {
      text := "NULL";
    } else {
      var attempt := CoreToText(v, fmt);
      if attempt.Done? && trim {
        attempt := fmt(attempt.text);
      }
      match attempt
      case Done(mnemo) => text := mnemo;
      case Threw(e) => text := "[" + ClassName(v) + " thrown " + e + "]";
    }
  }

  /** The deprecated `toString(Object, boolean)`: the same text. */
  method ValueToString(v: Value, trim: bool, fmt: Trimmer) returns (text: string)
    ensures text == Rendered(v, trim, fmt)
  {
    text := ValueToText(v, trim, fmt);
  }

  /** The private `toText(Object)`: an object array goes through the buffer loop
      of ArrayToText, a primitive array fails the cast to Object[], and any other
      value gives its quoted or verbatim text. */
  method CoreToText(v: Value, fmt: Trimmer) returns (r: Outcome)
    requires !v.Null?
    ensures r == CoreText(v, fmt)
    decreases v, 1
  {
    match v
    case ObjArr(_, _) =>
      var text := ArrayToText(v, fmt);
      r := Done(text);
    case PrimArr(_, castError) =>
      r := Threw(castError);
    case Str(_) =>
      r := TextOf(v);
    case Obj(_, _) =>
      r := TextOf(v);
  }

  /** The array branch of `toText(Object)`. The elements are rendered one by one
      into a buffer that starts with "["; a separator goes in whenever the buffer
      already holds more than that bracket, which is exactly "after the first
      element" because no untrimmed rendering is empty. */
  method ArrayToText(v: Value, fmt: Trimmer) returns (text: string)
    requires v.ObjArr?
    ensures text == "[" + Join(ElementTexts(v, fmt)) + "]"
    decreases v, 0
  {
    ghost var parts := ElementTexts(v, fmt);
    var bldr := "[";
    var i := 0;
    while i < |v.elems|
      invariant 0 <= i <= |v.elems|
      invariant bldr == "[" + Join(parts[..i])
      invariant |bldr| > 1 <==> i > 0
    {
      if |bldr| > 1 {
        bldr := bldr + Comma;
      }
      var item := ValueToText(v.elems[i], false, fmt);
      assert parts[..i + 1][..i] == parts[..i];
      bldr := bldr + item;
      i := i + 1;
    }
    assert parts[..i] == parts;
    text := bldr + "]";
  }
}
