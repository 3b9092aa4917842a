# Mnemos: the mnemonic renderer of jcabi-aspects

jcabi-aspects logs method calls as one-line "mnemos" such as `#foo(1, 'a b', '')`.
The class `com.jcabi.aspects.aj.Mnemos` builds them. `toText(Method, Object[], boolean)`
writes `#`, the method name, `(`, the rendered arguments separated by `", "`, and `)`.
Each argument goes through `toText(Object, boolean)`:

- null becomes `NULL`;
- otherwise the private `toText(Object)` produces the core text, which the jcabi-log
  trimmer (`Logger.format("%[text]s", ...)`) shortens when the trim flag is set;
- any exception on the way becomes the inline diagnostic `[<class> thrown <exception>]`.

The private `toText(Object)` renders an object array as `[` + its elements joined by
`", "` + `]`. Each element is rendered by `toText(item, false)`, so elements are never
trimmed. A `String` is always put in single quotes. Any other value is quoted when its
`toString()` is empty or holds a space, and printed verbatim otherwise. Quotes inside
the text are not escaped.

The model has two files:

- `mnemos.dfy` (module `Mnemos`). Java values are a closed datatype `Value`:
  - `Null`;
  - `Str` for a String;
  - `ObjArr` for an array of references;
  - `PrimArr` for an array of a primitive type, whose cast to `Object[]` at line 177 throws;
  - `Obj` for any other object, carrying what its `toString()` returns or throws.

  Class names and exception texts are opaque strings carried in the values. The trimmer
  is a parameter `fmt: string -> Outcome`, so it may also throw. The specification
  functions are:
  - `Rendered` for `toText(Object, boolean)`;
  - `CoreText`, with `TextOf` for its non-array branch, for `toText(Object)`;
  - `Trimmed` for the trim step inside the `try`;
  - `Mnemo` for `toText(Method, Object[], boolean)`;
  - `Join` for the `", "` separation, `Quote` and `Placeholder` for the two text shapes.

  The Java methods are modelled as Dafny methods, each proved equal to its function:
  - `MethodToText` and `ArrayToText` fill a local buffer in a loop, the way the Mnemos.java
    StringBuilders at lines 96-105 and 175-183 do;
  - `ValueToText` and `CoreToText` make the null, `try` and array/non-array choices;
    the non-array branch (lines 185-191) is a single expression and uses `TextOf`;
  - the deprecated aliases `MethodToString` and `ValueToString` delegate.
- `mnemos_facts.dfy` (module `MnemosFacts`): the properties of these functions.

Three details of the code in `Mnemos.java`:

- There is no space just inside the brackets of an array: `['a b', 7]` (lines 176 and 183).
- With trim set, the trimmer gets the whole core text of any non-null value, arrays included, brackets and quotes included (lines 135-137).
- A non-String value is quoted when its text holds the space character `' '` (line 186). Other whitespace does not count.

## Model

| member | source | states |
|---|---|---|
| `Mnemos.MethodToText` | jcabi-aspects/src/main/java/com/jcabi/aspects/aj/Mnemos.java:94-106 | The buffer loop (a separator before every argument but the first) yields exactly `#` + name + `(` + the arguments' renderings joined by `", "` in order + `)`. |
| `Mnemos.MethodToString` | jcabi-aspects/src/main/java/com/jcabi/aspects/aj/Mnemos.java:117-120 | The deprecated alias returns the same mnemo as `toText(Method, Object[], boolean)`. |
| `Mnemos.ValueToText` | jcabi-aspects/src/main/java/com/jcabi/aspects/aj/Mnemos.java:129-153 | Always returns a string, never an exception. The result is `NULL` for null. Otherwise it is the core text, trimmed when asked. A failure in either step gives the placeholder. |
| `Mnemos.ValueToString` | jcabi-aspects/src/main/java/com/jcabi/aspects/aj/Mnemos.java:163-165 | The deprecated alias returns the same text as `toText(Object, boolean)`. |
| `Mnemos.CoreToText` | jcabi-aspects/src/main/java/com/jcabi/aspects/aj/Mnemos.java:172-194 | Returns exactly the core text: the array loop's result for an object array, the cast error for a primitive array, the quoted or verbatim `toString()` otherwise. |
| `Mnemos.ArrayToText` | jcabi-aspects/src/main/java/com/jcabi/aspects/aj/Mnemos.java:175-183 | The loop puts `", "` in only when the buffer holds more than `[`. Because untrimmed renderings are never empty, this is exactly between consecutive elements. The result is `[` + the elements' untrimmed renderings joined in order + `]`. |
| `Mnemos.CoreText` | jcabi-aspects/src/main/java/com/jcabi/aspects/aj/Mnemos.java:172-194 | A successful core text is never empty. |
| `Mnemos.Rendered` | jcabi-aspects/src/main/java/com/jcabi/aspects/aj/Mnemos.java:129-153 | An untrimmed rendering is never empty. This is the fact the `bldr.length() > 1` test at line 178 relies on. |
| `Mnemos.Quote` | jcabi-aspects/src/main/java/com/jcabi/aspects/aj/Mnemos.java:188 | Two characters longer than its input, with a quote at each end. What stands between the quotes is the input unchanged, with nothing escaped. |
| `Mnemos.Placeholder` | jcabi-aspects/src/main/java/com/jcabi/aspects/aj/Mnemos.java:143-149 | The diagnostic is non-empty and bracketed. |
| `MnemosFacts.JoinAppend` | jcabi-aspects/src/main/java/com/jcabi/aspects/aj/Mnemos.java:98-103 | Joining `a + b` is joining `a`, one `", "`, then joining `b`. This makes the separation order-preserving and associative. |
| `MnemosFacts.JoinFront` | jcabi-aspects/src/main/java/com/jcabi/aspects/aj/Mnemos.java:177-181 | The first part comes first. It is followed by `", "` and the rest only when there is a rest. |
| `MnemosFacts.MnemoNoArguments` | jcabi-aspects/src/main/java/com/jcabi/aspects/aj/Mnemos.java:96-105 | A call without arguments renders as `#name()`. |
| `MnemosFacts.MnemoSplit` | jcabi-aspects/src/main/java/com/jcabi/aspects/aj/Mnemos.java:98-103 | Arguments keep their order: the mnemo of `a + b` holds a's renderings, one separator, then b's. |
| `MnemosFacts.MnemoFirst` | jcabi-aspects/src/main/java/com/jcabi/aspects/aj/Mnemos.java:97-102 | The first argument's rendering directly follows `#name(`. No separator precedes it. |
| `MnemosFacts.MnemoThree` | jcabi-aspects/src/main/java/com/jcabi/aspects/aj/Mnemos.java:96-105 | A three-argument call renders as `#name(` + the three renderings in order, separated by `", "`, + `)`. |
| `MnemosFacts.NullMarker` | jcabi-aspects/src/main/java/com/jcabi/aspects/aj/Mnemos.java:131-132 | Null renders as `NULL` whatever the trim flag. Untrimmed, the only other value that renders as `NULL` is an object whose `toString()` is `NULL`. A String `"NULL"` is quoted. |
| `MnemosFacts.StringAlwaysQuoted` | jcabi-aspects/src/main/java/com/jcabi/aspects/aj/Mnemos.java:186-188 | A String renders as `'` + itself + `'`, even with no space in it. |
| `MnemosFacts.ObjectQuoting` | jcabi-aspects/src/main/java/com/jcabi/aspects/aj/Mnemos.java:185-191 | A non-String object is quoted if and only if its text is empty or holds a space. It is printed verbatim if and only if it is not. |
| `MnemosFacts.QuotesNotEscaped` | jcabi-aspects/src/main/java/com/jcabi/aspects/aj/Mnemos.java:188 | Embedded quotes are not escaped. So `[ "a', 'b" ]` and `[ "a", "b" ]` both render as `['a', 'b']`. |
| `MnemosFacts.FailureSources` | jcabi-aspects/src/main/java/com/jcabi/aspects/aj/Mnemos.java:134-149 | The `try` fails exactly in three cases: a primitive array, a `toString()` that throws, or, with trim set, a trimmer that throws. The rendering is then `[` + class name + ` thrown ` + exception text + `]`. |
| `MnemosFacts.PrimitiveArrayPlaceholder` | jcabi-aspects/src/main/java/com/jcabi/aspects/aj/Mnemos.java:174-177 | An `int[]` or other primitive array is not rendered element by element. It always yields the placeholder with the cast's exception. |
| `MnemosFacts.EmptyArray` | jcabi-aspects/src/main/java/com/jcabi/aspects/aj/Mnemos.java:175-183 | An empty object array renders as `[]`. |
| `MnemosFacts.ArrayFirst` | jcabi-aspects/src/main/java/com/jcabi/aspects/aj/Mnemos.java:175-183 | An object array's core text is `[`, then the first element untrimmed, then `", "` and the remaining elements, then `]`. It never fails. |
| `MnemosFacts.ArrayPair` | jcabi-aspects/src/main/java/com/jcabi/aspects/aj/Mnemos.java:175-183 | A two-element object array renders as `[` + the first untrimmed rendering + `", "` + the second + `]`. |
| `MnemosFacts.FailingElementContained` | jcabi-aspects/src/main/java/com/jcabi/aspects/aj/Mnemos.java:177-181 | A failing element yields its own placeholder inside the brackets. The array still renders. Replacing one element leaves every other element's rendering unchanged. |
| `MnemosFacts.CoreIgnoresTrimmer` | jcabi-aspects/src/main/java/com/jcabi/aspects/aj/Mnemos.java:181 | The core text never consults the trimmer, at any depth of nested arrays. Elements are rendered with trim off. |
| `MnemosFacts.UntrimmedIgnoresTrimmer` | jcabi-aspects/src/main/java/com/jcabi/aspects/aj/Mnemos.java:136-140 | With trim off, the rendering is the core text and does not depend on the trimmer. |
| `MnemosFacts.TrimmedOnceWhole` | jcabi-aspects/src/main/java/com/jcabi/aspects/aj/Mnemos.java:135-137 | With trim on, the trimmer is consulted at most once, on the whole core text, quotes and brackets included. Two trimmers that agree on that text give the same rendering; for null or a failing core text any two trimmers do. |
| `MnemosFacts.TrimmerOnWholeText` | jcabi-aspects/src/main/java/com/jcabi/aspects/aj/Mnemos.java:134-149 | When the core text succeeds, the untrimmed rendering is that text, and the trimmed rendering is the trimmer's result on it, or the placeholder with the trimmer's exception. |
| `MnemosFacts.IdentityTrimmer` | jcabi-aspects/src/main/java/com/jcabi/aspects/aj/Mnemos.java:136-140 | With a trimmer that returns its input, trim on and trim off agree. The flag changes nothing but the trimming. |
| `MnemosFacts.ExampleCall` | jcabi-aspects/src/main/java/com/jcabi/aspects/aj/Mnemos.java:94-106 | `#foo(1, 'a b', '')`: the number is unquoted; the String with a space and the empty String are quoted. |
| `MnemosFacts.ExampleArray` | jcabi-aspects/src/main/java/com/jcabi/aspects/aj/Mnemos.java:134-191 | An array of a String and a number renders as `['a b', 7]`, with no spaces inside the brackets. With trim on, the trimmer's result on that whole text is the rendering. |

## Left out

- `toText(ProceedingJoinPoint, boolean)` (lines 65-72) and its deprecated `toString` alias (lines 81-85): they only take the `Method` and the argument array out of an AspectJ join point. The model starts from the method name and the argument sequence.
- `Method.getName()`, `Object.toString()`, `getClass().getName()` and an exception's `toString()`: these Java calls are not modelled. Their results are opaque strings carried in `Value` and `Outcome`.
- The trimmer's own policy (jcabi-log `Logger.format("%[text]s", ...)`) is not part of this model. It is the parameter `fmt`, which may return any text or throw.
- An exception thrown while the diagnostic itself is formatted (an exception whose `toString()` throws inside the `catch`) would escape. Since exception texts are opaque strings, the model cannot express it.
- Arrays that contain themselves: rendering them overflows the Java stack, which the catch turns into a placeholder. `Value` is finite, so no value contains itself.
- A `toString()` that returns null makes line 186 throw a `NullPointerException`. The model folds that case into `Obj(_, Threw(_))`.
- `Mnemos.Rendered`: non-emptiness is stated for trim off only. The trimmer is opaque and could return an empty text. Line 178 only ever sees untrimmed elements.
- Concurrency and the `@Immutable` annotation: the renderer keeps no state.
