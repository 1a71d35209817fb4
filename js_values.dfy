/** The few JavaScript value semantics the components depend on: values that
    may be undefined, thrown Errors, truthiness of strings, template-literal
    interpolation, and the built-ins String.prototype.includes,
    String.prototype.split (with a one-character separator) and
    Array.prototype.indexOf. */
module JsValues {

  /** A value that may be `undefined` (or `null`). */
  datatype Option<+T> = None | Some(value: T)

  /** The outcome of a call that may throw: its value, or the `message` of the Error it threw. */
  datatype Result<+T> = Success(value: T) | Failure(message: string)

  /** A `string | undefined` is truthy exactly when it is defined and not empty. */
  predicate Truthy(s: Option<string>)
  {
    s.Some? && s.value != ""
  }

  /** `${s}` in a template literal: an undefined value is spelled "undefined". */
  function Interpolate(s: Option<string>): string
  {
    match s
    case Some(v) => v
    case None => "undefined"
  }

  // ---------------------------------------------------------------------------
  // String.prototype.includes

  /** `t` occurs in `s` starting at position `i`. */
  ghost predicate OccursAt(s: string, t: string, i: int)
  {
    0 <= i && i + |t| <= |s| && s[i..i + |t|] == t
  }

  /** An occurrence in `s[1..]` is an occurrence in `s` one position later, and back. */
  lemma OccursInTail(s: string, t: string)
    requires |s| > 0
    ensures (exists i :: OccursAt(s[1..], t, i)) <==> (exists i :: 1 <= i && OccursAt(s, t, i))
  {
    if i :| OccursAt(s[1..], t, i) {
      assert s[i + 1..i + 1 + |t|] == s[1..][i..i + |t|];
      assert OccursAt(s, t, i + 1);
    }
    if i :| 1 <= i && OccursAt(s, t, i) {
      assert s[1..][i - 1..i - 1 + |t|] == s[i..i + |t|];
      assert OccursAt(s[1..], t, i - 1);
    }
  }

  /** `s.includes(t)`: true exactly when `t` occurs somewhere in `s`. */
  function Includes(s: string, t: string): (r: bool)
    ensures r <==> exists i :: OccursAt(s, t, i)
    decreases |s|
  {
    if |t| > |s| then false
    else if s[..|t|] == t then assert OccursAt(s, t, 0); true
    else
      OccursInTail(s, t);
      assert !OccursAt(s, t, 0);
      Includes(s[1..], t)
  }

  /** A string cannot include a text that has a character the string lacks. */
  lemma ExcludedByCharacter(s: string, t: string, c: char)
    requires c in t && c !in s
    ensures !Includes(s, t)
  {
  }

  // ---------------------------------------------------------------------------
  // String.prototype.split with a one-character separator, and indexing its result

  /** `s.split(sep)`: the fields between the separators, in order; "" splits into [""]. */
  function Split(s: string, sep: char): (fields: seq<string>)
    ensures |fields| >= 1
    ensures forall k :: 0 <= k < |fields| ==> sep !in fields[k]
    decreases |s|
  {
    if s == [] then [""]
    else
      var rest := Split(s[1..], sep);
      if s[0] == sep then [""] + rest
      else [[s[0]] + rest[0]] + rest[1..]
  }

  /** `fields.join(sep)`. */
  function Join(fields: seq<string>, sep: char): string
    requires |fields| >= 1
    decreases |fields|
  {
    if |fields| == 1 then fields[0] else fields[0] + [sep] + Join(fields[1..], sep)
  }

  /** `s.split(sep)[k]`: undefined when there are not that many fields. */
  function Field(s: string, sep: char, k: nat): (f: Option<string>)
    ensures f.Some? ==> sep !in f.value
  {
    var fields := Split(s, sep);
    if k < |fields| then Some(fields[k]) else None
  }

  /** Text free of the separator followed by the rest: the text is the first field. */
  lemma {:induction false} SplitAfterFree(a: string, b: string, sep: char)
    requires sep !in a
    ensures Split(a + b, sep)[0] == a + Split(b, sep)[0]
    ensures Split(a + b, sep)[1..] == Split(b, sep)[1..]
    decreases |a|
  {
    if a != [] {
      assert (a + b)[1..] == a[1..] + b;
      SplitAfterFree(a[1..], b, sep);
    } else {
      assert a + b == b;
    }
  }

  /** Whatever follows a separator leaves the first field as it was. */
  lemma {:induction false} SplitFirstField(a: string, b: string, sep: char)
    ensures Split(a + [sep] + b, sep)[0] == Split(a, sep)[0]
    decreases |a|
  {
    if a == [] {
      assert a + [sep] + b == [sep] + b;
      assert ([sep] + b)[1..] == b;
    } else {
      assert (a + [sep] + b)[1..] == a[1..] + [sep] + b;
      SplitFirstField(a[1..], b, sep);
    }
  }

  /** A separator right after separator-free text ends the first field there. */
  lemma SplitAtSeparator(a: string, b: string, sep: char)
    requires sep !in a
    ensures Split(a + [sep] + b, sep) == [a] + Split(b, sep)
  {
    var tail := [sep] + b;
    assert a + [sep] + b == a + tail;
    SplitAfterFree(a, tail, sep);
    assert tail[1..] == b;
    assert Split(tail, sep) == [""] + Split(b, sep);
    var whole := Split(a + tail, sep);
    assert whole[0] == a + "";
    assert a + "" == a;
    assert whole[1..] == Split(b, sep);
    assert whole == [whole[0]] + whole[1..];
  }

  /** Text without the separator splits into itself. */
  lemma SplitFree(a: string, sep: char)
    requires sep !in a
    ensures Split(a, sep) == [a]
  {
    assert a + [] == a;
    SplitAfterFree(a, [], sep);
  }

  /** Joining the fields of a split gives back the string. */
  lemma {:induction false} JoinSplit(s: string, sep: char)
    ensures Join(Split(s, sep), sep) == s
    decreases |s|
  {
    if s != [] {
      JoinSplit(s[1..], sep);
      var rest := Split(s[1..], sep);
      if s[0] == sep {
        assert ([""] + rest)[1..] == rest;
        assert s == [sep] + s[1..];
      } else if |rest| == 1 {
        assert s == [s[0]] + s[1..];
      } else {
        assert ([[s[0]] + rest[0]] + rest[1..])[1..] == rest[1..];
        assert s == [s[0]] + s[1..];
      }
    }
  }

  /** Splitting a join of separator-free fields gives back the fields. */
  lemma {:induction false} SplitJoin(fields: seq<string>, sep: char)
    requires |fields| >= 1
    requires forall k :: 0 <= k < |fields| ==> sep !in fields[k]
    ensures Split(Join(fields, sep), sep) == fields
    decreases |fields|
  {
    if |fields| == 1 {
      SplitFree(fields[0], sep);
    } else {
      SplitJoin(fields[1..], sep);
      SplitAtSeparator(fields[0], Join(fields[1..], sep), sep);
      assert [fields[0]] + fields[1..] == fields;
    }
  }

  // ---------------------------------------------------------------------------
  // Array.prototype.indexOf

  /** `xs.indexOf(x)`. */
  function IndexOf<T(==)>(xs: seq<T>, x: T): int
    decreases |xs|
  {
    if xs == [] then -1
    else if xs[0] == x then 0
    else
      var j := IndexOf(xs[1..], x);
      if j == -1 then -1 else j + 1
  }

  /** `indexOf` gives the position of the first `x` in `xs`, or -1 when there is none. */
  lemma {:induction false} IndexOfFindsFirst<T>(xs: seq<T>, x: T)
    ensures -1 <= IndexOf(xs, x) < |xs|
    ensures IndexOf(xs, x) == -1 <==> x !in xs
    ensures 0 <= IndexOf(xs, x) ==> xs[IndexOf(xs, x)] == x && x !in xs[..IndexOf(xs, x)]
    decreases |xs|
  {
    if xs != [] && xs[0] != x {
      IndexOfFindsFirst(xs[1..], x);
      assert xs == [xs[0]] + xs[1..];
      var j := IndexOf(xs[1..], x);
      if j != -1 {
        assert xs[..j + 1] == [xs[0]] + xs[1..][..j];
      }
    }
  }
}
