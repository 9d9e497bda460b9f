/** Failure-compatible wrappers and small sequence helpers shared by every module. */
module Common {

  /** A value that may be missing: Python's `None` for a key or a result. */
  datatype Option<+T> = None | Some(value: T) {
    function GetOr(default: T): T {
      match this
      case Some(v) => v
      case None => default
    }
  }

  /** The outcome of an operation that may raise. */
  datatype Result<+T, +E> = Success(value: T) | Failure(error: E) {
    predicate IsFailure() {
      Failure?
    }

    function PropagateFailure<U>(): Result<U, E>
      requires Failure?
    {
      Failure(error)
    }

    function Extract(): T
      requires Success?
    {
      value
    }
  }

  /** No element occurs twice. */
  ghost predicate NoDuplicates<T>(s: seq<T>) {
    forall i, j :: 0 <= i < j < |s| ==> s[i] != s[j]
  }

  /** Appending is associative. */
  lemma AppendAssociative<T>(a: seq<T>, b: seq<T>, c: seq<T>)
    ensures (a + b) + c == a + (b + c)
  {
  }

  function Min(a: int, b: int): int {
    if a <= b then a else b
  }

  /** Python's `", ".join(parts)` and `"\n".join(parts)`. */
  function Join(sep: string, parts: seq<string>): (r: string)
    ensures parts == [] ==> r == ""
    ensures |parts| == 1 ==> r == parts[0]
  {
    if |parts| == 0 then ""
    else if |parts| == 1 then parts[0]
    else parts[0] + sep + Join(sep, parts[1..])
  }

  /** `sep.join(parts + [p])` is `sep.join(parts)`, one separator, then `p`. */
  lemma {:induction false} JoinAppend(sep: string, parts: seq<string>, p: string)
    requires parts != []
    ensures Join(sep, parts + [p]) == Join(sep, parts) + sep + p
    decreases |parts|
  {
    if |parts| > 1 {
      JoinAppend(sep, parts[1..], p);
      assert (parts + [p])[1..] == parts[1..] + [p];
    }
  }

  /** Number of line breaks in a text. */
  function LineBreaks(s: string): nat {
    if s == [] then 0 else LineBreaks(s[..|s| - 1]) + (if s[|s| - 1] == '\n' then 1 else 0)
  }

  lemma {:induction false} LineBreaksAppend(a: string, b: string)
    ensures LineBreaks(a + b) == LineBreaks(a) + LineBreaks(b)
    decreases |b|
  {
    if b == [] {
      assert a + b == a;
    } else {
      assert (a + b)[..|a + b| - 1] == a + b[..|b| - 1];
      LineBreaksAppend(a, b[..|b| - 1]);
    }
  }

  /** A text without `'\n'` has no line break. */
  lemma {:induction false} NoLineBreaks(s: string)
    requires '\n' !in s
    ensures LineBreaks(s) == 0
    decreases |s|
  {
    if s != [] {
      assert forall c :: c in s[..|s| - 1] ==> c in s;
      NoLineBreaks(s[..|s| - 1]);
    }
  }

  /**
   * `"\n".join(parts)` of parts without line breaks has exactly one line
   * break between neighbours: one line per part.
   */
  lemma {:induction false} JoinLineBreaks(parts: seq<string>)
    requires parts != []
    requires forall k :: 0 <= k < |parts| ==> '\n' !in parts[k]
    ensures LineBreaks(Join("\n", parts)) == |parts| - 1
    decreases |parts|
  {
    var last := parts[|parts| - 1];
    NoLineBreaks(last);
    if |parts| > 1 {
      var init := parts[..|parts| - 1];
      JoinLineBreaks(init);
      JoinAppend("\n", init, last);
      assert init + [last] == parts;
      LineBreaksAppend(Join("\n", init) + "\n", last);
      LineBreaksAppend(Join("\n", init), "\n");
    }
  }
}
