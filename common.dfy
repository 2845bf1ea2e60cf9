/** Value wrappers shared by every module: the model's stand-ins for Go's
    `(value, error)` pairs and pointer-or-nil fields. */
module Common {

  /** A Go pointer that may be nil (`*string`), or a Python value that may be None. */
  datatype Option<+T> = None | Some(value: T)

  /** A Go `(T, error)` return: exactly one of the two is meaningful. */
  datatype Result<+T, +E> = Success(value: T) | Failure(error: E)

  /** A Go `error` return with no value beside it. */
  datatype Outcome<+E> = Pass | Fail(error: E)

  /** A Go `error`: a plain message, or `fmt.Errorf("<context>: %w", cause)`,
      which keeps `cause` reachable through `errors.Unwrap`. */
  datatype Error = Error(text: string) | Wrapped(context: string, cause: Error)
  {
    /** `err.Error()`. */
    function Message(): string {
      match this
      case Error(text) => text
      case Wrapped(context, cause) => context + ": " + cause.Message()
    }

    /** `errors.Is(err, target)` for comparable errors: `target` is `err` or
        sits somewhere down its chain of wrapped causes. */
    predicate Is(target: Error) {
      this == target || (Wrapped? && cause.Is(target))
    }
  }

  /** Raw bytes (`[]byte`, `json.RawMessage`, file contents). */
  type Bytes = seq<bv8>

  /** No element occurs twice. */
  predicate Distinct<T(==)>(s: seq<T>) {
    forall i, j :: 0 <= i < j < |s| ==> s[i] != s[j]
  }

  /** Concatenation regroups freely. */
  lemma AppendAssoc<T>(a: seq<T>, b: seq<T>, c: seq<T>)
    ensures a + (b + c) == a + b + c
  {
  }

  /** Number of occurrences of `x` in `s`. */
  function Count<T(==)>(s: seq<T>, x: T): (n: nat)
    ensures n <= |s|
    ensures n == 0 <==> x !in s
  {
    if s == [] then 0 else (if s[0] == x then 1 else 0) + Count(s[1..], x)
  }

  lemma {:induction false} CountAppend<T>(a: seq<T>, b: seq<T>, x: T)
    ensures Count(a + b, x) == Count(a, x) + Count(b, x)
  {
    if a == [] {
      assert a + b == b;
    } else {
      assert (a + b)[0] == a[0];
      assert (a + b)[1..] == a[1..] + b;
      CountAppend(a[1..], b, x);
    }
  }
}
