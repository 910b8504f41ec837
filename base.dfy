/** Failure-carrying values and the few string facts the checks rely on. */
module Base {

  /** Go's nil-or-value pair member, e.g. the `error` half of `(bool, error)`. */
  datatype Option<+T> = None | Some(value: T)

  /** A Go `error`, reduced to the text its `Error()` method renders. */
  datatype Error = Error(message: string)

  /** The `(value, error)` pair of a fallible Go call: exactly one side is set. */
  datatype Result<+T> = Ok(value: T) | Err(error: Error)

  /** `p` is a prefix of `s`. */
  predicate IsPrefix(p: string, s: string)
  {
    |p| <= |s| && s[..|p|] == p
  }

  /** `t` occurs in `s` starting at index `k`. */
  predicate OccursAt(s: string, t: string, k: int)
  {
    0 <= k && k + |t| <= |s| && s[k..k + |t|] == t
  }

  /** `t` occurs somewhere inside `s`. */
  predicate Contains(s: string, t: string)
  {
    exists k :: 0 <= k <= |s| && OccursAt(s, t, k)
  }

  /** Whatever surrounds it, a string contains each of its own middle parts. */
  lemma ContainsMiddle(a: string, t: string, b: string)
    ensures Contains(a + t + b, t)
  {
    var s := a + t + b;
    assert s[|a|..|a| + |t|] == t;
    assert OccursAt(s, t, |a|);
  }
}
