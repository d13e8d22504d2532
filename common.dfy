/** Small failure-carrying datatypes and string helpers shared by every module. */
module Common {

  datatype Option<+T> = None | Some(value: T) {
    function GetOr(default: T): T {
      match this
      case Some(v) => v
      case None => default
    }
  }

  /** The outcome of an operation that either completes or throws an error value. */
  datatype Outcome<+E> = Pass | Fail(error: E)

  /** A value, or the error thrown instead of it. */
  datatype Result<+T, +E> = Ok(value: T) | Err(error: E)

  /** `t` occurs in `s` starting at position `i`. */
  predicate OccursAt(s: string, t: string, i: int) {
    0 <= i && i + |t| <= |s| && s[i..i + |t|] == t
  }

  /** JavaScript `s.includes(t)`: `t` occurs somewhere in `s`. */
  predicate Includes(s: string, t: string) {
    exists i :: 0 <= i <= |s| - |t| && OccursAt(s, t, i)
  }

  /** Every character of an included string is a character of the including one. */
  lemma IncludedCharacters(s: string, t: string, c: char)
    requires Includes(s, t) && c in t
    ensures c in s
  {
    var i :| 0 <= i <= |s| - |t| && OccursAt(s, t, i);
    var j :| 0 <= j < |t| && t[j] == c;
    assert s[i..i + |t|][j] == s[i + j];
  }
}
