/**
 * The JavaScript values the route handlers see: a parsed JSON request body,
 * the Option/Result wrappers used for optional fields and parse outcomes,
 * and `String.prototype.includes`, which the update handler uses to classify
 * a repository error by its message.
 */
module Js {

  datatype Option<+T> = None | Some(value: T)

  datatype Result<+T, +E> = Ok(value: T) | Err(error: E)

  /** A request body after JSON parsing. Numbers are exact reals, so only
      finite numbers are modelled; no handler computes with a number. */
  datatype Json =
    | JNull
    | JBool(b: bool)
    | JNum(n: real)
    | JStr(s: string)
    | JArr(items: seq<Json>)
    | JObj(fields: map<string, Json>)

  /** `s.includes(pat)`: scans the start positions of `s` from left to right. */
  function Includes(s: string, pat: string): bool
    decreases |s|
  {
    if |pat| > |s| then false
    else if s[..|pat|] == pat then true
    else Includes(s[1..], pat)
  }

  /** `pat` occurs in `s` starting at position `i`. */
  ghost predicate OccursAt(s: string, pat: string, i: int)
  {
    0 <= i && i + |pat| <= |s| && s[i..i + |pat|] == pat
  }

  /** `pat` occurs somewhere in `s`. */
  ghost predicate Contains(s: string, pat: string)
  {
    exists i :: OccursAt(s, pat, i)
  }

  /** The scan answers exactly the question "does `pat` occur somewhere in `s`". */
  lemma {:induction false} IncludesIffOccurs(s: string, pat: string)
    ensures Includes(s, pat) <==> Contains(s, pat)
    decreases |s|
  {
    if |pat| > |s| {
      forall i ensures !OccursAt(s, pat, i) { }
    } else if s[..|pat|] == pat {
      assert OccursAt(s, pat, 0);
    } else {
      assert pat != [];
      var t := s[1..];
      IncludesIffOccurs(t, pat);
      if Includes(t, pat) {
        var j :| OccursAt(t, pat, j);
        assert s[j + 1..j + 1 + |pat|] == t[j..j + |pat|];
        assert OccursAt(s, pat, j + 1);
      } else {
        forall i | OccursAt(s, pat, i) ensures OccursAt(t, pat, i - 1) {
          assert i != 0;
          assert t[i - 1..i - 1 + |pat|] == s[i..i + |pat|];
        }
      }
    }
  }
}
