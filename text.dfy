/** The two string operations the workflow relies on: `String.prototype.includes`
    and `Array.prototype.join("")`. */
module Text {

  /** `t` occurs in `s` starting at index `i`. */
  ghost predicate OccursAt(s: string, t: string, i: int)
  {
    0 <= i && i + |t| <= |s| && s[i..i + |t|] == t
  }

  /** Does `t` occur in `s` at some index `k` or later? */
  function ContainsFrom(s: string, t: string, k: nat): (r: bool)
    ensures r <==> exists i :: k <= i && OccursAt(s, t, i)
    decreases |s| - k
  {
    if k + |t| > |s| then false
    else if s[k..k + |t|] == t then
      assert OccursAt(s, t, k);
      true
    else
      ContainsFrom(s, t, k + 1)
  }

  /** `s.includes(t)`. */
  function Contains(s: string, t: string): (r: bool)
    ensures r <==> exists i :: OccursAt(s, t, i)
  {
    ContainsFrom(s, t, 0)
  }

  /** A string that contains a non-empty `t` is itself non-empty. */
  lemma ContainsNonEmpty(s: string, t: string)
    requires Contains(s, t) && t != []
    ensures |s| >= |t| > 0
  {
    var i :| OccursAt(s, t, i);
  }

  /** `parts.join("")`: the parts, concatenated in order. */
  function Concat(parts: seq<string>): string
  {
    if parts == [] then "" else parts[0] + Concat(parts[1..])
  }

  /** Joining a concatenation of part lists is concatenating the two joins. */
  lemma {:induction false} ConcatAppend(a: seq<string>, b: seq<string>)
    ensures Concat(a + b) == Concat(a) + Concat(b)
  {
    if a == [] {
      assert a + b == b;
    } else {
      assert (a + b)[1..] == a[1..] + b;
      ConcatAppend(a[1..], b);
    }
  }

  /** The joined string is as long as all the parts together. */
  function TotalLength(parts: seq<string>): nat
  {
    if parts == [] then 0 else |parts[0]| + TotalLength(parts[1..])
  }

  lemma {:induction false} ConcatLength(parts: seq<string>)
    ensures |Concat(parts)| == TotalLength(parts)
  {
    if parts != [] {
      ConcatLength(parts[1..]);
    }
  }
}
