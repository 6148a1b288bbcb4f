/**
 * The two JavaScript array operations the board and the statistics page are
 * built from: `Array.prototype.filter` and `Array.prototype.find`.
 */
module Arrays {
  import opened Wrappers

  /** `s.filter(keep)`: the elements of `s` that satisfy `keep`, in their original order. */
  function Filter<T(==,!new)>(s: seq<T>, keep: T -> bool): (r: seq<T>)
    ensures |r| <= |s|
    ensures forall x :: x in r <==> x in s && keep(x)
    ensures forall x :: multiset(r)[x] == if keep(x) then multiset(s)[x] else 0
  {
    if s == [] then []
    else
      assert s == [s[0]] + s[1..];
      (if keep(s[0]) then [s[0]] else []) + Filter(s[1..], keep)
  }

  /**
   * `filter` keeps the original order: filtering a concatenation is the
   * concatenation of the filtered parts, so a kept element never overtakes
   * another.
   */
  lemma {:induction false} FilterAppend<T(!new)>(s1: seq<T>, s2: seq<T>, keep: T -> bool)
    ensures Filter(s1 + s2, keep) == Filter(s1, keep) + Filter(s2, keep)
  {
    if s1 == [] {
      assert s1 + s2 == s2;
    } else {
      assert (s1 + s2)[1..] == s1[1..] + s2;
      FilterAppend(s1[1..], s2, keep);
    }
  }

  /** `s.find(p)`: the first element of `s` that satisfies `p`, or `undefined`. */
  function Find<T>(s: seq<T>, p: T -> bool): (r: Option<T>)
    ensures r.None? <==> forall i :: 0 <= i < |s| ==> !p(s[i])
    ensures r.Some? ==> exists i :: 0 <= i < |s| && s[i] == r.value && p(s[i]) &&
                                    forall j :: 0 <= j < i ==> !p(s[j])
  {
    if s == [] then None
    else if p(s[0]) then Some(s[0])
    else
      var r := Find(s[1..], p);
      assert r.Some? ==> exists i :: 0 <= i < |s[1..]| && s[1..][i] == r.value && p(s[1..][i]) &&
                                     forall j :: 0 <= j < i ==> !p(s[1..][j]);
      assert r.Some? ==> exists i :: 0 <= i < |s| && s[i] == r.value && p(s[i]) &&
                                     forall j :: 0 <= j < i ==> !p(s[j]) by {
        if r.Some? {
          var i :| 0 <= i < |s[1..]| && s[1..][i] == r.value && p(s[1..][i]) &&
                   forall j :: 0 <= j < i ==> !p(s[1..][j]);
          assert s[i + 1] == r.value && p(s[i + 1]);
          assert forall j :: 0 <= j < i + 1 ==> !p(s[j]) by {
            forall j | 0 <= j < i + 1 ensures !p(s[j]) {
              if j > 0 { assert s[j] == s[1..][j - 1]; }
            }
          }
        }
      }
      r
  }
}
