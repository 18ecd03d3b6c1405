/** Small building blocks shared by the other modules. */
module Prelude {

  datatype Option<+T> = None | Some(value: T)

  /** The last `n` elements of `s`, or all of `s` when it is shorter (Python's `s[-n:]` for positive `n`). */
  function Last<T>(s: seq<T>, n: nat): (r: seq<T>)
    ensures |r| == if |s| <= n then |s| else n
  {
    if |s| <= n then s else s[|s| - n..]
  }

  lemma LastOfLast<T>(s: seq<T>, n: nat, m: nat)
    requires m <= n
    ensures Last(Last(s, n), m) == Last(s, m)
  {
  }

  lemma LastOfLonger<T>(s: seq<T>, t: seq<T>, m: nat)
    requires m <= |s|
    ensures Last(s + t, m + |t|) == Last(s, m) + t
  {
  }

  lemma LastAppend<T>(s: seq<T>, t: seq<T>, n: nat)
    ensures Last(Last(s, n) + t, n) == Last(s + t, n)
  {
    if |s| > n {
      assert Last(s, n) + t == (s + t)[|s| - n..];
    }
  }

  lemma LastIndex<T>(s: seq<T>, n: nat, i: nat)
    requires i < |Last(s, n)|
    ensures Last(s, n)[|Last(s, n)| - 1 - i] == s[|s| - 1 - i]
  {
  }

  lemma LastFromStart<T>(s: seq<T>, n: nat)
    ensures forall i :: 0 <= i < |Last(s, n)| ==> Last(s, n)[i] == s[|s| - |Last(s, n)| + i]
  {
  }

  ghost predicate Distinct<T>(s: seq<T>) {
    forall i, j :: 0 <= i < j < |s| ==> s[i] != s[j]
  }
}
