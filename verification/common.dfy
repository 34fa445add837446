/**
 Shared vocabulary of the rule engine: optional values, results carrying the
 errors the classifiers raise, labels, and the small sequence facts
 (membership, duplicates, substrings) every other module relies on.
 */
module Common {

  datatype Option<+T> = None | Some(value: T)

  datatype Result<+T, +E> = Ok(value: T) | Err(error: E)

  /** A rule label such as "upright", "flexed" or "stationary". */
  type Label = string

  /** Every element of `small` occurs in `big`: `set(small).issubset(set(big))`. */
  predicate Covers<T(==)>(big: seq<T>, small: seq<T>) {
    forall x :: x in small ==> x in big
  }

  predicate NoDups<T(==)>(s: seq<T>) {
    forall i, j :: 0 <= i < j < |s| ==> s[i] != s[j]
  }

  /**
   The `list(set(s))` idiom: the distinct elements of `s`, each once.
   Python leaves the order of the result unspecified; this model keeps the
   first occurrence of each element, and callers rely only on the set.
   */
  function Dedup<T(==,!new)>(s: seq<T>): (r: seq<T>)
    ensures NoDups(r)
    ensures forall x :: x in r <==> x in s
    ensures |r| <= |s|
  {
    if |s| == 0 then []
    else
      var init := s[..|s| - 1];
      var rest := Dedup(init);
      assert s == init + [s[|s| - 1]];
      if s[|s| - 1] in rest then rest else rest + [s[|s| - 1]]
  }

  /** Python's `p in s` on strings: case-sensitive substring search. */
  predicate Contains(s: string, p: string) {
    exists i :: 0 <= i <= |s| && p <= s[i..]
  }

  function Abs(x: real): (r: real)
    ensures r >= 0.0
    ensures r == x || r == -x
  {
    if x < 0.0 then -x else x
  }

  /** The in-order concatenation of a sequence of lists (Python's repeated `extend`). */
  function Concat<T(!new)>(ss: seq<seq<T>>): (r: seq<T>)
    ensures forall x :: x in r <==> exists i :: 0 <= i < |ss| && x in ss[i]
  {
    if |ss| == 0 then []
    else
      var init := ss[..|ss| - 1];
      var r := Concat(init) + ss[|ss| - 1];
      assert forall i :: 0 <= i < |init| ==> init[i] == ss[i];
      r
  }

  /** `f` applied to each element in order; the first error stops the run, as a raised exception would. */
  function MapResults<A, B, E>(f: A -> Result<B, E>, xs: seq<A>): (r: Result<seq<B>, E>)
    ensures r.Ok? <==> forall i :: 0 <= i < |xs| ==> f(xs[i]).Ok?
    ensures r.Ok? ==> |r.value| == |xs|
    ensures r.Ok? ==> forall i :: 0 <= i < |xs| ==> r.value[i] == f(xs[i]).value
    ensures r.Err? ==> exists i :: 0 <= i < |xs| && f(xs[i]).Err? && r.error == f(xs[i]).error
                                   && forall j :: 0 <= j < i ==> f(xs[j]).Ok?
  {
    if |xs| == 0 then Ok([])
    else
      match f(xs[0])
      case Err(e) => Err(e)
      case Ok(y) =>
        var rest := MapResults(f, xs[1..]);
        assert forall i :: 1 <= i < |xs| ==> xs[1..][i - 1] == xs[i];
        match rest
        case Err(e) =>
          assert exists i :: 1 <= i < |xs| && f(xs[i]).Err? && e == f(xs[i]).error
                             && forall j :: 0 <= j < i ==> f(xs[j]).Ok? by {
            var k :| 0 <= k < |xs[1..]| && f(xs[1..][k]).Err? && e == f(xs[1..][k]).error
                     && forall j :: 0 <= j < k ==> f(xs[1..][j]).Ok?;
            assert forall j :: 1 <= j < k + 1 ==> f(xs[j]).Ok? by {
              forall j | 1 <= j < k + 1 ensures f(xs[j]).Ok? {
                assert xs[j] == xs[1..][j - 1];
              }
            }
          }
          Err(e)
        case Ok(ys) => Ok([y] + ys)
  }
}
