/** The in-place Fisher–Yates shuffle of the fallback quiz
    (actions/interview.js:123-129). `Math.random` is not modelled: each step
    may pick any `j` in `[0, i]`, and the choices made are reported as a ghost
    list so that the result can be described by a function of the input. */
module Shuffling {

  /** The sequence with positions `i` and `j` exchanged. */
  function Swap<T>(s: seq<T>, i: nat, j: nat): (r: seq<T>)
    requires i < |s| && j < |s|
    ensures |r| == |s| && r[i] == s[j] && r[j] == s[i]
    ensures forall k :: 0 <= k < |s| && k != i && k != j ==> r[k] == s[k]
  {
    s[i := s[j]][j := s[i]]
  }

  /** The loop's choices fit its bounds: step `k` runs with `i = n - 1 - k`
      and picks `js[k]` in `[0, i]`; the loop stops once `i` reaches 0. */
  predicate ChoicesInRange(js: seq<int>, n: nat) {
    (js == [] || |js| < n) && forall k :: 0 <= k < |js| ==> 0 <= js[k] <= n - 1 - k
  }

  /** A complete run makes one choice per `i` from `n - 1` down to 1. */
  predicate ValidChoices(js: seq<int>, n: nat) {
    (n == 0 && js == []) || (n > 0 && |js| == n - 1 && ChoicesInRange(js, n))
  }

  /** The sequence after the first `|js|` swaps of the loop. */
  function SwapSteps<T>(s: seq<T>, js: seq<int>): (r: seq<T>)
    requires ChoicesInRange(js, |s|)
    ensures |r| == |s|
    decreases |js|
  {
    if js == [] then s
    else
      var k := |js| - 1;
      Swap(SwapSteps(s, js[..k]), |s| - 1 - k, js[k])
  }

  /** The result of a complete shuffle of `s` with choices `js`. */
  function FisherYates<T>(s: seq<T>, js: seq<int>): seq<T>
    requires ValidChoices(js, |s|)
  {
    SwapSteps(s, js)
  }

  /** `shuffle(arr)`: for `i` from `arr.length - 1` down to 1, swap `arr[i]`
      with `arr[j]` for some `j` in `[0, i]`. */
  method Shuffle<T>(a: array<T>) returns (ghost js: seq<int>)
    modifies a
    ensures ValidChoices(js, a.Length)
    ensures a[..] == FisherYates(old(a[..]), js)
  {
    js := [];
    var i := a.Length - 1;
    while i > 0
      invariant a.Length == 0 ==> i == -1
      invariant a.Length > 0 ==> 0 <= i < a.Length
      invariant |js| == a.Length - 1 - i
      invariant ChoicesInRange(js, a.Length)
      invariant a[..] == SwapSteps(old(a[..]), js)
    {
      var j :| 0 <= j <= i;
      a[i], a[j] := a[j], a[i];
      assert (js + [j])[..|js|] == js;
      js := js + [j];
      i := i - 1;
    }
  }

  /** Exchanging two positions keeps the multiset of elements. */
  lemma SwapPermutes<T>(s: seq<T>, i: nat, j: nat)
    requires i < |s| && j < |s|
    ensures multiset(Swap(s, i, j)) == multiset(s)
  {
    if i != j {
      var t := s[i := s[j]];
      assert multiset(t) == multiset(s) - multiset{s[i]} + multiset{s[j]};
      assert t[j] == s[j];
      assert multiset(t[j := s[i]]) == multiset(t) - multiset{s[j]} + multiset{s[i]};
    }
  }

  /** Every prefix of the loop permutes the elements: same length, same
      multiset. */
  lemma {:induction false} SwapStepsPermutes<T>(s: seq<T>, js: seq<int>)
    requires ChoicesInRange(js, |s|)
    ensures multiset(SwapSteps(s, js)) == multiset(s)
    decreases |js|
  {
    if js != [] {
      var k := |js| - 1;
      SwapStepsPermutes(s, js[..k]);
      SwapPermutes(SwapSteps(s, js[..k]), |s| - 1 - k, js[k]);
    }
  }

  /** The shuffle permutes its input. */
  lemma FisherYatesPermutes<T>(s: seq<T>, js: seq<int>)
    requires ValidChoices(js, |s|)
    ensures |FisherYates(s, js)| == |s|
    ensures multiset(FisherYates(s, js)) == multiset(s)
  {
    SwapStepsPermutes(s, js);
  }

  /** Arrays of length 0 or 1 come back untouched. */
  lemma FisherYatesShortIsIdentity<T>(s: seq<T>, js: seq<int>)
    requires ValidChoices(js, |s|) && |s| <= 1
    ensures FisherYates(s, js) == s
  {
  }

  /** No element occurs twice. */
  predicate Distinct<T(==)>(s: seq<T>) {
    forall i, j :: 0 <= i < j < |s| ==> s[i] != s[j]
  }

  /** The loop never duplicates an element: a sequence of distinct elements
      stays one. */
  lemma {:induction false} SwapStepsKeepsDistinct<T>(s: seq<T>, js: seq<int>)
    requires ChoicesInRange(js, |s|) && Distinct(s)
    ensures Distinct(SwapSteps(s, js))
    decreases |js|
  {
    if js != [] {
      var k := |js| - 1;
      SwapStepsKeepsDistinct(s, js[..k]);
      var t := SwapSteps(s, js[..k]);
      var r := Swap(t, |s| - 1 - k, js[k]);
      forall p, q | 0 <= p < q < |r|
        ensures r[p] != r[q]
      {
        var i, j := |s| - 1 - k, js[k];
        var p' := if p == i then j else if p == j then i else p;
        var q' := if q == i then j else if q == j then i else q;
        assert r[p] == t[p'] && r[q] == t[q'] && p' != q';
      }
    }
  }

  /** The shuffle of distinct elements has distinct elements. */
  lemma FisherYatesKeepsDistinct<T>(s: seq<T>, js: seq<int>)
    requires ValidChoices(js, |s|) && Distinct(s)
    ensures Distinct(FisherYates(s, js))
  {
    SwapStepsKeepsDistinct(s, js);
  }

  /** The positions 0, 1, ..., n - 1. */
  function Positions(n: nat): (r: seq<nat>)
    ensures |r| == n && Distinct(r)
    ensures forall k :: 0 <= k < n ==> r[k] == k
  {
    seq(n, k requires 0 <= k < n => k)
  }

  /** Every prefix of the loop moves elements around without changing them:
      shuffling `s` is reading `s` at the shuffled positions. */
  lemma {:induction false} SwapStepsReindexes<T>(s: seq<T>, js: seq<int>)
    requires ChoicesInRange(js, |s|)
    ensures forall k :: 0 <= k < |s| ==>
              0 <= SwapSteps(Positions(|s|), js)[k] < |s|
              && SwapSteps(s, js)[k] == s[SwapSteps(Positions(|s|), js)[k]]
    decreases |js|
  {
    if js != [] {
      var k := |js| - 1;
      SwapStepsReindexes(s, js[..k]);
    }
  }

  /** The shuffle of `s` is `s` read at the shuffle of its positions. */
  lemma FisherYatesReindexes<T>(s: seq<T>, js: seq<int>)
    requires ValidChoices(js, |s|)
    ensures forall k :: 0 <= k < |s| ==>
              0 <= FisherYates(Positions(|s|), js)[k] < |s|
              && FisherYates(s, js)[k] == s[FisherYates(Positions(|s|), js)[k]]
  {
    SwapStepsReindexes(s, js);
  }

  /** Shuffle a copy of `s`: the result lists the entries of `s` at the
      pairwise-distinct positions `order`, every position once. */
  method ShuffledCopy<T>(s: seq<T>) returns (r: seq<T>, ghost order: seq<nat>)
    ensures |r| == |s| && |order| == |s| && Distinct(order)
    ensures forall k :: 0 <= k < |s| ==> order[k] < |s| && r[k] == s[order[k]]
  {
    var a := new T[|s|](k requires 0 <= k < |s| => s[k]);
    assert a[..] == s;
    ghost var js := Shuffle(a);
    order := FisherYates(Positions(|s|), js);
    FisherYatesReindexes(s, js);
    FisherYatesKeepsDistinct(Positions(|s|), js);
    r := a[..];
  }
}
