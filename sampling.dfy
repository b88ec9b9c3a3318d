/** Caller-supplied random choices, written as sequences of indices:
    a sample is a list of distinct positions, a permutation a sample that
    covers every position. */
module Sampling {

  function Min(a: nat, b: nat): nat {
    if a <= b then a else b
  }

  predicate InRange(s: seq<nat>, n: nat) {
    forall i :: 0 <= i < |s| ==> s[i] < n
  }

  predicate Distinct(s: seq<nat>) {
    forall i, j :: 0 <= i < j < |s| ==> s[i] != s[j]
  }

  /** `s` lists distinct positions of a sequence of length `n`. */
  predicate IsSample(s: seq<nat>, n: nat) {
    InRange(s, n) && Distinct(s)
  }

  /** `s` lists every position of a sequence of length `n` exactly once. */
  predicate IsPermutation(s: seq<nat>, n: nat) {
    |s| == n && IsSample(s, n)
  }

  /** The elements of `data` at the positions `s`, in the order of `s`. */
  function Select<T>(data: seq<T>, s: seq<nat>): seq<T>
    requires InRange(s, |data|)
  {
    seq(|s|, i requires 0 <= i < |s| => data[s[i]])
  }

  /** The positions `s` renumbered for `data` with position `k` removed. */
  function Unshift(s: seq<nat>, k: nat): seq<nat>
  {
    seq(|s|, i requires 0 <= i < |s| => if s[i] > k then s[i] - 1 else s[i])
  }

  /** Renumbering positions around a removed position `k` keeps them
      distinct and in range of the shorter sequence. */
  lemma UnshiftSample(s: seq<nat>, n: nat, k: nat)
    requires IsSample(s, n) && k < n
    requires forall i :: 0 <= i < |s| ==> s[i] != k
    ensures IsSample(Unshift(s, k), n - 1)
  {
  }

  /** Selecting from `data` with position `k` removed, at the renumbered
      positions, selects the same elements. */
  lemma SelectRemoved<T>(data: seq<T>, s: seq<nat>, k: nat)
    requires InRange(s, |data|) && k < |data|
    requires forall i :: 0 <= i < |s| ==> s[i] != k
    ensures InRange(Unshift(s, k), |data| - 1)
    ensures Select(data, s) == Select(data[..k] + data[k + 1..], Unshift(s, k))
  {
    var data' := data[..k] + data[k + 1..];
    var s' := Unshift(s, k);
    forall i | 0 <= i < |s|
      ensures Select(data, s)[i] == Select(data', s')[i]
    {
      if s[i] > k {
        assert data'[s[i] - 1] == data[k + 1..][s[i] - 1 - k];
      } else {
        assert data'[s[i]] == data[..k][s[i]];
      }
    }
  }

  /** Selecting distinct positions never takes an element more often than
      `data` holds it; selecting every position yields exactly the
      elements of `data`. */
  lemma {:induction false} SelectMultiset<T>(data: seq<T>, s: seq<nat>)
    requires IsSample(s, |data|)
    ensures multiset(Select(data, s)) <= multiset(data)
    ensures |s| == |data| ==> multiset(Select(data, s)) == multiset(data)
    decreases |s|
  {
    if s != [] {
      var k := s[0];
      var rest := s[1..];
      var data' := data[..k] + data[k + 1..];
      var s' := Unshift(rest, k);
      assert forall i :: 0 <= i < |rest| ==> rest[i] != k by {
        forall i | 0 <= i < |rest| ensures rest[i] != k {
          assert rest[i] == s[i + 1];
        }
      }
      assert IsSample(rest, |data|);
      UnshiftSample(rest, |data|, k);
      SelectRemoved(data, rest, k);
      SelectMultiset(data', s');
      assert Select(data, s) == [data[k]] + Select(data, rest);
      assert data == data[..k] + [data[k]] + data[k + 1..];
      assert multiset(data) == multiset(data') + multiset{data[k]};
    }
  }
}
