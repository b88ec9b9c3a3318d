/** The corpus accessors of the poem store. The corpus is an in-memory
    sequence of poems; the random draws are inputs: `pick` stands for the
    position `random.choice` returns and `sample` for the positions
    `random.sample` returns. */
module PoemData {
  import opened Records
  import opened Sampling

  /** What `random.choice` promises on a non-empty corpus. */
  predicate ChoiceFits(data: seq<Poem>, pick: nat) {
    data != [] ==> pick < |data|
  }

  /** What `random.sample(data, min(count, len(data)))` promises on a
      non-empty corpus: that many distinct positions. */
  predicate SampleFits(data: seq<Poem>, count: nat, sample: seq<nat>) {
    data != [] ==> |sample| == Min(count, |data|) && IsSample(sample, |data|)
  }

  /** One poem of the corpus; fails when the corpus is empty. */
  function RandomPoem(data: seq<Poem>, pick: nat): (r: Result<Poem>)
    requires ChoiceFits(data, pick)
    ensures r.Err? <==> data == []
    ensures r.Ok? ==> r.value in data && r.value == data[pick]
  {
    if data == [] then Err(NoPoemData) else Ok(data[pick])
  }

  /** Up to `count` poems drawn from distinct positions of the corpus;
      empty on an empty corpus. */
  function RandomPoems(data: seq<Poem>, count: nat, sample: seq<nat>): (r: seq<Poem>)
    requires SampleFits(data, count, sample)
    ensures data == [] ==> r == []
    ensures |r| == Min(count, |data|)
    ensures forall i :: 0 <= i < |r| ==> sample[i] < |data| && r[i] == data[sample[i]]
    ensures multiset(r) <= multiset(data)
    ensures count >= |data| ==> multiset(r) == multiset(data)
  {
    if data == [] then []
    else
      SelectMultiset(data, sample);
      Select(data, sample)
  }
}
