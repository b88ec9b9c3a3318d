/** Building a four-way multiple-choice question: the answer field of a
    target poem, the answer fields of qualifying poems of a distractor
    pool in pool order, numbered placeholders when the pool runs short,
    and a caller-supplied shuffle. */
module Questions {
  import opened Records
  import opened Sampling
  import opened PoemData

  /** Number of choices a question offers. */
  const MaxChoices: nat := 4

  /** Number of poems drawn as the distractor pool. */
  const PoolSize: nat := 10

  /** The field a question of kind `kind` asks for. */
  function Answer(p: Poem, kind: QuestionType): string {
    match kind
    case LowerVerse => p.lower
    case Author => p.author
  }

  /** The prompt shown for a question of kind `kind`. */
  function Prompt(p: Poem, kind: QuestionType): (text: string)
    ensures |text| == |p.upper| + (if kind == Author then 1 + |p.lower| else 0)
    ensures text[..|p.upper|] == p.upper
    ensures kind == Author ==> text[|p.upper|] == '\n' && text[|p.upper| + 1..] == p.lower
  {
    match kind
    case LowerVerse => p.upper
    case Author => p.upper + "\n" + p.lower
  }

  function DecimalDigit(d: nat): char
    requires d < 10
  {
    (48 + d) as char
  }

  function PlaceholderLabel(kind: QuestionType): string {
    match kind
    case LowerVerse => "選択肢"
    case Author => "作者"
  }

  /** The filler appended when the choice list has length `k`; padding
      only runs below length four, so `k` is a single decimal digit. */
  function Placeholder(kind: QuestionType, k: nat): (s: string)
    requires k < 10
    ensures |s| == |PlaceholderLabel(kind)| + 2
    ensures s[..|PlaceholderLabel(kind)|] == PlaceholderLabel(kind)
    ensures s[|s| - 2] == ' ' && s[|s| - 1] == DecimalDigit(k)
  {
    PlaceholderLabel(kind) + " " + [DecimalDigit(k)]
  }

  /** A pool poem may serve as a distractor: another id and another answer. */
  predicate Qualifies(target: Poem, p: Poem, kind: QuestionType): (b: bool)
    ensures b ==> p != target
  {
    p.id != target.id && Answer(p, kind) != Answer(target, kind)
  }

  /** The answers of all qualifying pool poems, in pool order; duplicates
      among them are kept. */
  function Qualifying(target: Poem, pool: seq<Poem>, kind: QuestionType): seq<string>
    decreases |pool|
  {
    if pool == [] then []
    else
      var last := pool[|pool| - 1];
      Qualifying(target, pool[..|pool| - 1], kind)
        + (if Qualifies(target, last, kind) then [Answer(last, kind)] else [])
  }

  /** The distractors a question takes: the first three qualifying answers. */
  function Distractors(target: Poem, pool: seq<Poem>, kind: QuestionType): (d: seq<string>)
    ensures d <= Qualifying(target, pool, kind)
    ensures |d| == Min(MaxChoices - 1, |Qualifying(target, pool, kind)|)
  {
    var q := Qualifying(target, pool, kind);
    if |q| <= MaxChoices - 1 then q else q[..MaxChoices - 1]
  }

  /** Placeholders for positions `from` up to the last choice position. */
  function Padding(kind: QuestionType, from: nat): (pad: seq<string>)
    requires from <= MaxChoices
    ensures from + |pad| == MaxChoices
    ensures forall k :: from <= k < MaxChoices ==> pad[k - from] == Placeholder(kind, k)
  {
    seq(MaxChoices - from, i requires 0 <= i < MaxChoices - from => Placeholder(kind, from + i))
  }

  /** The choice list before the shuffle. */
  function Unshuffled(target: Poem, pool: seq<Poem>, kind: QuestionType): (u: seq<string>)
    ensures |u| == MaxChoices && u[0] == Answer(target, kind)
  {
    var front := [Answer(target, kind)] + Distractors(target, pool, kind);
    front + Padding(kind, |front|)
  }

  /** The list before the shuffle holds four entries: the correct answer,
      then the distractors, then a placeholder numbered by its position in
      each remaining position. */
  lemma UnshuffledShape(target: Poem, pool: seq<Poem>, kind: QuestionType)
    ensures var u := Unshuffled(target, pool, kind);
            var d := Distractors(target, pool, kind);
            && |u| == MaxChoices
            && u[0] == Answer(target, kind)
            && u[1..1 + |d|] == d
            && forall k :: 1 + |d| <= k < MaxChoices ==> u[k] == Placeholder(kind, k)
  {
  }

  /** `s` reordered by the permutation `perm`. */
  function Shuffle(s: seq<string>, perm: seq<nat>): (r: seq<string>)
    requires IsPermutation(perm, |s|)
    ensures |r| == |s|
    ensures multiset(r) == multiset(s)
  {
    SelectMultiset(s, perm);
    Select(s, perm)
  }

  /** The question built for `target` from the distractor pool `pool`. */
  function MakeQuestion(target: Poem, pool: seq<Poem>, kind: QuestionType, perm: seq<nat>): (q: Question)
    requires IsPermutation(perm, MaxChoices)
    ensures |q.choices| == MaxChoices
    ensures multiset(q.choices) == multiset(Unshuffled(target, pool, kind))
    ensures q.correctAnswer == Answer(target, kind) && q.correctAnswer in q.choices
  {
    var u := Unshuffled(target, pool, kind);
    UnshuffledShape(target, pool, kind);
    var choices := Shuffle(u, perm);
    assert u[0] in multiset(choices);
    Question(target, Prompt(target, kind), choices, Answer(target, kind), kind)
  }

  /** What the random draws of one generation must satisfy. */
  predicate DrawsFit(data: seq<Poem>, pick: nat, sample: seq<nat>, perm: seq<nat>) {
    ChoiceFits(data, pick) && SampleFits(data, PoolSize, sample) && IsPermutation(perm, MaxChoices)
  }

  /** The outcome of generating a question of kind `kind` from the corpus. */
  function QuestionFor(data: seq<Poem>, kind: QuestionType, pick: nat, sample: seq<nat>, perm: seq<nat>): (r: Result<Question>)
    requires DrawsFit(data, pick, sample, perm)
    ensures r.Err? <==> data == []
    ensures r.Ok? ==> && r.value.poem == data[pick]
                      && r.value.questionType == kind
                      && r.value.questionText == Prompt(data[pick], kind)
                      && r.value.correctAnswer == Answer(data[pick], kind)
                      && |r.value.choices| == MaxChoices
                      && multiset(r.value.choices)
                           == multiset(Unshuffled(data[pick], RandomPoems(data, PoolSize, sample), kind))
  {
    match RandomPoem(data, pick)
    case Err(e) => Err(e)
    case Ok(target) => Ok(MakeQuestion(target, RandomPoems(data, PoolSize, sample), kind, perm))
  }

  /** The choice list before the shuffle, as both question kinds build it:
      scan the pool, then pad. */
  method BuildChoices(target: Poem, pool: seq<Poem>, kind: QuestionType) returns (choices: seq<string>)
    ensures choices == Unshuffled(target, pool, kind)
    ensures |choices| == MaxChoices && choices[0] == Answer(target, kind)
  {
    choices := ScanPool(target, pool, kind);
    choices := PadChoices(kind, choices);
    UnshuffledShape(target, pool, kind);
  }

  /** Starts from the correct answer and appends the answer of each pool
      poem with another id and another answer, in pool order, stopping
      once the list holds four entries. */
  method ScanPool(target: Poem, pool: seq<Poem>, kind: QuestionType) returns (choices: seq<string>)
    ensures choices == [Answer(target, kind)] + Distractors(target, pool, kind)
  {
    var answer := Answer(target, kind);
    choices := [answer];
    var i := 0;
    while i < |pool|
      invariant 0 <= i <= |pool|
      invariant choices == [answer] + Qualifying(target, pool[..i], kind)
      invariant |choices| < MaxChoices
    {
      var poem := pool[i];
      ScanStep(target, pool, kind, i);
      if poem.id != target.id && Answer(poem, kind) != answer {
        choices := choices + [Answer(poem, kind)];
        if |choices| >= MaxChoices {
          ScanDone(target, pool, kind, i + 1);
          return;
        }
      }
      i := i + 1;
    }
    ScanDone(target, pool, kind, i);
  }

  /** Appends placeholders numbered by the current length until the list
      holds four entries. */
  method PadChoices(kind: QuestionType, front: seq<string>) returns (choices: seq<string>)
    requires |front| <= MaxChoices
    ensures choices == front + Padding(kind, |front|)
  {
    choices := front;
    while |choices| < MaxChoices
      invariant |front| <= |choices| <= MaxChoices
      invariant choices[..|front|] == front
      invariant forall k :: |front| <= k < |choices| ==> choices[k] == Placeholder(kind, k)
      decreases MaxChoices - |choices|
    {
      choices := choices + [Placeholder(kind, |choices|)];
    }
    PadDone(kind, front, choices);
  }

  /** One more pool poem extends the qualifying answers by its answer, if
      it qualifies. */
  lemma ScanStep(target: Poem, pool: seq<Poem>, kind: QuestionType, i: nat)
    requires i < |pool|
    ensures Qualifying(target, pool[..i + 1], kind) == Qualifying(target, pool[..i], kind)
              + (if Qualifies(target, pool[i], kind) then [Answer(pool[i], kind)] else [])
  {
    assert pool[..i + 1][..i] == pool[..i];
  }

  /** The scan may stop once three answers qualified, or at the end of
      the pool: either way it holds the distractors. */
  lemma ScanDone(target: Poem, pool: seq<Poem>, kind: QuestionType, i: nat)
    requires i <= |pool|
    requires |Qualifying(target, pool[..i], kind)| == MaxChoices - 1
             || (i == |pool| && |Qualifying(target, pool[..i], kind)| < MaxChoices - 1)
    ensures Distractors(target, pool, kind) == Qualifying(target, pool[..i], kind)
  {
    QualifyingPrefix(target, pool, kind, i);
    if i == |pool| {
      assert pool[..i] == pool;
    }
  }

  /** A front followed by the placeholders for its remaining positions. */
  lemma PadDone(kind: QuestionType, front: seq<string>, choices: seq<string>)
    requires |front| <= |choices| == MaxChoices
    requires choices[..|front|] == front
    requires forall k :: |front| <= k < |choices| ==> choices[k] == Placeholder(kind, k)
    ensures choices == front + Padding(kind, |front|)
  {
  }

  /** A lower-verse question: the upper verse is the prompt, the lower
      verse the answer; fails on an empty corpus. */
  method GenerateLowerVerseQuestion(data: seq<Poem>, pick: nat, sample: seq<nat>, perm: seq<nat>)
    returns (r: Result<Question>)
    requires DrawsFit(data, pick, sample, perm)
    ensures r == QuestionFor(data, LowerVerse, pick, sample, perm)
    ensures r.Err? <==> data == []
    ensures r.Ok? ==> r.value.poem in data && r.value.questionType == LowerVerse
    ensures r.Ok? ==> r.value.questionText == r.value.poem.upper
    ensures r.Ok? ==> r.value.correctAnswer == r.value.poem.lower
    ensures r.Ok? ==> |r.value.choices| == MaxChoices && r.value.correctAnswer in r.value.choices
  {
    var picked := RandomPoem(data, pick);
    if picked.Err? {
      return Err(picked.error);
    }
    var correctPoem := picked.value;
    var otherPoems := RandomPoems(data, PoolSize, sample);
    var choices := BuildChoices(correctPoem, otherPoems, LowerVerse);
    choices := Shuffle(choices, perm);
    r := Ok(Question(correctPoem, correctPoem.upper, choices, correctPoem.lower, LowerVerse));
  }

  /** An author question: both verses are the prompt, the author the
      answer; fails on an empty corpus. */
  method GenerateAuthorQuestion(data: seq<Poem>, pick: nat, sample: seq<nat>, perm: seq<nat>)
    returns (r: Result<Question>)
    requires DrawsFit(data, pick, sample, perm)
    ensures r == QuestionFor(data, Author, pick, sample, perm)
    ensures r.Err? <==> data == []
    ensures r.Ok? ==> r.value.poem in data && r.value.questionType == Author
    ensures r.Ok? ==> r.value.questionText == r.value.poem.upper + "\n" + r.value.poem.lower
    ensures r.Ok? ==> r.value.correctAnswer == r.value.poem.author
    ensures r.Ok? ==> |r.value.choices| == MaxChoices && r.value.correctAnswer in r.value.choices
  {
    var picked := RandomPoem(data, pick);
    if picked.Err? {
      return Err(picked.error);
    }
    var correctPoem := picked.value;
    var otherPoems := RandomPoems(data, PoolSize, sample);
    var choices := BuildChoices(correctPoem, otherPoems, Author);
    choices := Shuffle(choices, perm);
    var questionText := correctPoem.upper + "\n" + correctPoem.lower;
    r := Ok(Question(correctPoem, questionText, choices, correctPoem.author, Author));
  }

  // Properties of the choice construction.

  /** The answers of a prefix of the pool are a prefix of the answers of
      the whole pool. */
  lemma {:induction false} QualifyingPrefix(target: Poem, pool: seq<Poem>, kind: QuestionType, k: nat)
    requires k <= |pool|
    ensures Qualifying(target, pool[..k], kind) <= Qualifying(target, pool, kind)
    decreases |pool|
  {
    if k < |pool| {
      var init := pool[..|pool| - 1];
      assert init[..k] == pool[..k];
      QualifyingPrefix(target, init, kind, k);
    } else {
      assert pool[..k] == pool;
    }
  }

  /** A string is a qualifying answer exactly when some poem of the pool
      qualifies and carries it. */
  lemma {:induction false} QualifyingMembers(target: Poem, pool: seq<Poem>, kind: QuestionType, x: string)
    ensures x in Qualifying(target, pool, kind) <==>
            exists p :: p in pool && Qualifies(target, p, kind) && Answer(p, kind) == x
    decreases |pool|
  {
    if pool != [] {
      var init := pool[..|pool| - 1];
      var last := pool[|pool| - 1];
      QualifyingMembers(target, init, kind, x);
      assert pool == init + [last];
      if exists p :: p in pool && Qualifies(target, p, kind) && Answer(p, kind) == x {
        var p :| p in pool && Qualifies(target, p, kind) && Answer(p, kind) == x;
        if p != last {
          assert p in init;
        }
      }
    }
  }

  /** Every distractor is the answer of a pool poem with another id and
      another answer, so none equals the correct answer. */
  lemma DistractorsQualify(target: Poem, pool: seq<Poem>, kind: QuestionType)
    ensures forall x :: x in Distractors(target, pool, kind) ==>
              exists p :: p in pool && Qualifies(target, p, kind) && Answer(p, kind) == x
    ensures Answer(target, kind) !in Distractors(target, pool, kind)
  {
    var d := Distractors(target, pool, kind);
    forall x | x in d
      ensures exists p :: p in pool && Qualifies(target, p, kind) && Answer(p, kind) == x
    {
      QualifyingMembers(target, pool, kind, x);
    }
  }

  /** The numbered placeholders of one question kind differ from each other. */
  lemma PlaceholdersDistinct(kind: QuestionType, j: nat, k: nat)
    requires j < 10 && k < 10 && j != k
    ensures Placeholder(kind, j) != Placeholder(kind, k)
  {
    var pj, pk := Placeholder(kind, j), Placeholder(kind, k);
    assert pj[|pj| - 1] == DecimalDigit(j);
    assert pk[|pk| - 1] == DecimalDigit(k);
  }

  /** Unless a placeholder happens to spell the correct answer, the correct
      answer occurs exactly once among the choices. */
  lemma AnswerOccursOnce(target: Poem, pool: seq<Poem>, kind: QuestionType, perm: seq<nat>)
    requires IsPermutation(perm, MaxChoices)
    requires forall k :: 1 <= k < MaxChoices ==> Placeholder(kind, k) != Answer(target, kind)
    ensures multiset(Unshuffled(target, pool, kind))[Answer(target, kind)] == 1
    ensures multiset(MakeQuestion(target, pool, kind, perm).choices)[Answer(target, kind)] == 1
  {
    var a := Answer(target, kind);
    var u := Unshuffled(target, pool, kind);
    var d := Distractors(target, pool, kind);
    DistractorsQualify(target, pool, kind);
    assert u == [a] + u[1..];
    assert a !in u[1..] by {
      forall k | 1 <= k < MaxChoices ensures u[k] != a {
        if k < 1 + |d| {
          assert u[k] == d[k - 1];
        }
      }
    }
    assert multiset(u) == multiset{a} + multiset(u[1..]);
  }

  /** When no pool poem qualifies, the three positions after the answer
      are all placeholders. */
  lemma NoQualifyingPoem(target: Poem, pool: seq<Poem>, kind: QuestionType)
    requires Qualifying(target, pool, kind) == []
    ensures Unshuffled(target, pool, kind)
              == [Answer(target, kind), Placeholder(kind, 1), Placeholder(kind, 2), Placeholder(kind, 3)]
  {
    assert Distractors(target, pool, kind) == [];
    assert Padding(kind, 1) == [Placeholder(kind, 1), Placeholder(kind, 2), Placeholder(kind, 3)];
  }

  /** With a one-poem corpus the pool holds only the target itself, so the
      question offers its answer and the three placeholders. */
  lemma SinglePoemCorpus(p: Poem, kind: QuestionType, pick: nat, sample: seq<nat>, perm: seq<nat>)
    requires DrawsFit([p], pick, sample, perm)
    ensures QuestionFor([p], kind, pick, sample, perm).Ok?
    ensures Unshuffled(p, RandomPoems([p], PoolSize, sample), kind)
              == [Answer(p, kind), Placeholder(kind, 1), Placeholder(kind, 2), Placeholder(kind, 3)]
    ensures multiset(QuestionFor([p], kind, pick, sample, perm).value.choices)
              == multiset{Answer(p, kind), Placeholder(kind, 1), Placeholder(kind, 2), Placeholder(kind, 3)}
  {
    var pool := RandomPoems([p], PoolSize, sample);
    var u := Unshuffled(p, pool, kind);
    assert u == [Answer(p, kind), Placeholder(kind, 1), Placeholder(kind, 2), Placeholder(kind, 3)] by {
      assert pool == [p];
      assert Qualifying(p, pool, kind) == [] by {
        assert pool[..0] == [];
      }
      NoQualifyingPoem(p, pool, kind);
    }
    assert [p][pick] == p;
  }

  /** With a one-poem corpus, and no placeholder spelling the answer, the
      four choices are pairwise different. */
  lemma SinglePoemCorpusDistinct(p: Poem, kind: QuestionType, pick: nat, sample: seq<nat>, perm: seq<nat>)
    requires DrawsFit([p], pick, sample, perm)
    requires forall k :: 1 <= k < MaxChoices ==> Placeholder(kind, k) != Answer(p, kind)
    ensures QuestionFor([p], kind, pick, sample, perm).Ok?
    ensures var q := QuestionFor([p], kind, pick, sample, perm).value;
            forall i, j :: 0 <= i < j < |q.choices| ==> q.choices[i] != q.choices[j]
  {
    SinglePoemCorpus(p, kind, pick, sample, perm);
    var pool := RandomPoems([p], PoolSize, sample);
    var u := Unshuffled(p, pool, kind);
    AllPlaceholdersDistinct(Answer(p, kind), kind);
    ShuffleKeepsDistinct(u, perm);
    assert QuestionFor([p], kind, pick, sample, perm).value == MakeQuestion(p, pool, kind, perm);
  }

  /** An answer followed by the three placeholders has no repeated entry,
      unless a placeholder spells the answer. */
  lemma AllPlaceholdersDistinct(a: string, kind: QuestionType)
    requires forall k :: 1 <= k < MaxChoices ==> Placeholder(kind, k) != a
    ensures var u := [a, Placeholder(kind, 1), Placeholder(kind, 2), Placeholder(kind, 3)];
            forall i, j :: 0 <= i < j < |u| ==> u[i] != u[j]
  {
    PlaceholdersDistinct(kind, 1, 2);
    PlaceholdersDistinct(kind, 1, 3);
    PlaceholdersDistinct(kind, 2, 3);
    assert Placeholder(kind, 1) != a && Placeholder(kind, 2) != a && Placeholder(kind, 3) != a;
  }

  /** Reordering by a permutation keeps pairwise different entries apart. */
  lemma ShuffleKeepsDistinct(s: seq<string>, perm: seq<nat>)
    requires IsPermutation(perm, |s|)
    requires forall i, j :: 0 <= i < j < |s| ==> s[i] != s[j]
    ensures var r := Shuffle(s, perm);
            forall i, j :: 0 <= i < j < |r| ==> r[i] != r[j]
  {
    var r := Shuffle(s, perm);
    forall i, j | 0 <= i < j < |r| ensures r[i] != r[j] {
      assert r[i] == s[perm[i]] && r[j] == s[perm[j]];
      if perm[i] > perm[j] {
        assert s[perm[j]] != s[perm[i]];
      }
    }
  }

  /** Distractors are not checked against each other: two pool poems by the
      same author give that author twice. */
  lemma DuplicateDistractors()
    ensures var target := Poem(1, "A", "u1", "l1", "", "", "");
            var p2 := Poem(2, "B", "u2", "l2", "", "", "");
            var p3 := Poem(3, "B", "u3", "l3", "", "", "");
            Unshuffled(target, [p2, p3], Author) == ["A", "B", "B", Placeholder(Author, 3)]
  {
    var target := Poem(1, "A", "u1", "l1", "", "", "");
    var p2 := Poem(2, "B", "u2", "l2", "", "", "");
    var p3 := Poem(3, "B", "u3", "l3", "", "", "");
    assert [p2, p3][..1] == [p2];
    assert [p2][..0] == [];
    assert Qualifying(target, [p2], Author) == ["B"];
    assert Qualifying(target, [p2, p3], Author) == ["B", "B"];
    assert Distractors(target, [p2, p3], Author) == ["B", "B"];
  }
}
