/** The number generator of the lottery: rejection sampling of distinct
    numbers in [1, 39].

    The random source is injected: `rolls` is the sequence of candidates the
    source produces, one per iteration of the sampling loop. */
module Numbers {

  const LowestNumber := 1
  const HighestNumber := 39

  predicate InRange(x: int) {
    LowestNumber <= x <= HighestNumber
  }

  predicate AllInRange(s: seq<int>) {
    forall x :: x in s ==> InRange(x)
  }

  predicate NoDuplicates(s: seq<int>) {
    forall i, j :: 0 <= i < j < |s| ==> s[i] != s[j]
  }

  /** A draw of `count` numbers: pairwise distinct, each in [1, 39]. */
  predicate IsDraw(s: seq<int>, count: nat) {
    |s| == count && NoDuplicates(s) && AllInRange(s)
  }

  function Elements(s: seq<int>): (e: set<int>)
    ensures forall x :: x in e <==> x in s
  {
    set x | x in s
  }

  /** The candidates of `rolls` in the order they were drawn, every repeat
      of an earlier candidate dropped. */
  function Distinct(rolls: seq<int>): (d: seq<int>)
    ensures forall x :: x in d <==> x in rolls
    ensures NoDuplicates(d)
    ensures |d| <= |rolls|
  {
    if rolls == [] then []
    else
      var earlier := Distinct(rolls[..|rolls| - 1]);
      var candidate := rolls[|rolls| - 1];
      if candidate in earlier then earlier else earlier + [candidate]
  }

  /** The random source yields candidates in [1, 39] and, among them, at
      least `count` different ones, so that the sampling loop ends. */
  predicate Supplies(rolls: seq<int>, count: nat) {
    AllInRange(rolls) && count <= |Distinct(rolls)|
  }

  /** Dropping repeats from a prefix of the rolls gives a prefix of the
      repeat-free rolls. */
  lemma {:induction false} DistinctPrefix(rolls: seq<int>, j: nat)
    requires j <= |rolls|
    ensures Distinct(rolls[..j]) <= Distinct(rolls)
  {
    if j < |rolls| {
      var init := rolls[..|rolls| - 1];
      assert init[..j] == rolls[..j];
      DistinctPrefix(init, j);
    } else {
      assert rolls[..j] == rolls;
    }
  }

  /** A sequence without repeats has as many elements as entries. */
  lemma {:induction false} NoDuplicatesCardinality(s: seq<int>)
    requires NoDuplicates(s)
    ensures |Elements(s)| == |s|
  {
    if s != [] {
      var init := s[..|s| - 1];
      assert NoDuplicates(init);
      NoDuplicatesCardinality(init);
      assert s == init + [s[|s| - 1]];
      assert Elements(s) == Elements(init) + {s[|s| - 1]};
      assert s[|s| - 1] !in Elements(init);
    }
  }

  /** The repeat-free rolls have one entry per different candidate. */
  lemma DistinctCardinality(rolls: seq<int>)
    ensures |Distinct(rolls)| == |Elements(rolls)|
  {
    NoDuplicatesCardinality(Distinct(rolls));
    assert Elements(Distinct(rolls)) == Elements(rolls);
  }

  /** `Supplies` in terms of the set of candidates the source produces. */
  lemma SuppliesMeansEnoughCandidates(rolls: seq<int>, count: nat)
    ensures Supplies(rolls, count) <==> AllInRange(rolls) && count <= |Elements(rolls)|
  {
    DistinctCardinality(rolls);
  }

  /** The first `count` different candidates, in draw order, form a draw. */
  lemma FirstDistinctIsDraw(rolls: seq<int>, count: nat)
    requires Supplies(rolls, count)
    ensures IsDraw(Distinct(rolls)[..count], count)
  {
    var d := Distinct(rolls);
    forall x | x in d[..count] ensures InRange(x) {
      assert x in d;
    }
  }

  /** Rejection sampling: keep drawing candidates and keep each one not
      already held, until `count` numbers are held. The result is in draw
      order, not sorted. */
  method GenerateRandomNumbers(count: nat, rolls: seq<int>) returns (numbers: seq<int>)
    requires Supplies(rolls, count)
    ensures numbers == Distinct(rolls)[..count]
    ensures IsDraw(numbers, count)
  {
    numbers := [];
    var i := 0;
    while |numbers| < count
      invariant i <= |rolls|
      invariant numbers == Distinct(rolls[..i])
      invariant |numbers| <= count
      decreases |rolls| - i
    {
      assert rolls[..i] != rolls;
      var randomNum := rolls[i];
      assert rolls[..i + 1][..i] == rolls[..i];
      if randomNum !in numbers {
        numbers := numbers + [randomNum];
      }
      i := i + 1;
    }
    DistinctPrefix(rolls, i);
    FirstDistinctIsDraw(rolls, count);
  }
}
