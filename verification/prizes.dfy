/** The prize table and the hit count of a ticket against the drawn numbers. */
module Prizes {
  import opened Numbers

  /** What one ticket pays: the prize credited to the player and the
      operator's share of it. */
  datatype Prize = Prize(prize: int, operatorProfit: int)

  const PrizeTable: map<int, int> := map[2 := 100, 3 := 500, 4 := 1000, 5 := 5000]
  const OperatorProfitPercentage := 10

  /** Prize for a hit count: looked up in the table, 0 when the hit count is
      not a key; the operator keeps 10% of it. */
  function CalculatePrize(hits: int): (p: Prize)
    ensures p.prize > 0 <==> 2 <= hits <= 5
    ensures 0 <= p.prize <= 5000
    ensures 0 <= p.operatorProfit <= p.prize
    ensures p.operatorProfit * 100 == p.prize * OperatorProfitPercentage
  {
    var prize := if hits in PrizeTable then PrizeTable[hits] else 0;
    Prize(prize, prize * OperatorProfitPercentage / 100)
  }

  /** The table entry by entry. */
  lemma PrizeTableEntries(hits: int)
    ensures CalculatePrize(hits) ==
      if hits == 2 then Prize(100, 10)
      else if hits == 3 then Prize(500, 50)
      else if hits == 4 then Prize(1000, 100)
      else if hits == 5 then Prize(5000, 500)
      else Prize(0, 0)
  {
  }

  /** The ticket numbers that also appear among the drawn numbers, in ticket
      order. */
  function Matches(numbers: seq<int>, drawn: seq<int>): (m: seq<int>)
    ensures |m| <= |numbers|
    ensures forall x :: x in m <==> x in numbers && x in drawn
  {
    if numbers == [] then []
    else (if numbers[0] in drawn then [numbers[0]] else []) + Matches(numbers[1..], drawn)
  }

  /** Number of hits of a ticket. */
  function Hits(numbers: seq<int>, drawn: seq<int>): (h: nat)
    ensures h <= |numbers|
  {
    |Matches(numbers, drawn)|
  }

  /** One ticket number more adds one hit when it was drawn, none otherwise. */
  lemma HitsCons(head: int, rest: seq<int>, drawn: seq<int>)
    ensures Hits([head] + rest, drawn) == (if head in drawn then 1 else 0) + Hits(rest, drawn)
  {
    assert ([head] + rest)[1..] == rest;
  }

  /** One number more, not among the others, adds one common number when it
      was drawn, none otherwise. */
  lemma CommonCons(head: int, rest: seq<int>, drawn: seq<int>)
    requires head !in rest
    ensures |Elements([head] + rest) * Elements(drawn)|
      == (if head in drawn then 1 else 0) + |Elements(rest) * Elements(drawn)|
  {
    var commonRest := Elements(rest) * Elements(drawn);
    assert Elements([head] + rest) == {head} + Elements(rest);
    assert head !in commonRest;
    if head in drawn {
      assert Elements([head] + rest) * Elements(drawn) == {head} + commonRest;
    } else {
      assert Elements([head] + rest) * Elements(drawn) == commonRest;
    }
  }

  /** For a ticket without repeated numbers, the hits are the numbers the
      ticket and the draw have in common. */
  lemma {:induction false} HitsIsIntersection(numbers: seq<int>, drawn: seq<int>)
    requires NoDuplicates(numbers)
    ensures Hits(numbers, drawn) == |Elements(numbers) * Elements(drawn)|
  {
    if numbers == [] {
      assert Elements(numbers) == {};
    } else {
      var head, rest := numbers[0], numbers[1..];
      assert numbers == [head] + rest;
      assert NoDuplicates(rest);
      assert head !in rest;
      HitsIsIntersection(rest, drawn);
      HitsCons(head, rest, drawn);
      CommonCons(head, rest, drawn);
    }
  }
}
