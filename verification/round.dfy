/** Minting the tickets of a purchase and scoring the tickets of a draw:
    the specification functions over a list of tickets and the two loops
    that compute them. */
module Round {
  import opened Numbers
  import opened Prizes
  import opened Records

  /** The ticket minted from the candidate stream `rolls`. */
  function NewTicket(rolls: seq<int>, id: int): (t: Ticket)
    requires Supplies(rolls, TicketSize)
    ensures WellFormedTicket(t) && t.id == id
  {
    FirstDistinctIsDraw(rolls, TicketSize);
    Ticket(Distinct(rolls)[..TicketSize], true, id)
  }

  predicate AllSupply(streams: seq<seq<int>>, count: nat) {
    forall i :: 0 <= i < |streams| ==> Supplies(streams[i], count)
  }

  /** The batch minted for a player already holding `held` tickets: one
      ticket per candidate stream, with ids `held + 1`, `held + 2`, ... */
  function Mint(held: nat, streams: seq<seq<int>>): (batch: seq<Ticket>)
    requires AllSupply(streams, TicketSize)
    ensures |batch| == |streams|
    ensures forall i :: 0 <= i < |batch| ==> WellFormedTicket(batch[i]) && batch[i].id == held + i + 1
  {
    seq(|streams|, i requires 0 <= i < |streams| => NewTicket(streams[i], held + i + 1))
  }

  /** A minted batch has one well-formed player ticket per stream and
      continues the id numbering of the tickets already held. */
  lemma MintedBatch(held: seq<Ticket>, streams: seq<seq<int>>)
    requires AllSupply(streams, TicketSize)
    ensures |Mint(|held|, streams)| == |streams|
    ensures AllWellFormed(Mint(|held|, streams))
    ensures SequentialIds(held) ==> SequentialIds(held + Mint(|held|, streams))
  {
    var batch := Mint(|held|, streams);
    forall t | t in batch ensures WellFormedTicket(t) {
      var i :| 0 <= i < |batch| && batch[i] == t;
    }
  }

  /** Builds the batch of a purchase, one generated ticket per stream. */
  method MintTickets(held: nat, streams: seq<seq<int>>) returns (batch: seq<Ticket>)
    requires AllSupply(streams, TicketSize)
    ensures |batch| == |streams|
    ensures forall i :: 0 <= i < |batch| ==>
      && batch[i].numbers == Distinct(streams[i])[..TicketSize]
      && batch[i].isPlayerTicket
      && batch[i].id == held + i + 1
  {
    batch := [];
    for index := 0 to |streams|
      invariant |batch| == index
      invariant forall i :: 0 <= i < index ==> batch[i] == NewTicket(streams[i], held + i + 1)
    {
      var numbers := GenerateRandomNumbers(TicketSize, streams[index]);
      batch := batch + [Ticket(numbers, true, held + index + 1)];
    }
  }

  function Last(tickets: seq<Ticket>): (t: Ticket)
    requires tickets != []
  {
    tickets[|tickets| - 1]
  }

  function AllButLast(tickets: seq<Ticket>): (rest: seq<Ticket>)
    requires tickets != []
  {
    tickets[..|tickets| - 1]
  }

  function TicketPrize(t: Ticket, drawn: seq<int>): (p: Prize) {
    CalculatePrize(Hits(t.numbers, drawn))
  }

  /** Sum of the prizes of the tickets. */
  function TotalPrize(tickets: seq<Ticket>, drawn: seq<int>): (total: int)
    ensures 0 <= total <= 5000 * |tickets|
  {
    if tickets == [] then 0
    else TotalPrize(AllButLast(tickets), drawn) + TicketPrize(Last(tickets), drawn).prize
  }

  /** Sum of the operator's shares of the prizes. */
  function TotalSkim(tickets: seq<Ticket>, drawn: seq<int>): (skim: int)
    ensures 0 <= skim <= 500 * |tickets|
  {
    if tickets == [] then 0
    else TotalSkim(AllButLast(tickets), drawn) + TicketPrize(Last(tickets), drawn).operatorProfit
  }

  /** Sum of the changes to the operator balance, share minus prize per
      ticket: the operator never gains from paying prizes, and loses at most
      4500 coins per ticket. */
  function OperatorDelta(tickets: seq<Ticket>, drawn: seq<int>): (delta: int)
    ensures -4500 * |tickets| <= delta <= 0
  {
    if tickets == [] then 0
    else
      var p := TicketPrize(Last(tickets), drawn);
      OperatorDelta(AllButLast(tickets), drawn) + p.operatorProfit - p.prize
  }

  /** Number of tickets with exactly `hits` hits. */
  function BucketCount(tickets: seq<Ticket>, drawn: seq<int>, hits: int): (count: nat)
    ensures count <= |tickets|
  {
    if tickets == [] then 0
    else BucketCount(AllButLast(tickets), drawn, hits) + if Hits(Last(tickets).numbers, drawn) == hits then 1 else 0
  }

  /** The round's results map: one bucket per displayed hit count. */
  function Buckets(tickets: seq<Ticket>, drawn: seq<int>): (buckets: map<int, nat>)
    ensures buckets.Keys == BucketKeys
    ensures forall k :: k in buckets ==> buckets[k] <= |tickets|
  {
    map k | k in BucketKeys :: BucketCount(tickets, drawn, k)
  }

  /** The operator keeps a tenth of the prizes it pays out: its balance moves
      by minus nine tenths of the prizes, and the coins of player and operator
      together grow by the skim. */
  lemma {:induction false} OperatorPaysNineTenths(tickets: seq<Ticket>, drawn: seq<int>)
    ensures OperatorDelta(tickets, drawn) == TotalSkim(tickets, drawn) - TotalPrize(tickets, drawn)
    ensures TotalSkim(tickets, drawn) * 10 == TotalPrize(tickets, drawn)
    ensures OperatorDelta(tickets, drawn) * 10 == -9 * TotalPrize(tickets, drawn)
  {
    if tickets != [] {
      OperatorPaysNineTenths(AllButLast(tickets), drawn);
    }
  }

  /** Sum of the displayed buckets. */
  function Tallied(tickets: seq<Ticket>, drawn: seq<int>): (n: nat) {
    BucketCount(tickets, drawn, 0) + BucketCount(tickets, drawn, 2) + BucketCount(tickets, drawn, 3)
      + BucketCount(tickets, drawn, 4) + BucketCount(tickets, drawn, 5)
  }

  /** When every ticket has five numbers, the displayed buckets and the
      one-hit tickets, tallied nowhere, account for every ticket. */
  lemma {:induction false} BucketsCoverTickets(tickets: seq<Ticket>, drawn: seq<int>)
    requires forall t :: t in tickets ==> |t.numbers| == TicketSize
    ensures Tallied(tickets, drawn) + BucketCount(tickets, drawn, 1) == |tickets|
  {
    if tickets != [] {
      assert Last(tickets) in tickets;
      BucketsCoverTickets(AllButLast(tickets), drawn);
    }
  }

  /** `results[hits]++`: a displayed bucket counts one ticket more; a hit
      count without a bucket changes nothing. */
  function Tally(buckets: map<int, nat>, hits: int): (r: map<int, nat>)
    ensures r.Keys == buckets.Keys
    ensures forall k :: k in r && k != hits ==> r[k] == buckets[k]
    ensures hits in buckets ==> r[hits] == buckets[hits] + 1
  {
    if hits in buckets then buckets[hits := buckets[hits] + 1] else buckets
  }

  /** Scoring one ticket more extends the prize total and the operator's
      balance change by that ticket alone. */
  lemma TotalsExtend(tickets: seq<Ticket>, i: nat, drawn: seq<int>)
    requires i < |tickets|
    ensures var (done, next, p) := (tickets[..i], tickets[..i + 1], TicketPrize(tickets[i], drawn));
      && TotalPrize(next, drawn) == TotalPrize(done, drawn) + p.prize
      && OperatorDelta(next, drawn) == OperatorDelta(done, drawn) + p.operatorProfit - p.prize
  {
    assert AllButLast(tickets[..i + 1]) == tickets[..i];
  }

  /** Scoring one ticket more tallies that ticket's hit count. */
  lemma BucketsExtend(tickets: seq<Ticket>, i: nat, drawn: seq<int>)
    requires i < |tickets|
    ensures Buckets(tickets[..i + 1], drawn) == Tally(Buckets(tickets[..i], drawn), Hits(tickets[i].numbers, drawn))
  {
    var done, next := tickets[..i], tickets[..i + 1];
    assert AllButLast(next) == done;
    var hits := Hits(tickets[i].numbers, drawn);
    var before, after := Buckets(done, drawn), Buckets(next, drawn);
    forall k | k in BucketKeys ensures after[k] == Tally(before, hits)[k] {
      assert after[k] == BucketCount(done, drawn, k) + if hits == k then 1 else 0;
    }
  }

  /** The scoring loop of a draw: every ticket in turn is scored against the
      drawn numbers, its bucket (if displayed) is incremented and its prize
      added to the round total; the balance changes it causes to player and
      operator are accumulated separately. */
  method ScoreTickets(tickets: seq<Ticket>, drawn: seq<int>)
    returns (buckets: map<int, nat>, totalPrize: int, playerDelta: int, operatorDelta: int)
    ensures buckets == Buckets(tickets, drawn)
    ensures totalPrize == TotalPrize(tickets, drawn)
    ensures playerDelta == totalPrize
    ensures operatorDelta == OperatorDelta(tickets, drawn)
  {
    buckets := map[5 := 0, 4 := 0, 3 := 0, 2 := 0, 0 := 0];
    assert buckets == Buckets([], drawn);
    totalPrize, playerDelta, operatorDelta := 0, 0, 0;
    for i := 0 to |tickets|
      invariant buckets == Buckets(tickets[..i], drawn)
      invariant totalPrize == playerDelta == TotalPrize(tickets[..i], drawn)
      invariant operatorDelta == OperatorDelta(tickets[..i], drawn)
    {
      TotalsExtend(tickets, i, drawn);
      BucketsExtend(tickets, i, drawn);
      var hits := Hits(tickets[i].numbers, drawn);
      var prize := CalculatePrize(hits);
      buckets := Tally(buckets, hits);
      totalPrize := totalPrize + prize.prize;
      playerDelta := playerDelta + prize.prize;
      operatorDelta := operatorDelta + prize.operatorProfit - prize.prize;
    }
    assert tickets[..|tickets|] == tickets;
  }
}
