/** The game operations as transitions of the whole game state: purchase,
    draw and reset. They specify the methods of `Lotto.LotteryGame`, and the
    lemmas here state what a purchase, a draw and a whole round settle. */
module Settlement {
  import opened Numbers
  import opened Records
  import opened Round

  /** Purchase of `numTicketsToBuy` tickets, one candidate stream per ticket. */
  function Buy(s: GameState, streams: seq<seq<int>>): (r: (GameState, Result<seq<Ticket>, PurchaseError>))
    requires |streams| == s.numTicketsToBuy && AllSupply(streams, TicketSize)
    ensures r.1 == Failure(NameMissing) <==> s.player.name == ""
    ensures r.1.Success? <==>
      s.player.name != "" && s.canBuyTickets && s.player.balance >= TicketPrice * s.numTicketsToBuy
    ensures r.1.Failure? ==> r.0 == s
  {
    var n := s.numTicketsToBuy;
    if s.player.name == "" then (s, Failure(NameMissing))
    else if s.player.balance >= TicketPrice * n && s.canBuyTickets then
      var batch := Mint(|s.player.tickets|, streams);
      var player := s.player.(balance := s.player.balance - TicketPrice * n,
                              tickets := s.player.tickets + batch);
      var operator := s.operator.(balance := s.operator.balance + TicketPrice * n,
                                  submittedTickets := s.operator.submittedTickets + batch);
      (s.(player := player, operator := operator, canBuyTickets := false), Success(batch))
    else (s, Failure(CannotPurchase))
  }

  /** What a successful purchase settles: the player pays 500 coins per
      ticket to the operator, the same batch of well-formed player tickets,
      numbered on from the tickets already held, is appended to both ticket
      lists, and the round is locked. */
  lemma PurchaseSettles(s: GameState, streams: seq<seq<int>>)
    requires |streams| == s.numTicketsToBuy && AllSupply(streams, TicketSize)
    requires Buy(s, streams).1.Success?
    ensures var (t, batch) := (Buy(s, streams).0, Buy(s, streams).1.value);
      && |batch| == s.numTicketsToBuy
      && t.player.balance == s.player.balance - TicketPrice * s.numTicketsToBuy
      && t.operator.balance == s.operator.balance + TicketPrice * s.numTicketsToBuy
      && t.player.balance + t.operator.balance == s.player.balance + s.operator.balance
      && t.player.tickets == s.player.tickets + batch
      && t.operator.submittedTickets == s.operator.submittedTickets + batch
      && (forall i :: 0 <= i < |batch| ==>
            && IsDraw(batch[i].numbers, TicketSize)
            && batch[i].isPlayerTicket
            && batch[i].id == |s.player.tickets| + i + 1)
      && !t.canBuyTickets
      && t.player == s.player.(balance := t.player.balance, tickets := t.player.tickets)
      && t.operator == s.operator.(balance := t.operator.balance, submittedTickets := t.operator.submittedTickets)
      && t == s.(player := t.player, operator := t.operator, canBuyTickets := false)
  {
    MintedBatch(s.player.tickets, streams);
    var batch := Buy(s, streams).1.value;
    forall i | 0 <= i < |batch| ensures IsDraw(batch[i].numbers, TicketSize) {
      assert batch[i] in batch;
    }
  }

  lemma BuyPreservesValid(s: GameState, streams: seq<seq<int>>)
    requires |streams| == s.numTicketsToBuy && AllSupply(streams, TicketSize)
    requires Valid(s)
    ensures Valid(Buy(s, streams).0)
  {
    MintedBatch(s.player.tickets, streams);
  }

  /** The guard: once a purchase has locked the round, a second purchase is
      refused and changes nothing. */
  lemma NoSecondPurchase(s: GameState, streams: seq<seq<int>>, more: seq<seq<int>>)
    requires |streams| == s.numTicketsToBuy && AllSupply(streams, TicketSize)
    requires |more| == s.numTicketsToBuy && AllSupply(more, TicketSize)
    requires Buy(s, streams).1.Success?
    ensures Buy(Buy(s, streams).0, more) == (Buy(s, streams).0, Failure(CannotPurchase))
  {
  }

  /** The draw: generate the winning numbers, score the first
      `numTicketsToBuy` tickets held, settle balances and reopen the round. */
  function Draw(s: GameState, rolls: seq<int>): (r: (GameState, Result<RoundResults, DrawError>))
    requires Supplies(rolls, TicketSize)
    ensures r.1 == Failure(RoundOpen) <==> s.canBuyTickets
    ensures r.1.Success? <==> !s.canBuyTickets && s.numTicketsToBuy <= |s.player.tickets|
    ensures r.1.Failure? ==> r.0 == s
  {
    if s.canBuyTickets then (s, Failure(RoundOpen))
    else if |s.player.tickets| < s.numTicketsToBuy then (s, Failure(InsufficientTickets))
    else
      var drawn := Distinct(rolls)[..TicketSize];
      var scored := s.player.tickets[..s.numTicketsToBuy];
      var totalPrize := TotalPrize(scored, drawn);
      var results := RoundResults(Buckets(scored, drawn), totalPrize, s.operator.balance - totalPrize);
      var player := s.player.(balance := s.player.balance + totalPrize,
                              totalWinnings := s.player.totalWinnings + totalPrize);
      var operator := s.operator.(balance := s.operator.balance + OperatorDelta(scored, drawn));
      (s.(player := player, operator := operator, drawnNumbers := drawn,
          roundResults := Some(results), canBuyTickets := true),
       Success(results))
  }

  /** What a successful draw settles: the winning numbers are a draw; the
      player's balance and total winnings both rise by the prizes of the
      scored tickets; the operator pays nine tenths of them, so the coins of
      both together grow by the operator's tenth; the profit figure is the
      operator balance read before the draw minus the prizes; the ticket
      lists are untouched and the round reopens. */
  lemma DrawSettles(s: GameState, rolls: seq<int>)
    requires Supplies(rolls, TicketSize)
    requires Draw(s, rolls).1.Success?
    ensures var (t, res) := (Draw(s, rolls).0, Draw(s, rolls).1.value);
      var scored := s.player.tickets[..s.numTicketsToBuy];
      && IsDraw(t.drawnNumbers, TicketSize)
      && t.drawnNumbers == Distinct(rolls)[..TicketSize]
      && res.totalPrize == TotalPrize(scored, t.drawnNumbers) >= 0
      && t.player.balance - s.player.balance == res.totalPrize
      && t.player.totalWinnings - s.player.totalWinnings == res.totalPrize
      && (t.operator.balance - s.operator.balance) * 10 == -9 * res.totalPrize
      && (t.player.balance + t.operator.balance - s.player.balance - s.operator.balance) * 10
           == res.totalPrize
      && res.operatorProfit == s.operator.balance - res.totalPrize
      && res.buckets.Keys == BucketKeys
      && (forall k :: k in res.buckets ==> res.buckets[k] == BucketCount(scored, t.drawnNumbers, k))
      && t.player == s.player.(balance := t.player.balance, totalWinnings := t.player.totalWinnings)
      && t.operator == s.operator.(balance := t.operator.balance)
      && t == s.(player := t.player, operator := t.operator, drawnNumbers := t.drawnNumbers,
                 roundResults := Some(res), canBuyTickets := true)
  {
    FirstDistinctIsDraw(rolls, TicketSize);
    OperatorPaysNineTenths(s.player.tickets[..s.numTicketsToBuy], Distinct(rolls)[..TicketSize]);
  }

  /** In a valid state, the displayed buckets of a draw plus the one-hit
      tickets add up to the number of tickets scored. */
  lemma DrawBucketsCoverRound(s: GameState, rolls: seq<int>)
    requires Supplies(rolls, TicketSize)
    requires Valid(s) && Draw(s, rolls).1.Success?
    ensures var (t, res) := (Draw(s, rolls).0, Draw(s, rolls).1.value);
      res.buckets[0] + res.buckets[2] + res.buckets[3] + res.buckets[4] + res.buckets[5]
        + BucketCount(s.player.tickets[..s.numTicketsToBuy], t.drawnNumbers, 1)
        == s.numTicketsToBuy
  {
    var scored := s.player.tickets[..s.numTicketsToBuy];
    forall t | t in scored ensures |t.numbers| == TicketSize {
      assert t in s.player.tickets;
    }
    BucketsCoverTickets(scored, Distinct(rolls)[..TicketSize]);
  }

  lemma DrawPreservesValid(s: GameState, rolls: seq<int>)
    requires Supplies(rolls, TicketSize)
    requires Valid(s)
    ensures Valid(Draw(s, rolls).0)
  {
    FirstDistinctIsDraw(rolls, TicketSize);
  }

  /** A whole round: a successful purchase always permits the draw; after it
      the round is open again and the coins of player and operator together
      have grown by a tenth of the prizes. When the player held no tickets
      before, exactly the purchased batch is scored: the prize total and the
      buckets are those of that batch. */
  lemma RoundCycle(s: GameState, streams: seq<seq<int>>, rolls: seq<int>)
    requires |streams| == s.numTicketsToBuy && AllSupply(streams, TicketSize)
    requires Supplies(rolls, TicketSize)
    requires Buy(s, streams).1.Success?
    ensures var bought := Buy(s, streams).0;
      var (t, res) := (Draw(bought, rolls).0, Draw(bought, rolls).1);
      && res.Success?
      && t.canBuyTickets
      && (t.player.balance + t.operator.balance - s.player.balance - s.operator.balance) * 10
           == res.value.totalPrize
      && (s.player.tickets == [] ==>
            && bought.player.tickets[..bought.numTicketsToBuy] == Buy(s, streams).1.value
            && res.value.totalPrize == TotalPrize(Buy(s, streams).1.value, t.drawnNumbers)
            && res.value.buckets == Buckets(Buy(s, streams).1.value, t.drawnNumbers))
  {
    PurchaseSettles(s, streams);
    var bought := Buy(s, streams).0;
    DrawSettles(bought, rolls);
    if s.player.tickets == [] {
      assert bought.player.tickets[..bought.numTicketsToBuy] == Buy(s, streams).1.value;
    }
  }

  /** Reset puts every record back to its initial value, whatever the state. */
  function Reset(s: GameState): (r: GameState)
    ensures Valid(r) && r.canBuyTickets
  {
    InitialGame
  }

  lemma ResetIdempotent(s: GameState)
    ensures Reset(Reset(s)) == Reset(s) == InitialGame
  {
  }
}
