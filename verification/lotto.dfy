/** The lottery game component: the state it holds and the handlers that
    change it. `BuyTickets`, `StartDraw` and `ResetGame` are proved to
    perform the transitions `Settlement.Buy`, `Draw` and `Reset`. */
module Lotto {
  import opened Numbers
  import opened Records
  import opened Round
  import opened Settlement

  class LotteryGame {
    var player: PlayerState
    var operator: OperatorState
    var drawnNumbers: seq<int>
    var roundResults: Option<RoundResults>
    var numTicketsToBuy: nat
    var canBuyTickets: bool

    /** The fields as one game-state value. */
    function State(): (s: GameState)
      reads this
    {
      GameState(player, operator, drawnNumbers, roundResults, numTicketsToBuy, canBuyTickets)
    }

    ghost predicate Valid()
      reads this
    {
      Records.Valid(State())
    }

    /** The component as first mounted, every field at its initial value. */
    constructor ()
      ensures Valid() && State() == InitialGame
    {
      player := InitialPlayer;
      operator := InitialOperator;
      drawnNumbers := [];
      roundResults := None;
      numTicketsToBuy := 1;
      canBuyTickets := true;
    }

    /** Replaces the player's name and nothing else. */
    method UpdatePlayerName(newName: string)
      requires Valid()
      modifies this
      ensures Valid()
      ensures State() == old(State()).(player := old(player).(name := newName))
    {
      player := player.(name := newName);
    }

    /** Sets the number of tickets the next purchase buys and the next draw
        scores. */
    method SetNumTicketsToBuy(n: nat)
      requires Valid()
      modifies this
      ensures Valid()
      ensures State() == old(State()).(numTicketsToBuy := n)
    {
      numTicketsToBuy := n;
    }

    /** Buys `numTicketsToBuy` tickets, minting ticket `i` from candidate
        stream `streams[i]`. */
    method BuyTickets(streams: seq<seq<int>>) returns (r: Result<seq<Ticket>, PurchaseError>)
      requires Valid()
      requires |streams| == numTicketsToBuy && AllSupply(streams, TicketSize)
      modifies this
      ensures Valid()
      ensures (State(), r) == Buy(old(State()), streams)
    {
      BuyPreservesValid(State(), streams);
      if player.name != "" {
        if player.balance >= TicketPrice * numTicketsToBuy && canBuyTickets {
          var newTickets := MintTickets(|player.tickets|, streams);
          assert newTickets == Mint(|player.tickets|, streams);
          player := player.(balance := player.balance - TicketPrice * numTicketsToBuy,
                            tickets := player.tickets + newTickets);
          operator := operator.(balance := operator.balance + TicketPrice * numTicketsToBuy,
                                submittedTickets := operator.submittedTickets + newTickets);
          canBuyTickets := false;
          r := Success(newTickets);
        } else {
          r := Failure(CannotPurchase);
        }
      } else {
        r := Failure(NameMissing);
      }
    }

    /** Draws the winning numbers from candidate stream `rolls` and settles
        the first `numTicketsToBuy` tickets. The round results are computed
        from the fields as they were on entry; the balance updates queued per
        ticket take effect once the handler is done. */
    method StartDraw(rolls: seq<int>) returns (r: Result<RoundResults, DrawError>)
      requires Valid()
      requires Supplies(rolls, TicketSize)
      modifies this
      ensures Valid()
      ensures (State(), r) == Draw(old(State()), rolls)
    {
      ghost var entry := State();
      DrawPreservesValid(entry, rolls);
      if !canBuyTickets {
        if |player.tickets| < numTicketsToBuy {
          r := Failure(InsufficientTickets);
          return;
        }
        var newDrawnNumbers := GenerateRandomNumbers(TicketSize, rolls);
        drawnNumbers := newDrawnNumbers;
        var scored := player.tickets[..numTicketsToBuy];
        var buckets, totalPrize, playerDelta, operatorDelta := ScoreTickets(scored, newDrawnNumbers);
        var results := RoundResults(buckets, totalPrize, operator.balance - totalPrize);
        assert Draw(entry, rolls).1 == Success(results);
        roundResults := Some(results);
        canBuyTickets := true;
        player := player.(balance := player.balance + playerDelta,
                          totalWinnings := player.totalWinnings + playerDelta);
        operator := operator.(balance := operator.balance + operatorDelta);
        r := Success(results);
        assert State() == Draw(entry, rolls).0;
      } else {
        r := Failure(RoundOpen);
      }
    }

    /** Puts every field back to its initial value. */
    method ResetGame()
      modifies this
      ensures Valid()
      ensures State() == Reset(old(State()))
    {
      player := InitialPlayer;
      operator := InitialOperator;
      drawnNumbers := [];
      numTicketsToBuy := 1;
      roundResults := None;
      canBuyTickets := true;
    }
  }
}
