/** The records the lottery game keeps: tickets, the player, the operator,
    the results of a round and the whole game state, with their initial
    values. */
module Records {
  import opened Numbers

  /** Numbers on a ticket and numbers drawn per round. */
  const TicketSize: nat := 5
  /** Price of one ticket, in coins. */
  const TicketPrice := 500
  /** Balance of a player when the record is created, in coins. */
  const StartingBalance := 10000

  datatype Ticket = Ticket(numbers: seq<int>, isPlayerTicket: bool, id: int)

  datatype PlayerState = PlayerState(
    name: string,
    balance: int,
    tickets: seq<Ticket>,
    totalWinnings: int,
    id: int)

  datatype OperatorState = OperatorState(balance: int, submittedTickets: seq<Ticket>)

  /** Outcome of one draw: how many tickets fell in each hit bucket (keys 0,
      2, 3, 4 and 5; a ticket with one hit is tallied in none), the prizes
      paid and the operator profit figure. */
  datatype RoundResults = RoundResults(buckets: map<int, nat>, totalPrize: int, operatorProfit: int)

  const BucketKeys: set<int> := {0, 2, 3, 4, 5}

  datatype Option<T> = None | Some(value: T)

  datatype Result<T, E> = Success(value: T) | Failure(error: E)

  /** Why a purchase was refused: no name entered, or (one message for both)
      the round is locked or the balance does not cover the tickets. */
  datatype PurchaseError = NameMissing | CannotPurchase

  /** Why a draw was refused: no purchase opened the round, or fewer tickets
      are held than the ticket count asks for. */
  datatype DrawError = RoundOpen | InsufficientTickets

  /** Everything the game component holds: `canBuyTickets` is the round
      guard, true while purchases are open, false while a draw is awaited. */
  datatype GameState = GameState(
    player: PlayerState,
    operator: OperatorState,
    drawnNumbers: seq<int>,
    roundResults: Option<RoundResults>,
    numTicketsToBuy: nat,
    canBuyTickets: bool)

  const InitialPlayer := PlayerState("", StartingBalance, [], 0, 0)
  const InitialOperator := OperatorState(0, [])
  const InitialGame := GameState(InitialPlayer, InitialOperator, [], None, 1, true)

  /** A ticket as the purchase step mints it. */
  predicate WellFormedTicket(t: Ticket) {
    IsDraw(t.numbers, TicketSize) && t.isPlayerTicket
  }

  predicate AllWellFormed(tickets: seq<Ticket>) {
    forall t :: t in tickets ==> WellFormedTicket(t)
  }

  /** Ticket ids are the positions in the list, counted from 1. */
  predicate SequentialIds(tickets: seq<Ticket>) {
    forall i :: 0 <= i < |tickets| ==> tickets[i].id == i + 1
  }

  /** What holds of every state the game operations reach from the initial
      state. */
  predicate Valid(s: GameState) {
    && AllWellFormed(s.player.tickets)
    && SequentialIds(s.player.tickets)
    && AllWellFormed(s.operator.submittedTickets)
    && (s.drawnNumbers == [] || IsDraw(s.drawnNumbers, TicketSize))
  }

  lemma InitialGameValid()
    ensures Valid(InitialGame)
    ensures InitialGame.canBuyTickets && InitialGame.player.tickets == []
  {
  }
}
