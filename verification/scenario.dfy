/**
 * A session of the bot, step by step: two players meet in the waiting room,
 * start a game, choose symbols and exchange the first moves.
 */
module Scenario {
  import opened Wrappers
  import opened Order
  import opened Board
  import opened Engine

  /** Two players meet in the waiting room, and each sees the other in the list. */
  method MeetInWaitingRoom() {
    var bot := new Bot();
    var joined := bot.JoinWaiting(1, "Ann");
    joined := bot.JoinWaiting(2, "Bob");
    assert bot.arrival == [1, 2];

    // Ann's list offers Bob and not herself.
    assert 2 in bot.waitingRoom;
    var listing := bot.FindPlayer(1);
    assert listing.Choices?;
    assert 2 in Ids(listing.players) && 1 !in Ids(listing.players);
  }

  /** A player picks a waiting player: both leave the room and the picker moves first. */
  method PickWaitingPlayer() {
    var bot := new Bot();
    var joined := bot.JoinWaiting(2, "Bob");
    var started := bot.SelectPlayer(1, "Ann", 2);
    assert started;
    assert bot.waitingRoom == map[] && bot.games[1].turn == 1 && bot.games[2].turn == 1;
  }

  /** The symbol choice and the first moves of a new game. */
  method FirstMoves() {
    var bot := new Bot();
    bot.StartGame(1, "Ann", 2, "Bob");

    var chosen := bot.ChooseSymbol(1, Cross);
    assert chosen.SymbolsAssigned?;
    assert bot.games[1].symbol == Some(Cross) && bot.games[2].symbol == Some(Nought);

    // Bob may not move out of turn.
    var move := bot.HandleMove(2, 0);
    assert move.NotYourTurn?;

    // Ann takes the centre; the first mark cannot win, so the turn is Bob's.
    ghost var board := bot.games[1].board;
    assert board[..] == EmptyBoard();
    FirstMarkNeverWins(4, Marked(Cross));
    move := bot.HandleMove(1, 4);
    assert move.Moved? && move.outcome.Passed?;
    assert bot.games[1].turn == 2 && bot.games[2].turn == 2;

    // The centre is now taken for Bob.
    move := bot.HandleMove(2, 4);
    assert move.CellTaken?;
  }

  /** A move before the symbol choice writes `None` into the board, and the game goes on. */
  method MoveBeforeSymbolChoice() {
    var bot := new Bot();
    bot.StartGame(1, "Ann", 2, "Bob");
    ghost var board := bot.games[1].board;
    assert board[..] == EmptyBoard();
    FirstMarkNeverWins(4, Unset);
    var move := bot.HandleMove(1, 4);
    assert move.Moved? && move.outcome.Passed?;
    assert board[4] == Unset && bot.games[2].board[4] == Unset;
  }
}
