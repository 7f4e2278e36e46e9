/**
 * The bot's in-memory game engine: the waiting room, the table of games in
 * progress (one entry per player, the two entries of a game sharing one board),
 * and the handlers that change them: the waiting-room buttons, `start_game`,
 * the symbol choice, `handle_move`, and the state-changing part of
 * `turn_timeout` with its `timers` bookkeeping.
 *
 * A Python `KeyError` or `IndexError` inside a handler ends that handler; the
 * model returns at the same point, keeping whatever the handler had already
 * changed.
 */
module Engine {
  import opened Wrappers
  import opened Order
  import opened Board

  /** A Telegram user id. */
  type PlayerId = int

  /**
   * One entry of `games_in_progress`: a player's view of their game. The two
   * entries of a game hold the same `board` array.
   */
  datatype Game = Game(
    username: string,
    opponent: PlayerId,
    board: array<Cell>,
    turn: PlayerId,
    symbol: Option<Mark>)

  /** One button of the find-player list: a waiting player and their name. */
  datatype Waiting = Waiting(id: PlayerId, name: string)

  /** The players' ids, in list order. */
  function Ids(ws: seq<Waiting>): seq<PlayerId> {
    seq(|ws|, j requires 0 <= j < |ws| => ws[j].id)
  }

  /** A set holds an element other than `u` exactly when it is non-empty and is
      not just `{u}`: the test `if waiting_room` / `not (u in room and len(room) == 1)`. */
  lemma OthersExist(k: set<PlayerId>, u: PlayerId)
    ensures (exists q :: q in k && q != u) <==> (|k| > 0 && !(u in k && |k| == 1))
  {
    if forall q :: q in k ==> q == u {
      if u in k {
        assert k == {u};
      } else {
        assert k == {};
      }
    } else {
      var q :| q in k && q != u;
      if u in k {
        assert |k - {u}| == |k| - 1;
        assert q in k - {u};
        assert |k - {u} - {q}| == |k - {u}| - 1;
      }
    }
  }

  /** What the 'find_player' button shows. */
  datatype Listing =
    | RoomEmpty(inRoom: bool)         // "the waiting room is empty", with the leave keyboard when `inRoom`
    | Choices(players: seq<Waiting>)  // one button per other waiting player
    | NothingShown                    // the `if keyboard:` test fails and nothing is sent

  /** How the symbol choice ends. */
  datatype SymbolResult =
    | ChooserNotInGame   // KeyError reading the chooser's entry
    | OpponentNotInGame  // KeyError writing the opponent's entry
    | SymbolsAssigned

  /** How a handler ends once a mark is on the board. */
  datatype Outcome =
    | Won(winner: Mark, cleared: bool)  // `cleared`: the teardown ran to its end
    | Drawn(cleared: bool)
    | Passed
    | Unannounced(won: bool)  // the announcement raises TypeError on a `None` cell: nothing is torn down

  /** How a press on a board button ends. */
  datatype MoveResult =
    | NotInGame        // KeyError: no entry for the player (a button of a finished game)
    | NotYourTurn
    | CellTaken
    | OpponentMissing  // KeyError reading the opponent's entry
    | Moved(outcome: Outcome)
  {
    /** The press changed nothing. */
    predicate Rejected() {
      NotInGame? || NotYourTurn? || CellTaken? || OpponentMissing?
    }
  }

  /** How a turn timer's callback ends. */
  datatype TimeoutResult =
    | NoGame                  // the player has no game any more
    | NoBlankCell             // `random.choice([])` raises IndexError
    | PassFailed(cell: nat)   // KeyError writing the opponent's turn, after the forced mark
    | AnnounceFailed(cell: nat) // KeyError reading the opponent's name to announce a winner
    | Forced(cell: nat, outcome: Outcome)

  /** The mark the opponent of a player holding `s` holds. */
  function OpponentSymbol(s: Option<Mark>): Option<Mark> {
    match s
    case None => None
    case Some(m) => Some(Other(m))
  }

  class Bot {
    /** `waiting_room`: user id to first name. */
    var waitingRoom: map<PlayerId, string>
    /** The keys of `waiting_room` in insertion order (a Python dict's iteration order). */
    var arrival: seq<PlayerId>
    /** `games_in_progress`. */
    var games: map<PlayerId, Game>
    /** The keys of `user_board_message_ids`. */
    var boardMessages: set<PlayerId>
    /** The keys of `user_states`. */
    var userStates: set<PlayerId>
    /** The keys of `timers`. */
    var timers: set<PlayerId>

    /** The order lists each waiting player exactly once. */
    ghost predicate RoomValid()
      reads this
    {
      Distinct(arrival) && forall p :: p in arrival <==> p in waitingRoom
    }

    /** Every board has nine cells, and nobody plays themselves. */
    ghost predicate GamesValid()
      reads this
    {
      forall p :: p in games ==> games[p].board.Length == Size && games[p].opponent != p
    }

    ghost predicate Valid()
      reads this
    {
      RoomValid() && GamesValid()
    }

    /** The board `p`'s entry refers to, if any: all a move by `p` may write. */
    function BoardOf(p: PlayerId): set<array<Cell>>
      reads this
    {
      if p in games then {games[p].board} else {}
    }

    /**
     * `p`'s game is well formed: the opponent's entry names `p` back, both see the
     * same board and the same turn, the turn is one of the two players, and the
     * symbols are both unset or are the two different marks.
     */
    ghost predicate Paired(p: PlayerId)
      reads this
    {
      && p in games
      && var o := games[p].opponent;
         && o in games
         && games[o].opponent == p
         && games[o].board == games[p].board
         && games[o].turn == games[p].turn
         && (games[p].turn == p || games[p].turn == o)
         && games[o].symbol == OpponentSymbol(games[p].symbol)
    }

    /**
     * The teardown `del user_board_message_ids[a]`, `[b]`, `del games_in_progress[a]`,
     * `[b]`, each stopping the handler with a KeyError when its key is missing.
     */
    twostate predicate Finished(a: PlayerId, b: PlayerId, cleared: bool)
      reads this
    {
      && cleared == (a in old(boardMessages) && b in old(boardMessages) && a in old(games) && b in old(games))
      && boardMessages == (if a in old(boardMessages) then old(boardMessages) - {a, b} else old(boardMessages))
      && games == (if a in old(boardMessages) && b in old(boardMessages) && a in old(games)
                   then old(games) - {a, b} else old(games))
    }

    /** Both entries now give the turn to `b`, and both players' boards are shown. */
    twostate predicate TurnPassed(a: PlayerId, b: PlayerId)
      reads this
      requires old(a in games && b in games)
    {
      && games == old(games)[a := old(games[a]).(turn := b)][b := old(games[b]).(turn := b)]
      && boardMessages == old(boardMessages) + {a, b}
    }

    /** `start_game(u, uname, o, oname)` has run. */
    twostate predicate GameStarted(u: PlayerId, uname: string, o: PlayerId, oname: string)
      reads this, BoardOf(u)
    {
      && waitingRoom == old(waitingRoom) - {u, o}
      && arrival == Erase(Erase(old(arrival), o), u)
      && u in games
      && var b := games[u].board;
         && fresh(b)
         && b.Length == Size
         && b[..] == EmptyBoard()
         && games == old(games)[u := Game(uname, o, b, u, None)][o := Game(oname, u, b, u, None)]
    }

    /** The bot at start-up: every table empty. */
    constructor ()
      ensures Valid()
      ensures waitingRoom == map[] && arrival == [] && games == map[]
      ensures boardMessages == {} && userStates == {} && timers == {}
    {
      waitingRoom, arrival, games := map[], [], map[];
      boardMessages, userStates, timers := {}, {}, {};
    }

    /** The 'join_waiting' button: a player not yet waiting is added under their name. */
    method JoinWaiting(u: PlayerId, name: string) returns (joined: bool)
      requires Valid()
      modifies this`waitingRoom, this`arrival
      ensures Valid()
      ensures joined <==> u !in old(waitingRoom)
      ensures waitingRoom == if joined then old(waitingRoom)[u := name] else old(waitingRoom)
      ensures arrival == if joined then old(arrival) + [u] else old(arrival)
    {
      joined := u !in waitingRoom;
      if joined {
        waitingRoom := waitingRoom[u := name];
        arrival := arrival + [u];
      }
    }

    /** The 'leave_waiting' button: a waiting player is removed; anyone else changes nothing. */
    method LeaveWaiting(u: PlayerId) returns (left: bool)
      requires Valid()
      modifies this`waitingRoom, this`arrival
      ensures Valid()
      ensures left <==> u in old(waitingRoom)
      ensures waitingRoom == old(waitingRoom) - {u}
      ensures arrival == Erase(old(arrival), u)
      ensures !left ==> waitingRoom == old(waitingRoom) && arrival == old(arrival)
    {
      left := u in waitingRoom;
      if left {
        waitingRoom := waitingRoom - {u};
        arrival := Erase(arrival, u);
      } else {
        EraseAbsent(arrival, u);
      }
    }

    /**
     * The 'find_player' button: the waiting players other than `u`, in the order
     * they joined, each with their name; or the empty-room notice when there is
     * nobody else. The list is never empty, so something is always shown.
     */
    method FindPlayer(u: PlayerId) returns (r: Listing)
      requires Valid()
      ensures r.RoomEmpty? <==> forall p :: p in waitingRoom ==> p == u
      ensures r.RoomEmpty? ==> r.inRoom == (u in waitingRoom)
      ensures !r.NothingShown?
      ensures r.Choices? ==> Ids(r.players) == Erase(arrival, u)
      ensures r.Choices? ==> forall p :: p in waitingRoom && p != u <==> p in Ids(r.players)
      ensures r.Choices? ==>
        forall j :: 0 <= j < |r.players| ==>
          r.players[j].id in waitingRoom && r.players[j].name == waitingRoom[r.players[j].id]
    {
      OthersExist(waitingRoom.Keys, u);
      if |waitingRoom| == 0 || (u in waitingRoom && |waitingRoom| == 1) {
        return RoomEmpty(u in waitingRoom);
      }
      ghost var q :| q in waitingRoom.Keys && q != u;
      var players: seq<Waiting> := [];
      for k := 0 to |arrival|
        invariant Ids(players) == Erase(arrival[..k], u)
        invariant forall j :: 0 <= j < |players| ==>
          players[j].id in waitingRoom && players[j].name == waitingRoom[players[j].id]
      {
        var p := arrival[k];
        assert arrival[..k + 1][..k] == arrival[..k];
        if p != u {
          players := players + [Waiting(p, waitingRoom[p])];
        }
      }
      assert arrival[..|arrival|] == arrival;
      assert q in Ids(players);
      if |players| > 0 {
        r := Choices(players);
      } else {
        r := NothingShown;
      }
    }

    /**
     * `start_game`: both players leave the waiting room; each gets a fresh entry
     * naming the other, both entries share one new all-blank board, the initiator
     * `u` has the turn, and no symbol is chosen yet.
     */
    method StartGame(u: PlayerId, uname: string, o: PlayerId, oname: string)
      requires Valid() && u != o
      modifies this`waitingRoom, this`arrival, this`games
      ensures Valid()
      ensures GameStarted(u, uname, o, oname)
      ensures Paired(u) && Paired(o)
      ensures u !in waitingRoom && o !in waitingRoom
    {
      var _ := LeaveWaiting(o);
      var _ := LeaveWaiting(u);
      CreateEntries(u, uname, o, oname);
    }

    /** The two `games_in_progress` entries `start_game` writes, sharing one new all-blank board. */
    method CreateEntries(u: PlayerId, uname: string, o: PlayerId, oname: string)
      requires GamesValid() && u != o
      modifies this`games
      ensures GamesValid()
      ensures u in games && fresh(games[u].board) && games[u].board.Length == Size
      ensures games[u].board[..] == EmptyBoard()
      ensures games == old(games)[u := Game(uname, o, games[u].board, u, None)][o := Game(oname, u, games[u].board, u, None)]
    {
      var board := new Cell[Size](_ => Blank);
      games := games[u := Game(uname, o, board, u, None)];
      games := games[o := Game(oname, u, games[u].board, u, None)];
    }

    /**
     * The 'select_player_<o>' button: the game starts only when `o` is still
     * waiting under a non-empty name (`if opponent_name:`); otherwise nothing
     * changes.
     */
    method SelectPlayer(u: PlayerId, uname: string, o: PlayerId) returns (started: bool)
      requires Valid() && u != o
      modifies this`waitingRoom, this`arrival, this`games
      ensures Valid()
      ensures started <==> o in old(waitingRoom) && old(waitingRoom[o]) != ""
      ensures !started ==> unchanged(this)
      ensures started ==> GameStarted(u, uname, o, old(waitingRoom[o])) && Paired(u) && Paired(o)
    {
      started := o in waitingRoom && waitingRoom[o] != "";
      if started {
        StartGame(u, uname, o, waitingRoom[o]);
      }
    }

    /**
     * The 'symbol_choice_<c>_<mark>' button: the chooser `c` gets `choice` and
     * the opponent the other mark, and both boards are shown. A missing opponent
     * entry stops the handler after the chooser's mark is written.
     */
    method ChooseSymbol(c: PlayerId, choice: Mark) returns (r: SymbolResult)
      requires Valid()
      modifies this`games, this`boardMessages
      ensures Valid()
      ensures r.ChooserNotInGame? <==> c !in old(games)
      ensures r.ChooserNotInGame? ==> unchanged(this)
      ensures c in old(games) ==> (r.OpponentNotInGame? <==> old(games[c].opponent) !in old(games))
      ensures r.OpponentNotInGame? ==>
        games == old(games)[c := old(games[c]).(symbol := Some(choice))]
        && boardMessages == old(boardMessages)
      ensures r.SymbolsAssigned? ==>
        var o := old(games[c].opponent);
        && games == old(games)[c := old(games[c]).(symbol := Some(choice))][o := old(games[o]).(symbol := Some(Other(choice)))]
        && boardMessages == old(boardMessages) + {c, o}
      ensures r.SymbolsAssigned? && old(Paired(c)) ==> Paired(c)
    {
      if c !in games {
        return ChooserNotInGame;
      }
      var o := games[c].opponent;
      if choice == Cross {
        games := games[c := games[c].(symbol := Some(Cross))];
        if o !in games {
          return OpponentNotInGame;
        }
        games := games[o := games[o].(symbol := Some(Nought))];
      } else {
        games := games[c := games[c].(symbol := Some(Nought))];
        if o !in games {
          return OpponentNotInGame;
        }
        games := games[o := games[o].(symbol := Some(Cross))];
      }
      boardMessages := boardMessages + {c, o};
      r := SymbolsAssigned;
    }

    /**
     * The teardown shared by a win and a draw: the board-message entries and the
     * game entries of `a` and `b` are deleted in that order, stopping at the
     * first missing key. `cleared` tells whether all four deletions happened.
     */
    method DropFinishedGame(a: PlayerId, b: PlayerId) returns (cleared: bool)
      requires Valid() && a != b
      modifies this`boardMessages, this`games
      ensures Valid()
      ensures Finished(a, b, cleared)
    {
      cleared := false;
      if a !in boardMessages { return; }
      boardMessages := boardMessages - {a};
      if b !in boardMessages { return; }
      boardMessages := boardMessages - {b};
      if a !in games { return; }
      games := games - {a};
      if b !in games { return; }
      games := games - {b};
      cleared := true;
    }

    /**
     * `handle_move`: player `u` presses cell `i`. Out of turn, onto a taken cell,
     * or without an entry for either player, nothing changes. Otherwise `u`'s
     * symbol is written into exactly cell `i` of the shared board; a win or a full
     * board ends the game (entries deleted), else the turn passes to the
     * opponent in both entries. A win or a draw on a board holding `None` is
     * never announced: joining that row of the board raises TypeError, and the
     * game stays.
     */
    method HandleMove(u: PlayerId, i: nat) returns (r: MoveResult)
      requires Valid() && i < Size
      modifies this`games, this`boardMessages, this`userStates, BoardOf(u)
      ensures Valid()
      ensures r.NotInGame? <==> u !in old(games)
      ensures u in old(games) ==> (r.NotYourTurn? <==> old(games[u].turn) != u)
      ensures u in old(games) && old(games[u].turn) == u ==>
        (r.CellTaken? <==> old(games[u].board[i]) != Blank)
      ensures u in old(games) && old(games[u].turn) == u && old(games[u].board[i]) == Blank ==>
        (r.OpponentMissing? <==> old(games[u].opponent) !in old(games))
      ensures r.Rejected() ==> unchanged(this) && unchanged(old(BoardOf(u)))
      ensures r.Moved? ==>
        var b := old(games)[u].board;
        && b[..] == old(b[..])[i := CellOf(old(games[u].symbol))]
        && (r.outcome.Won? <==> IsWin(CheckWinner(b[..])) && Unset !in b[..])
        && (r.outcome.Won? ==> CheckWinner(b[..]) == Some(Marked(r.outcome.winner)))
        && (r.outcome.Drawn? <==> !IsWin(CheckWinner(b[..])) && Blank !in b[..] && Unset !in b[..])
        && (r.outcome.Unannounced? <==> (IsWin(CheckWinner(b[..])) || Blank !in b[..]) && Unset in b[..])
        && (r.outcome.Unannounced? ==> r.outcome.won == IsWin(CheckWinner(b[..])))
      ensures r.Moved? && r.outcome.Won? && old(CheckWinner(games[u].board[..])).None? ==>
        old(games[u].symbol) == Some(r.outcome.winner)
      ensures r.Moved? && r.outcome.Unannounced? ==>
        games == old(games) && boardMessages == old(boardMessages) && userStates == old(userStates)
      ensures r.Moved? && (r.outcome.Won? || r.outcome.Drawn?) ==>
        var o := old(games[u].opponent);
        && Finished(u, o, r.outcome.cleared)
        && userStates == (if r.outcome.cleared && u in old(userStates) then old(userStates) - {u, o}
                          else old(userStates))
      ensures r.Moved? && r.outcome.Passed? ==>
        var o := old(games[u].opponent);
        TurnPassed(u, o) && userStates == old(userStates)
      ensures r.Moved? && r.outcome.Passed? && old(Paired(u)) ==>
        Paired(u) && games[u].turn == games[u].opponent
    {
      if u !in games {
        return NotInGame;
      }
      var game := games[u];
      var o := game.opponent;
      if u != game.turn {
        return NotYourTurn;
      }
      if game.board[i] != Blank {
        return CellTaken;
      }
      if o !in games {
        return OpponentMissing;
      }
      var winner := Place(game.board, i, CellOf(game.symbol));
      if (IsWin(winner) || Blank !in game.board[..]) && Unset in game.board[..] {
        return Moved(Unannounced(IsWin(winner)));
      }
      if IsWin(winner) {
        var cleared := EndGame(u, o);
        return Moved(Won(winner.value.mark, cleared));
      } else if Blank !in game.board[..] {
        var cleared := EndGame(u, o);
        return Moved(Drawn(cleared));
      }
      PassTurn(u, o);
      r := Moved(Passed);
    }

    /**
     * The end of a game in `handle_move`: the teardown, then, if it ran to its end,
     * `del user_states[a]` and `del user_states[b]`, each stopping at a missing key.
     */
    method EndGame(a: PlayerId, b: PlayerId) returns (cleared: bool)
      requires Valid() && a != b
      modifies this`boardMessages, this`games, this`userStates
      ensures Valid()
      ensures Finished(a, b, cleared)
      ensures userStates == if cleared && a in old(userStates) then old(userStates) - {a, b} else old(userStates)
    {
      cleared := DropFinishedGame(a, b);
      if !cleared || a !in userStates { return; }
      userStates := userStates - {a};
      if b !in userStates { return; }
      userStates := userStates - {b};
    }

    /**
     * The turn passes from `a` to `b` in both entries (`game['turn'] = opponent_id`,
     * then the opponent's entry), and both boards are shown.
     */
    method PassTurn(a: PlayerId, b: PlayerId)
      requires Valid() && a in games && b in games && games[a].opponent == b
      modifies this`games, this`boardMessages
      ensures Valid()
      ensures TurnPassed(a, b)
      ensures old(Paired(a)) ==> Paired(a) && games[a].turn == b
    {
      games := games[a := games[a].(turn := b)];
      games := games[b := games[b].(turn := b)];
      boardMessages := boardMessages + {a, b};
    }

    /** `set_turn_timer`: a timer entry is recorded for `p`. */
    method SetTurnTimer(p: PlayerId)
      modifies this`timers
      ensures timers == old(timers) + {p}
    {
      timers := timers + {p};
    }

    /**
     * `turn_timeout` for player `p`: when `p` still has a game, `p`'s own symbol
     * is written into some blank cell (the random choice). A win or a full board
     * ends the game and removes the timer entry of whoever had the turn, unless
     * the board holds `None` and its announcement raises TypeError;
     * otherwise `p`'s timer entry is removed, the turn passes to the opponent in
     * both entries, and a timer is recorded for the opponent.
     */
    method TurnTimeout(p: PlayerId) returns (r: TimeoutResult)
      requires Valid()
      modifies this`games, this`boardMessages, this`timers, BoardOf(p)
      ensures Valid()
      ensures userStates == old(userStates)
      ensures r.NoGame? <==> p !in old(games)
      ensures p in old(games) ==> (r.NoBlankCell? <==> Blank !in old(games[p].board[..]))
      ensures r.NoGame? || r.NoBlankCell? ==> unchanged(this) && unchanged(old(BoardOf(p)))
      ensures r.Forced? || r.PassFailed? || r.AnnounceFailed? ==>
        var b := old(games)[p].board;
        && r.cell < Size
        && old(b[r.cell]) == Blank
        && b[..] == old(b[..])[r.cell := CellOf(old(games[p].symbol))]
      ensures r.Forced? ==>
        var b := old(games)[p].board;
        && (r.outcome.Won? <==> IsWin(CheckWinner(b[..])) && Unset !in b[..])
        && (r.outcome.Won? ==> CheckWinner(b[..]) == Some(Marked(r.outcome.winner)))
        && (r.outcome.Drawn? <==> !IsWin(CheckWinner(b[..])) && Blank !in b[..] && Unset !in b[..])
        && (r.outcome.Unannounced? <==> (IsWin(CheckWinner(b[..])) || Blank !in b[..]) && Unset in b[..])
        && (r.outcome.Unannounced? ==> r.outcome.won == IsWin(CheckWinner(b[..])))
      ensures r.Forced? && r.outcome.Won? && old(CheckWinner(games[p].board[..])).None? ==>
        old(games[p].symbol) == Some(r.outcome.winner)
      ensures r.Forced? && r.outcome.Unannounced? ==>
        games == old(games) && boardMessages == old(boardMessages) && timers == old(timers)
      ensures r.AnnounceFailed? ==>
        var b := old(games)[p].board;
        && IsWin(CheckWinner(b[..]))
        && Unset !in b[..]
        && CheckWinner(b[..]).value != CellOf(old(games[p].symbol))
        && old(games[p].opponent) !in old(games)
        && games == old(games) && boardMessages == old(boardMessages) && timers == old(timers)
      ensures r.AnnounceFailed? ==> old(CheckWinner(games[p].board[..])).Some?
      ensures r.Forced? && (r.outcome.Won? || r.outcome.Drawn?) ==>
        var o := old(games[p].opponent);
        && Finished(p, o, r.outcome.cleared)
        && timers == (if !r.outcome.cleared then old(timers)
                      else if old(games[p].turn) == p then old(timers) - {p}
                      else old(timers) - {o})
      ensures r.Forced? && r.outcome.Passed? ==>
        var o := old(games[p].opponent);
        && o in old(games)
        && TurnPassed(p, o)
        && timers == old(timers) - {p} + {o}
      ensures r.Forced? && r.outcome.Passed? && old(Paired(p)) ==>
        Paired(p) && games[p].turn == games[p].opponent
      ensures r.PassFailed? ==>
        var o := old(games[p].opponent);
        && o !in old(games)
        && games == old(games)[p := old(games[p]).(turn := o)]
        && boardMessages == old(boardMessages)
        && timers == old(timers) - {p}
    {
      if p !in games {
        return NoGame;
      }
      var game := games[p];
      var o := game.opponent;
      var empty := GetEmptyCells(game.board[..]);
      if |empty| == 0 {
        return NoBlankCell;
      }
      var cell :| cell in empty;
      var winner := Place(game.board, cell, CellOf(game.symbol));
      if (IsWin(winner) || Blank !in game.board[..]) && Unset in game.board[..] {
        return Forced(cell, Unannounced(IsWin(winner)));
      }
      if IsWin(winner) {
        if winner.value != CellOf(game.symbol) && o !in games {
          return AnnounceFailed(cell);
        }
        var cleared := EndTimedOutGame(p, o, game.turn);
        return Forced(cell, Won(winner.value.mark, cleared));
      } else if Blank !in game.board[..] {
        var cleared := EndTimedOutGame(p, o, game.turn);
        return Forced(cell, Drawn(cleared));
      }
      var passed := PassTimedOutTurn(p, o);
      r := if passed then Forced(cell, Passed) else PassFailed(cell);
    }

    /**
     * The end of a game in `turn_timeout`: the teardown, then, if it ran to its
     * end, the timer entry of whoever had the turn (`turn`) is deleted.
     */
    method EndTimedOutGame(p: PlayerId, o: PlayerId, turn: PlayerId) returns (cleared: bool)
      requires Valid() && p != o
      modifies this`boardMessages, this`games, this`timers
      ensures Valid()
      ensures Finished(p, o, cleared)
      ensures timers == if !cleared then old(timers) else if turn == p then old(timers) - {p} else old(timers) - {o}
    {
      cleared := DropFinishedGame(p, o);
      if cleared {
        timers := timers - {if turn == p then p else o};
      }
    }

    /**
     * The rest of `turn_timeout` when the game goes on: `p`'s timer entry is
     * deleted, the turn passes to `o` in `p`'s entry and then in `o`'s (a
     * KeyError when `o` has no entry), and a timer is recorded for `o`.
     */
    method PassTimedOutTurn(p: PlayerId, o: PlayerId) returns (passed: bool)
      requires Valid() && p in games && games[p].opponent == o
      modifies this`games, this`boardMessages, this`timers
      ensures Valid()
      ensures passed <==> o in old(games)
      ensures passed ==> TurnPassed(p, o) && timers == old(timers) - {p} + {o}
      ensures passed && old(Paired(p)) ==> Paired(p) && games[p].turn == o
      ensures !passed ==>
        && games == old(games)[p := old(games[p]).(turn := o)]
        && boardMessages == old(boardMessages)
        && timers == old(timers) - {p}
    {
      timers := timers - {p};
      games := games[p := games[p].(turn := o)];
      if o !in games {
        return false;
      }
      games := games[o := games[o].(turn := o)];
      boardMessages := boardMessages + {p, o};
      SetTurnTimer(o);
      passed := true;
    }
  }
}
