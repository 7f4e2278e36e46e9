# Tic-tac-toe Telegram bot: the game engine in Dafny

This project models the in-memory engine of a Telegram bot that lets two users
play tic-tac-toe. The Telegram side is left out. What remains is the state the
button handlers change and the rules they apply:

- the waiting room (`waiting_room`, user id to first name, in join order);
- the table of games in progress (`games_in_progress`, one entry per player; the
  two entries of a game share one nine-cell board);
- the keys of the board-message table (`user_board_message_ids`), of
  `user_states` and of `timers`;
- the handlers for 'join_waiting', 'leave_waiting', 'find_player',
  'select_player_…' (`start_game`), 'symbol_choice_…', and 'move…'
  (`handle_move`);
- the turn timer's callback (`turn_timeout`) and its `set_turn_timer`
  bookkeeping.

Modules:

- `Wrappers`: `Option`.
- `Order`: the key order of a Python dict, as a sequence. Deleting a key is
  `Erase`.
- `Board`: cells, marks, the eight lines, `check_winner`, `get_empty_cells`,
  and the board write of a move.
- `Engine`: the class `Bot`. It holds every table the handlers mutate, and
  each handler is one method.
- `Scenario`: four client methods that run the handlers in sequence:
  - two players meet in the waiting room and see each other in the list;
  - a player picks a waiting player and the game starts;
  - the symbol choice and the first moves of a game;
  - a move made before the symbol choice, which writes `None` into the board.

Modelling decisions:

- A handler that raises `KeyError` or `IndexError` stops at that point. The
  model returns there too and keeps the changes made so far. The result says
  which key was missing. The game teardown is four `del` statements in a row,
  so it reports whether it ran to its end (`cleared`).
- A move by a player who has no symbol yet writes Python's `None` into the
  board. This is the cell `Unset`. `check_winner` can return it, but
  `if winner:` treats it as false, so only a real mark wins (`IsWin`).
  A board holding `None` cannot be announced: `announce_winner` and
  `announce_draw` join each row of the board into a string, which raises
  `TypeError` on `None`. A win or a draw on such a board therefore ends the
  handler before any deletion, and the game stays (`Unannounced`).
- The board is an `array<Cell>` shared by both entries, as in
  `tic-tac-toe.py:162`. A move through one player's entry is seen through the
  other's.
- `random.choice` in `turn_timeout` is modelled as an arbitrary blank cell,
  picked from the result of `GetEmptyCells`.
- `tic-tac-toe.py` keeps its own module-level tables and never arms a timer.
  `functions.py` works on the tables of `common.py`. The model puts both sets
  of handlers on one `Bot`, as they would be once the main module uses
  `common.py`'s tables.
- The code has no confirm/deny step before a game and never checks whether a
  timer firing is stale, so the model follows the code:
  - selecting a waiting player starts the game at once;
  - `start_game` overwrites any existing entries;
  - a symbol can be chosen again while the game runs;
  - `turn_timeout` writes the timed-out player's mark without checking whose
    turn it is.

  For this reason `Paired` (the two entries agree) is not a class invariant.
  It is established by `StartGame` and preserved by the other handlers.

## Model

| member | source | states |
|---|---|---|
| Order.Erase | tic-tac-toe.py:86 | Deleting a key keeps exactly the other keys. A key order without repeats stays without repeats. |
| Order.EraseAbsent | tic-tac-toe.py:84-92 | Deleting a key that is not present leaves the order unchanged. |
| Order.EraseAppended | tic-tac-toe.py:76-92 | Joining the room and then leaving it restores the previous order of the waiting players. |
| Order.EraseConcat | tic-tac-toe.py:86 | Deleting a key from two consecutive runs of keys deletes it from each run, and the runs stay in sequence. So the remaining keys keep their relative order, which the find-player list relies on. |
| Order.EraseSingle | tic-tac-toe.py:86 | A single key is dropped exactly when it is the deleted one. |
| Board.CellOf | tic-tac-toe.py:223-225 | A move never writes the blank `' '`: it writes the mover's mark, or `None` when the mover has none yet. |
| Board.Other | tic-tac-toe.py:125-133 | The opponent always receives the mark the chooser did not pick. |
| Board.Lines | tic-tac-toe.py:263-267 | The eight winning combinations (three rows, three columns, two diagonals) in the source's order, which the scan follows. |
| Board.Complete | tic-tac-toe.py:269 | A line is complete when its three cells are equal and not blank, the chained comparison of the source. |
| Board.IsWin | tic-tac-toe.py:228 | The truth test `if winner:` holds only for a real mark, not for `None` and not for no result. |
| Board.WinningLineFrom | tic-tac-toe.py:268-271 | The scan from line `k` returns the first complete line from `k` on, and finds none exactly when no such line is complete. |
| Board.CheckWinner | tic-tac-toe.py:262-271 | The result is `None` exactly when no line is complete. Otherwise it is the non-blank content of the first complete line in source order. |
| Board.OnlyMoverCanWin | tic-tac-toe.py:225-228 | On a board without a winner, writing one cell can produce no winner or only the content just written. |
| Board.GetEmptyCells | functions.py:154-159 | The result is exactly the indices of the blank cells, in ascending order. It is empty exactly when the board is full. |
| Board.EmptyBoard | tic-tac-toe.py:154 | A new board has nine cells, all blank. |
| Board.FirstMarkNeverWins | tic-tac-toe.py:225-228 | The first mark on an empty board never completes a line. |
| Board.Place | tic-tac-toe.py:225-227 | Only the chosen cell changes. The result is `check_winner` of the new board. On a board without a winner, the only possible winner is the mark just written. |
| Engine.OthersExist | tic-tac-toe.py:95-96 | `if waiting_room` combined with `not (u in room and len(room) == 1)` holds exactly when someone other than `u` is waiting. |
| Engine.Bot.constructor | tic-tac-toe.py:24-28 | The bot starts with every table empty. |
| Engine.Bot.JoinWaiting | tic-tac-toe.py:76-82 | A player not yet waiting is added under their name, at the end of the order. A player already waiting changes nothing. |
| Engine.Bot.LeaveWaiting | tic-tac-toe.py:84-92 | A waiting player is removed from the room and from the order. Anyone else changes nothing. |
| Engine.Bot.FindPlayer | tic-tac-toe.py:94-110 | Returns the empty-room notice exactly when nobody but `u` waits, with the leave keyboard exactly when `u` waits. Otherwise returns the other waiting players in join order, each with their name. The `if keyboard:` branch is never empty. |
| Engine.Bot.StartGame | tic-tac-toe.py:145-165 | Both players leave the room. Each gets an entry naming the other, both entries share a fresh all-blank board, the initiator has the turn, and no symbol is set. The two entries are `Paired`. |
| Engine.Bot.CreateEntries | tic-tac-toe.py:151-165 | Writes the two `games_in_progress` entries, with the board shared between them. |
| Engine.Bot.SelectPlayer | tic-tac-toe.py:112-118 | The game starts exactly when the selected player still waits under a non-empty name. Otherwise nothing changes. |
| Engine.Bot.ChooseSymbol | tic-tac-toe.py:120-139 | The chooser gets the chosen mark and the opponent the other one, and both boards are shown. A missing chooser entry changes nothing. A missing opponent entry stops after the chooser's mark is written. `Paired` is preserved. |
| Engine.Bot.DropFinishedGame | tic-tac-toe.py:231-235 | The four deletions happen in order and stop at the first missing key. `cleared` holds exactly when all four keys were present. |
| Engine.Bot.EndGame | tic-tac-toe.py:231-239 | After the teardown, both `user_states` entries are deleted. The second deletion is skipped when the first key is missing. |
| Engine.Bot.PassTurn | tic-tac-toe.py:253-257 | Both entries give the turn to the opponent, and both boards are shown. `Paired` is preserved. |
| Engine.Bot.HandleMove | tic-tac-toe.py:206-259 | A press is rejected, with nothing changed, exactly when the player has no entry, it is not their turn, the cell is taken, or the opponent has no entry. Otherwise the mover's symbol goes into exactly that cell of the shared board. A win (only by the mover, when nobody had won before) or a full board ends the game. If the board holds `None`, the announcement fails instead, and nothing is deleted. Any other move passes the turn. `Paired` is preserved. |
| Engine.Bot.SetTurnTimer | functions.py:12-22 | A timer entry is recorded for the player. |
| Engine.Bot.TurnTimeout | functions.py:25-111 | Nothing changes exactly when the player has no game or the board is full. Otherwise the player's symbol goes into a blank cell. A win (by the player's mark, when nobody had won before) or a full board ends the game and removes the timer entry of whoever had the turn. If the board holds `None`, the announcement fails first, and nothing is deleted. Any other result removes the player's timer, passes the turn in both entries and records a timer for the opponent. A missing opponent entry stops at the point where the code raises KeyError. |
| Engine.Bot.EndTimedOutGame | functions.py:51-63 | Runs the teardown. Then, if it ran to its end, deletes the timer entry of the player who had the turn. |
| Engine.Bot.PassTimedOutTurn | functions.py:97-111 | Removes the player's timer entry. The turn passes to the opponent, first in the player's entry, then in the opponent's entry if it exists. A timer is recorded for the opponent. |

## Left out

- All Telegram I/O is left out:
  - the messages, keyboards and their texts;
  - `query.answer`;
  - the messages of `announce_winner` and `announce_draw`. Their two failures are modelled: the `TypeError` on a board holding `None`, and the opponent lookup that can raise `KeyError`;
  - the countdown messages of `set_countdown`.
- `show_board` is represented only by the key it adds to `user_board_message_ids`. The message ids themselves are not modelled. The model does not capture whether Telegram accepts a board button whose label is `None`.
- `user_messages`, `track_user_message` and `clear_previous_message` are not modelled. The model assumes every player's last message exists; these are users who pressed a button of the bot.
- The values of `user_board_message_ids`, `user_states` and `timers` are not modelled, only their keys. The values are message ids, `True` and job handles.
- The `/start` command is left out. It is the only place that adds to `user_states`.
- The `tasks` list, its cancellation and `asyncio.gather` are left out: asynchronous tasks and their interleaving.
- The job queue, `schedule_removal` and the 20-second limit are left out. A timer is the key in `timers`; when the callback fires is not modelled.
- database.py is not part of this model, and neither is the `main` function.
- The parsing of callback data is left out. Handlers take the player id, the mark or the cell index directly.
- Engine.Bot.SelectPlayer: requires `u != o`. The list a player is shown never contains their own button, so a player cannot select themselves.
- Engine.Bot.HandleMove: requires a cell index below nine. Board buttons only carry 'move0' to 'move8'.
