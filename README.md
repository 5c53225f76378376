# Parqués rule engine in Dafny

This project models the rule engine of a four-seat Parqués game (a Ludo-style race on a
circular track of 68 squares). Each seat has four tokens, a start square, a square from
which it enters its 8-step home lane, a doubles streak, a bank of extra moves and the
token it moved last. The model covers these parts:

- how `mover_ficha` moves a token:
  - leaving jail on a 5;
  - the exact-count entry into the home lane;
  - blockades along the way;
  - captures with their 20-square leap;
  - moves inside the lane;
- the turn controller:
  - rolling, and the three-doubles penalty;
  - spending a die or banked extra moves;
  - ending the turn;
- the early sketch in `parques.py`.

Modules:

- `Pieces`: the constants, with these derived functions:
  - seat start and entry squares;
  - safe squares;
  - the circular count `Ahead`;
  - the forward distance `Distance`.
- `Seqs`: `RemoveFirst`, which models Python's `list.remove`.
- `Board`: these predicates and method:
  - `es_bloqueo` as `IsBlockade`;
  - `puede_colocar` as `CanPlace`;
  - `verificar_camino` as the predicate `PathClear` and the loop method `CheckPath`.
- `Rules`:
  - the shared game data as a value (`State`);
  - `mover_ficha` as the function `Resolve`;
  - the bookkeeping invariant `Consistent`: every token is in exactly one place, and no square lists a token twice;
  - lemmas that `Resolve` and the penalty preserve `Consistent`;
  - lemmas that state the rules' notable consequences.
- `Game`: `GameState` holds the program's module-level data. Its method `MoveToken` changes that data in place, and its postcondition proves the result equal to `Resolve`.
- `Turns`: `Controller` holds the non-drawing state of the window class:
  - the current seat;
  - the pending dice;
  - the selected token;
  - the doubles flag.
  Its methods are the button handlers with their dialogs and drawing removed.
- `Sketch`: `inicializar_tablero` and the non-wrapping `mover_ficha` of `parques.py`.

The code departs from the plain rules in three places; the model follows the code:

- A capture tests only the first token on the destination square. It does not require exactly one occupant. Another seat's blockade on an unsafe destination is broken (`Rules.BlockadeOnDestinationIsCaptured`).
- `usar_dado` spends the die and records the token as last moved even when the move is refused.
- `submit` deducts the amount from the bank even when the move is refused.

These behaviours of the code are also kept:

- A plain move makes no room check on its destination (`Rules.ThirdTokenLands`). A square holding three tokens is then not a blockade, even when all three belong to one seat, because `es_bloqueo` asks for exactly two tokens.
- A failed leap does not undo the capture (`Rules.FailedLeapKeepsCapture`).
- The leap ignores the distance to the home entry. It can therefore leave a token on its own entry square (seat 0 capturing on square 47 leaps to 67), and from there every positive roll overshoots, so that token never moves again (`Rules.EntrySquareIsDeadEnd`).
- The doubles flag stays set after the three-doubles penalty.
- The penalty stores the token it picked as the seat's last moved token.

## Model

| member | source | states |
|---|---|---|
| Pieces.Start | parques_game2.py:85-90 | each seat's start square (0, 17, 34, 51) is on the track |
| Pieces.HomeEntry | parques_game2.py:85-90 | each seat's lane-entry square (67, 16, 33, 50) is on the track and is the square just before its start square |
| Pieces.SafeSquaresAreStarts | parques_game2.py:101 | a square is safe exactly when it is some seat's start square |
| Pieces.Ahead | parques_game2.py:123 | counting `i` squares on from a square wraps around and stays on the 68-square track |
| Pieces.Distance | parques_game2.py:298-303 | the forward distance `d` from a square to the entry is below 68, reaches the entry after `d` squares, and no fewer squares reach it |
| Seqs.RemoveFirst | parques_game2.py:310-311 | removing a value drops exactly one occurrence when present (the multiset loses one copy, the length drops by one) and changes nothing when absent |
| Seqs.RemoveFirstSplits | parques_game2.py:310-311 | when the value is present, removal yields exactly the list before its first occurrence followed by the list after it, so the other elements keep their order |
| Seqs.RemoveFirstMembers | parques_game2.py:310-311 | on a list without duplicates, removal keeps it duplicate-free and leaves exactly the other members |
| Board.IsBlockade | parques_game2.py:114-119 | a blockade is a square with no room left whose two tokens belong to one seat; a square with room is never a blockade |
| Board.CanPlace | parques_game2.py:280-281 | a square has room exactly when at most one token stands on it, whoever owns it |
| Board.PathClear | parques_game2.py:121-126 | a move of 0 or 1 step is always clear; a clear longer move has no blockade on the first or the last square it passes |
| Board.CheckPath | parques_game2.py:114-126 | the path is clear exactly when no square `(from+i)%68` with 1 <= i < steps is a blockade of two same-seat tokens; otherwise the first such square is returned |
| Board.PathIgnoresEnds | parques_game2.py:121-126 | the path check never looks at the start or the destination square: boards that differ only there give the same answer |
| Rules.Resolve | parques_game2.py:283-370 | the result keeps the shape of the game (68 squares, one bank and one last-moved record per seat, every token at a valid location); a refused move changes nothing |
| Rules.ResolveFrame | parques_game2.py:283-370 | no token moves but the mover and a captured victim, and the victim ends in jail; other seats' banks and last-moved records are untouched; the mover's record is unchanged or the mover; its bank grows by 10 exactly on entering the lane or reaching the goal |
| Rules.TrackMoveFrame | parques_game2.py:297-355 | the same frame for every move from the outer track |
| Rules.CaptureFrame | parques_game2.py:324-348 | the same frame for a capture, with or without its leap: only the mover and the jailed victim change place, and no bank changes |
| Rules.CaptureApplies | parques_game2.py:324-326 | a capture applies only when the destination is occupied, its first occupant belongs to another seat, and the destination is no seat's start square |
| Rules.Landed | parques_game2.py:325-334 | when the first occupant is not the mover, it goes to jail, the mover stands on the destination, and no bank or last-moved record changes; when the mover also comes from another square, the whole board is given: the mover's first occurrence leaves its origin square, the destination lists the remaining occupants followed by the mover, and every other square is unchanged, as is every other token's location |
| Rules.ExitJail | parques_game2.py:285-294 | a jailed token leaves exactly on a 5 with fewer than two tokens on its start square; it is then appended there and recorded as moved; otherwise nothing changes, and the outcome says whether the 5 or the room was missing |
| Rules.TrackMove | parques_game2.py:297-355 | more steps than the distance to the entry is refused; a blockade on the way is refused; exactly the distance enters lane step 0 and leaves the track; fewer moves to `(from+steps)%68`, appended there, unless a capture applies |
| Rules.Capture | parques_game2.py:324-342 | the first occupant of the destination is jailed and removed, and the mover is appended there; the leap happens exactly when the 20-square leg is clear and its square has room; otherwise the landing stands |
| Rules.Leap | parques_game2.py:336-348 | the leap lands on `(dest+20)%68` exactly when that leg is clear and the square holds fewer than two tokens; otherwise the state after landing is kept |
| Rules.LaneMove | parques_game2.py:358-368 | a lane move beyond step 7 is refused and changes nothing; otherwise the token moves to `i+steps`, the board is untouched, and reaching step 7 is the goal |
| Rules.SendToJail | parques_game2.py:598-603 | the penalty takes the token off its square if it is on the track and puts it in jail; nothing else changes |
| Rules.InitialConsistent | parques_game2.py:43-47 | the initial game (all tokens jailed, empty board, zero counters) satisfies the bookkeeping invariant |
| Rules.ResolveKeepsConsistent | parques_game2.py:283-370 | every move keeps each token in exactly one place, with no square listing a token twice |
| Rules.ExitJailKeepsConsistent | parques_game2.py:285-294 | leaving jail keeps the bookkeeping invariant |
| Rules.LaneMoveKeepsConsistent | parques_game2.py:358-368 | a lane move keeps the bookkeeping invariant |
| Rules.TrackMoveKeepsConsistent | parques_game2.py:297-355 | a move on the track keeps the bookkeeping invariant |
| Rules.CaptureKeepsConsistent | parques_game2.py:324-348 | a capture, with or without its leap, keeps the bookkeeping invariant |
| Rules.SendToJailKeepsConsistent | parques_game2.py:598-603 | the penalty keeps the bookkeeping invariant |
| Rules.RecountKeepsConsistent | parques_game2.py:632 | changing banks or last-moved records with valid tokens keeps the invariant |
| Rules.BlockadeStopsMove | parques_game2.py:320-322 | a blockade on any square strictly between start and destination refuses the move and changes nothing |
| Rules.ThirdTokenLands | parques_game2.py:349-355 | a plain move lands even on a square that already holds two tokens, leaving three there; that square is then no blockade, even when all three belong to one seat |
| Rules.BlockadeOnDestinationIsCaptured | parques_game2.py:324-330 | only the first occupant is tested: another seat's blockade on an unsafe destination loses its first token to jail |
| Rules.FailedLeapKeepsCapture | parques_game2.py:339-342 | when the leap is refused, the victim taken from the destination stays in jail and the mover stays on the destination |
| Rules.EntrySquareIsDeadEnd | parques_game2.py:299-317 | a token on its own entry square is at distance 0, so every positive roll overshoots |
| Rules.GoalIsTerminal | parques_game2.py:358-362 | a token on lane step 7 never moves again |
| Rules.AllArrived | parques_game2.py:70-75 | true exactly when every token of the seat stands on lane step 7 |
| Rules.ArrivedSeatIsStuck | parques_game2.py:70-75 | once all four of a seat's tokens have arrived, no token of that seat can move |
| Game.GameState.constructor | parques_game2.py:100 | the game starts with every token in jail, an empty board and zero counters |
| Game.GameState.AllTokensArrived | parques_game2.py:70-75 | the scan answers true exactly when all four of the seat's tokens are on lane step 7 |
| Game.GameState.MoveToken | parques_game2.py:283-370 | the in-place move leaves exactly the state and outcome of `Rules.Resolve`, keeps the invariant and leaves the doubles streaks alone |
| Game.GameState.LeaveJail | parques_game2.py:285-294 | the in-place jail exit matches `Rules.ExitJail` |
| Game.GameState.MoveOnTrack | parques_game2.py:297-355 | the in-place track move matches `Rules.TrackMove` |
| Game.GameState.CaptureAt | parques_game2.py:324-342 | the in-place capture matches `Rules.Capture` |
| Game.GameState.Land | parques_game2.py:325-334 | in place, the first occupant leaves the destination for jail and the mover moves onto it, as `Rules.Landed` describes |
| Game.GameState.LeapOn | parques_game2.py:336-348 | the in-place leap matches `Rules.Leap` |
| Game.GameState.MoveInLane | parques_game2.py:358-368 | the in-place lane move matches `Rules.LaneMove` |
| Game.GameState.EnterLane | parques_game2.py:310-314 | in place, the token leaves its square for lane step 0, is recorded as moved, and its seat banks 10 extra moves |
| Game.GameState.StepTo | parques_game2.py:350-354 | in place, the token leaves its square, is appended to the destination and is recorded as moved |
| Game.GameState.StepInLane | parques_game2.py:363-364 | in place, the token moves to lane step `j` and is recorded as moved; the board is untouched |
| Game.GameState.Bank | parques_game2.py:365-366 | in place, the seat banks 10 extra moves and nothing else changes |
| Game.GameState.Charge | parques_game2.py:632 | in place, the seat's bank drops by the amount and nothing else changes; the invariant is kept |
| Game.GameState.Record | parques_game2.py:654 | in place, only the seat's last-moved record changes; the invariant is kept |
| Game.GameState.SetStreak | parques_game2.py:581-584 | only the seat's doubles streak changes |
| Turns.FirstInPlay | parques_game2.py:592-595 | the seat's first token out of jail in id order, or none when all four are jailed |
| Turns.PenaltyChoiceUnique | parques_game2.py:588-598 | the penalty rule picks exactly one token |
| Turns.UseDieKeepsSeats | parques_game2.py:653-654 | after a move and the recording of the token, every seat's streak stays in 0..2, every bank stays non-negative and every last-moved record names a token of that seat |
| Turns.SpendExtraKeepsSeats | parques_game2.py:631-632 | after a move paid with at most the seat's bank, the same seat counters stay valid |
| Turns.PenaltyKeepsSeats | parques_game2.py:598-605 | the penalty keeps the bookkeeping invariant and the seat counters, with the seat's streak reset to 0 |
| Turns.Controller.constructor | parques_game2.py:414-417 | seat 0 to roll, no dice, no selection, doubles flag clear, fresh game with every doubles streak at 0 |
| Turns.Controller.Select | parques_game2.py:726-731 | only a token of the seat to play can be selected; otherwise the selection stays |
| Turns.Controller.Roll | parques_game2.py:572-611 | with extra moves banked nothing changes; otherwise the flag records the double and the streak grows or resets; the third double jails the penalty token (chosen as for `Turns.Controller.Penalize`, token 0 when all four are jailed), resets the streak and keeps the old dice; any other roll leaves `[d1, d2]` pending |
| Turns.Controller.Penalize | parques_game2.py:586-607 | the penalty token is the last moved one, else the selection, else the first token out of jail, else token 0 when all four are jailed; it always belongs to the rolling seat and ends in jail |
| Turns.Controller.ChoosePenaltyToken | parques_game2.py:588-597 | the chosen token is the last moved one, else the selection, else the first token out of jail, else token 0 when all four are jailed; it is stored as the seat's last moved token and nothing else changes |
| Turns.Controller.UseDie | parques_game2.py:649-660 | with a selection the token moves as `Rules.Resolve` says and is recorded as moved; a pending die is spent whatever the outcome, and the last die ends the turn; a die no longer pending leaves dice and selection as they were |
| Turns.Controller.SpendExtra | parques_game2.py:620-637 | amounts outside 1..bank or a missing selection change nothing; otherwise the token moves and the amount is deducted whatever the outcome, clearing dice and selection |
| Turns.Controller.SpendOn | parques_game2.py:631-632 | the selected token moves as `Rules.Resolve` says and the amount is deducted from the seat's bank whatever the outcome; streaks are untouched |
| Turns.Controller.EndTurn | parques_game2.py:662-676 | dice and selection are cleared; after a non-double the streak resets and the next seat plays; after a double the same seat rolls again with the flag cleared |
| Sketch.InitialLayout | parques.py:2-8 | the route is 0..67 in order; houses and goals have exactly the four colours as keys, each with an empty list |
| Sketch.Advance | parques.py:18-24 | the new position is `pos+steps` exactly when that is below the route's length; otherwise there is none, with no wrap-around |
| Sketch.AdvanceWithoutWrap | parques.py:18-24 | on the initial route a move that stays on the route agrees with the circular count; one that would pass square 67 yields nothing, where the full game wraps |

## Left out

- Drawing, widgets, dialogs and messages (`dibujar_*`, `actualizar_info`, `Ficha.__str__`, pixel coordinates): these are presentation only. Result messages become the `Outcome` datatype.
- Seat names and colours: they appear only in messages and drawing.
- Random dice (`random.randint`, `tirar_dado`): the die values are parameters of `Turns.Controller.Roll`.
- Mouse hit-testing in `al_hacer_click_en_canvas`: the clicked token is the parameter of `Turns.Controller.Select`.
- The `int(entry.get())` parsing with its bare `except`: the amount is an integer parameter of `Turns.Controller.SpendExtra`.
- The final "movimiento desconocido" branch of `mover_ficha`: it cannot be reached, because a `Location` is always jail, track or lane.
- Turns.Controller.SpendExtra: `submit` deducts from the seat that was playing when the dialog opened. The model deducts from the seat playing at submit time. The two differ only if the turn passes while the dialog is open.
- Turns.Controller.UseDie: when the die is no longer pending, `list.remove` raises after the move. The model reports `StaleDie` with the move applied. It does not model the exception unwinding the button callback.
- Game.GameState.MoveToken: step counts are natural numbers. Every caller passes a die value (1 to 6) or a bank amount of at least 1.
- Game.GameState.MoveToken: a token is identified by seat and id, not by object identity. The `ficha in lista` tests compare tokens by that identity.
