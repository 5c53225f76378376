/**
 * Turn control (the non-drawing part of `InterfazParques`): rolling the dice, the
 * three-doubles penalty, spending a die on the selected token, spending banked extra
 * moves, and ending the turn. Die values, the amount of extra moves and the token the
 * player picks come in as parameters.
 */
module Turns {
  import opened Wrappers
  import opened Seqs
  import opened Pieces
  import opened Rules
  import opened Game

  /** What pressing "lanzar dados" did. */
  datatype RollResult =
    | SpendExtraFirst          // extra moves are pending: no roll, the extra-moves dialog opens
    | Penalty(token: Token)    // third double in a row: this token went to jail
    | Rolled(d1: nat, d2: nat) // the two dice are now pending

  /** What pressing a die button did. */
  datatype DieResult =
    | NoSelection                             // no token selected: nothing happens
    | Moved(outcome: Outcome, turnEnded: bool) // the die was spent, whatever the move's outcome
    | StaleDie(outcome: Outcome)              // the die was no longer pending: `list.remove` raises after the move

  /** What submitting the extra-moves dialog did. */
  datatype ExtraResult =
    | BadAmount              // not between 1 and the banked amount
    | NoTokenSelected        // no token selected
    | Spent(outcome: Outcome) // the amount was deducted, whatever the move's outcome

  datatype SelectResult = Selected | NotYours

  /** The doubles streak after a roll: one more on a double, back to zero otherwise. */
  function NextStreak(n: int, d1: nat, d2: nat): int {
    if d1 == d2 then n + 1 else 0
  }

  /**
   * The token the three-doubles penalty hits: the seat's last moved token; failing that
   * the selected token; failing that its first token out of jail; failing that token 0.
   */
  ghost predicate PenaltyChoice(s: State, p: nat, selected: Option<Token>, t: Token)
    requires Shaped(s) && p < Players
  {
    if s.lastMoved[p].Some? then t == s.lastMoved[p].value
    else if selected.Some? then t == selected.value
    else
      && t.owner == p && t.id < TokensPerPlayer
      && (forall j :: 0 <= j < t.id ==> s.locs[Token(p, j)] == Jail)
      && (s.locs[t] == Jail ==> t.id == 0 && forall j :: 0 <= j < TokensPerPlayer ==> s.locs[Token(p, j)] == Jail)
  }

  /** What ending a turn does to the seat, the doubles flag and the streaks. */
  ghost predicate TurnEnded(current0: nat, double0: bool, streak0: seq<int>,
                            current: nat, double: bool, streak: seq<int>)
    requires current0 < |streak0|
  {
    && !double
    && (!double0 ==> current == (current0 + 1) % Players && streak == streak0[current0 := 0])
    && (double0 ==> current == current0 && streak == streak0)
  }

  /**
   * The penalty rule names one token at most: whatever is recorded, selected or jailed,
   * two tokens that both meet `PenaltyChoice` are the same token.
   */
  lemma PenaltyChoiceUnique(s: State, p: nat, selected: Option<Token>, t1: Token, t2: Token)
    requires Shaped(s) && p < Players
    requires PenaltyChoice(s, p, selected, t1) && PenaltyChoice(s, p, selected, t2)
    ensures t1 == t2
  {
  }

  /**
   * Per-seat bookkeeping of the turn controller: one doubles streak per seat, none of
   * them at three, no negative bank, and a seat's last moved token is one of its own.
   */
  ghost predicate SeatsValid(s: State, streak: seq<int>)
    requires Shaped(s)
  {
    && |streak| == Players
    && forall p :: 0 <= p < Players ==>
         && 0 <= streak[p] < 3
         && s.bonus[p] >= 0
         && (s.lastMoved[p].Some? ==> s.lastMoved[p].value.owner == p)
  }

  /** `usar_dado` keeps the bookkeeping: the move, then the mover recorded as its seat's last moved token. */
  lemma UseDieKeepsSeats(s: State, streak: seq<int>, t: Token, steps: nat)
    requires Shaped(s) && SeatsValid(s, streak) && ValidToken(t)
    ensures var res := Resolve(s, t, steps).state;
            var after := res.(lastMoved := res.lastMoved[t.owner := Some(t)]);
            Shaped(after) && SeatsValid(after, streak)
  {
    ResolveFrame(s, t, steps);
  }

  /** `submit` keeps the bookkeeping: the move, then at most the banked amount deducted from the mover's seat. */
  lemma SpendExtraKeepsSeats(s: State, streak: seq<int>, t: Token, val: int)
    requires Shaped(s) && SeatsValid(s, streak) && ValidToken(t)
    requires 1 <= val <= s.bonus[t.owner]
    ensures var res := Resolve(s, t, val).state;
            var after := res.(bonus := res.bonus[t.owner := res.bonus[t.owner] - val]);
            Shaped(after) && SeatsValid(after, streak)
  {
    ResolveFrame(s, t, val);
  }

  /** The penalty keeps the bookkeeping: the token chosen is recorded as last moved, then jailed. */
  lemma PenaltyKeepsSeats(s: State, streak: seq<int>, p: nat, t: Token)
    requires Consistent(s) && SeatsValid(s, streak) && p < Players && ValidToken(t) && t.owner == p
    ensures var marked := s.(lastMoved := s.lastMoved[p := Some(t)]);
            Consistent(SendToJail(marked, t)) && SeatsValid(SendToJail(marked, t), streak[p := 0])
  {
    var marked := s.(lastMoved := s.lastMoved[p := Some(t)]);
    RecountKeepsConsistent(s, marked.bonus, marked.lastMoved);
    SendToJailKeepsConsistent(marked, t);
  }

  /** The loop of `lanzar_dados` that looks for seat `p`'s first token out of jail. */
  method FirstInPlay(locs: map<Token, Location>, p: nat) returns (k: Option<Token>)
    requires forall i :: 0 <= i < TokensPerPlayer ==> Token(p, i) in locs
    ensures k.Some? ==> && k.value.owner == p && k.value.id < TokensPerPlayer
                        && locs[k.value] != Jail
                        && forall j :: 0 <= j < k.value.id ==> locs[Token(p, j)] == Jail
    ensures k.None? ==> forall j :: 0 <= j < TokensPerPlayer ==> locs[Token(p, j)] == Jail
  {
    var i := 0;
    while i < TokensPerPlayer
      invariant 0 <= i <= TokensPerPlayer
      invariant forall j :: 0 <= j < i ==> locs[Token(p, j)] == Jail
    {
      if locs[Token(p, i)] != Jail {
        return Some(Token(p, i));
      }
      i := i + 1;
    }
    return None;
  }

  class Controller {
    const game: GameState
    var current: nat              // indice_jugador_actual
    var dice: seq<nat>            // valores_dados
    var selected: Option<Token>   // ficha_seleccionada
    var lastDouble: bool          // ultimo_doble

    /**
     * The game data are consistent, the seat is one of the four, a selection is one of the
     * current seat's tokens, a seat's last moved token is its own, no streak has reached
     * three and no bank is negative.
     */
    ghost predicate Valid()
      reads this, game
    {
      && game.Valid()
      && current < Players
      && (selected.Some? ==> ValidToken(selected.value) && selected.value.owner == current)
      && SeatsValid(game.Snapshot(), game.streak)
    }

    /** The window as it opens: seat 0 to roll, no dice, nothing selected, on a fresh game. */
    constructor ()
      ensures Valid() && fresh(game)
      ensures game.Snapshot() == Initial() && game.streak == [0, 0, 0, 0]
      ensures current == 0 && dice == [] && selected == None && !lastDouble
    {
      game := new GameState();
      current := 0;
      dice := [];
      selected := None;
      lastDouble := false;
    }

    /** `al_hacer_click_en_canvas`, past the hit-testing: only the current seat's tokens can be picked. */
    method Select(t: Token) returns (r: SelectResult)
      requires Valid() && ValidToken(t)
      modifies this
      ensures Valid()
      ensures t.owner == current ==> r == Selected && selected == Some(t)
      ensures t.owner != current ==> r == NotYours && selected == old(selected)
      ensures current == old(current) && dice == old(dice) && lastDouble == old(lastDouble)
    {
      if t.owner == current {
        selected := Some(t);
        r := Selected;
      } else {
        r := NotYours;
      }
    }

    /**
     * `lanzar_dados` with the dice `d1`, `d2` given. With extra moves banked it does not
     * roll. Otherwise it records whether the roll is a double and updates the streak; the
     * third double in a row sends the penalty token to jail, resets the streak and stores
     * no dice (the doubles flag stays set); any other roll leaves `[d1, d2]` pending.
     */
    method Roll(d1: nat, d2: nat) returns (r: RollResult)
      requires Valid()
      modifies this, game
      ensures Valid()
      ensures old(game.bonus[current]) > 0 ==>
                && r == SpendExtraFirst && unchanged(this)
                && game.Snapshot() == old(game.Snapshot()) && game.streak == old(game.streak)
      ensures old(game.bonus[current]) <= 0 ==>
                && current == old(current) && selected == old(selected) && lastDouble == (d1 == d2)
      ensures old(game.bonus[current]) <= 0 && NextStreak(old(game.streak[current]), d1, d2) < 3 ==>
                && r == Rolled(d1, d2) && dice == [d1, d2]
                && game.streak == old(game.streak)[current := NextStreak(old(game.streak[current]), d1, d2)]
                && game.Snapshot() == old(game.Snapshot())
      ensures old(game.bonus[current]) <= 0 && NextStreak(old(game.streak[current]), d1, d2) == 3 ==>
                && r.Penalty? && r.token.owner == current
                && PenaltyChoice(old(game.Snapshot()), current, old(selected), r.token)
                && dice == old(dice)
                && game.streak == old(game.streak)[current := 0]
                && game.Snapshot() ==
                     SendToJail(old(game.Snapshot()).(lastMoved := old(game.lastMoved)[current := Some(r.token)]), r.token)
    {
      if game.bonus[current] > 0 {
        return SpendExtraFirst;
      }
      lastDouble := d1 == d2;
      var n := NextStreak(game.streak[current], d1, d2);
      if n == 3 {
        // the streak reaches three and is reset once the penalty is applied
        game.SetStreak(current, 0);
        var target := Penalize();
        return Penalty(target);
      }
      game.SetStreak(current, n);
      dice := [d1, d2];
      r := Rolled(d1, d2);
    }

    /**
     * The three-doubles penalty of `lanzar_dados`: picks the token (`PenaltyChoice`), records
     * it as the seat's last moved token and sends it to jail.
     */
    method Penalize() returns (target: Token)
      requires Valid()
      modifies game
      ensures Valid()
      ensures target.owner == current
      ensures PenaltyChoice(old(game.Snapshot()), current, selected, target)
      ensures game.Snapshot() ==
                SendToJail(old(game.Snapshot()).(lastMoved := old(game.lastMoved)[current := Some(target)]), target)
      ensures game.streak == old(game.streak)
    {
      ghost var s0 := game.Snapshot();
      target := ChoosePenaltyToken();
      PenaltyKeepsSeats(s0, game.streak, current, target);
      match game.locs[target] {
        case Track(sq) =>
          if target in game.board[sq] {
            game.board := game.board[sq := RemoveFirst(game.board[sq], target)];
          }
        case _ =>
      }
      game.locs := game.locs[target := Jail];
    }

    /**
     * The choice of the penalty token: the recorded last moved token, else the selection,
     * else the first token out of jail, else token 0; the choice is recorded as last moved.
     */
    method ChoosePenaltyToken() returns (target: Token)
      requires Valid()
      modifies game
      ensures ValidToken(target) && target.owner == current
      ensures PenaltyChoice(old(game.Snapshot()), current, selected, target)
      ensures game.lastMoved == old(game.lastMoved)[current := Some(target)]
      ensures game.board == old(game.board) && game.locs == old(game.locs)
      ensures game.bonus == old(game.bonus) && game.streak == old(game.streak)
    {
      if game.lastMoved[current].None? {
        if selected.Some? {
          game.lastMoved := game.lastMoved[current := selected];
        } else {
          var k := FirstInPlay(game.locs, current);
          game.lastMoved := game.lastMoved[current := Some(if k.Some? then k.value else Token(current, 0))];
        }
      }
      target := game.lastMoved[current].value;
    }

    /**
     * `usar_dado(val)`: moves the selected token by `val`, records it as the seat's last
     * moved token and spends the die whether or not the move was refused; when no die is
     * left the turn ends.
     */
    method UseDie(val: nat) returns (r: DieResult)
      requires Valid()
      modifies this, game
      ensures Valid()
      ensures old(selected).None? ==>
                r == NoSelection && unchanged(this) && game.Snapshot() == old(game.Snapshot()) && game.streak == old(game.streak)
      ensures old(selected).Some? ==>
                var res := Resolve(old(game.Snapshot()), old(selected).value, val);
                && game.Snapshot() == res.state.(lastMoved := res.state.lastMoved[old(current) := old(selected)])
                && !r.NoSelection? && r.outcome == res.outcome
      ensures old(selected).Some? && val !in old(dice) ==>
                && r.StaleDie?
                && dice == old(dice) && selected == old(selected) && current == old(current)
                && lastDouble == old(lastDouble) && game.streak == old(game.streak)
      ensures old(selected).Some? && val in old(dice) ==>
                && r.Moved? && selected.None?
                && (r.turnEnded <==> RemoveFirst(old(dice), val) == [])
                && (!r.turnEnded ==> && dice == RemoveFirst(old(dice), val) && current == old(current)
                                     && lastDouble == old(lastDouble) && game.streak == old(game.streak))
                && (r.turnEnded ==> && dice == []
                                    && TurnEnded(old(current), old(lastDouble), old(game.streak),
                                                 current, lastDouble, game.streak))
    {
      if selected.None? {
        return NoSelection;
      }
      var t := selected.value;
      UseDieKeepsSeats(game.Snapshot(), game.streak, t, val);
      var o := game.MoveToken(t, val);
      game.Record(current, t);
      if val !in dice {
        return StaleDie(o);
      }
      dice := RemoveFirst(dice, val);
      selected := None;
      if dice == [] {
        EndTurn();
        return Moved(o, true);
      }
      r := Moved(o, false);
    }

    /**
     * `submit` of the extra-moves dialog with the amount `val`: refused unless
     * 1 <= val <= the banked amount and a token is selected; otherwise moves the token by
     * `val` and deducts `val` whether or not the move was refused, clearing dice and selection.
     */
    method SpendExtra(val: int) returns (r: ExtraResult)
      requires Valid()
      modifies this, game
      ensures Valid()
      ensures val < 1 || val > old(game.bonus[current]) ==>
                r == BadAmount && unchanged(this) && game.Snapshot() == old(game.Snapshot()) && game.streak == old(game.streak)
      ensures 1 <= val <= old(game.bonus[current]) && old(selected).None? ==>
                r == NoTokenSelected && unchanged(this) && game.Snapshot() == old(game.Snapshot()) && game.streak == old(game.streak)
      ensures 1 <= val <= old(game.bonus[current]) && old(selected).Some? ==>
                var res := Resolve(old(game.Snapshot()), old(selected).value, val);
                && r == Spent(res.outcome)
                && game.Snapshot() == res.state.(bonus := res.state.bonus[old(current) := res.state.bonus[old(current)] - val])
                && dice == [] && selected == None
                && current == old(current) && lastDouble == old(lastDouble) && game.streak == old(game.streak)
    {
      if val < 1 || val > game.bonus[current] {
        return BadAmount;
      }
      if selected.None? {
        return NoTokenSelected;
      }
      var o := SpendOn(selected.value, val);
      dice := [];
      selected := None;
      r := Spent(o);
    }

    /** The move of `submit`: the selected token `t` moves by `val`, then `val` leaves the seat's bank. */
    method SpendOn(t: Token, val: int) returns (o: Outcome)
      requires Valid() && selected == Some(t) && 1 <= val <= game.bonus[current]
      modifies game
      ensures Valid()
      ensures var res := Resolve(old(game.Snapshot()), t, val);
              && o == res.outcome
              && game.Snapshot() == res.state.(bonus := res.state.bonus[current := res.state.bonus[current] - val])
              && game.streak == old(game.streak)
    {
      ghost var s0 := game.Snapshot();
      assert t.owner == current;
      SpendExtraKeepsSeats(s0, game.streak, t, val);
      o := game.MoveToken(t, val);
      game.Charge(current, val);
    }

    /**
     * `terminar_turno`: clears the dice and the selection; after a roll that was not a
     * double the streak resets and the next seat plays, after a double the same seat
     * rolls again with the doubles flag cleared.
     */
    method EndTurn()
      requires Valid()
      modifies this, game
      ensures Valid()
      ensures dice == [] && selected == None
      ensures game.Snapshot() == old(game.Snapshot())
      ensures TurnEnded(old(current), old(lastDouble), old(game.streak), current, lastDouble, game.streak)
    {
      dice := [];
      selected := None;
      if !lastDouble {
        game.streak := game.streak[current := 0];
        current := (current + 1) % Players;
      } else {
        lastDouble := false;
      }
    }
  }
}
