/**
 * The first, separate sketch of the game: a straight route of 68 squares, empty houses and
 * goals per colour, and a move that adds without wrapping around the board.
 */
module Sketch {
  import opened Wrappers
  import Pieces

  /** The colours, in the order the sketch lists them. */
  const Colours: seq<string> := ["rojo", "verde", "amarillo", "azul"]

  /** recorrido, casas, metas */
  datatype Layout = Layout(route: seq<int>, houses: map<string, seq<int>>, goals: map<string, seq<int>>)

  /** `inicializar_tablero`: the route numbers its squares 0..67; every colour's house and goal are empty. */
  function InitialLayout(): (l: Layout)
    ensures |l.route| == 68
    ensures forall i :: 0 <= i < |l.route| ==> l.route[i] == i
    ensures l.houses.Keys == l.goals.Keys == set c | c in Colours
    ensures forall c :: c in l.houses ==> l.houses[c] == []
    ensures forall c :: c in l.goals ==> l.goals[c] == []
  {
    var empty := map["rojo" := [], "verde" := [], "amarillo" := [], "azul" := []];
    Layout(seq(68, i => i), empty, empty)
  }

  /**
   * `mover_ficha` of the sketch: the new position is `pos + steps` while that is still an
   * index of the route; past the end there is no position (arrival was never written).
   */
  function Advance(pos: int, steps: int, route: seq<int>): (r: Option<int>)
    ensures r.Some? <==> pos + steps < |route|
    ensures r.Some? ==> r.value == pos + steps
  {
    if pos + steps < |route| then Some(pos + steps) else None
  }

  /**
   * On the sketch's route a move that stays on the route lands where the full game's
   * circular count would, and a move that would cross square 67 yields nothing, where the
   * full game wraps to the square `Pieces.Ahead` names.
   */
  lemma {:induction false} AdvanceWithoutWrap(pos: int, steps: int)
    requires 0 <= pos < 68 && 0 <= steps
    ensures Advance(pos, steps, InitialLayout().route).Some? ==>
              InitialLayout().route[Advance(pos, steps, InitialLayout().route).value] == Pieces.Ahead(pos, steps)
    ensures Advance(pos, steps, InitialLayout().route).None? ==> Pieces.Ahead(pos, steps) < pos + steps
  {
    var route := InitialLayout().route;
    if pos + steps < |route| {
      assert route[pos + steps] == pos + steps;
    }
  }
}
