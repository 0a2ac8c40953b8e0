/** Edge code as the list of moves it makes. */
module Chains {
  import opened Prelude
  import opened Messages
  import opened Kasi

  datatype Move = Move(world: World, loc: Loc, emit: Option<Msg>)

  /** Each move is one the edge relation allows, from where the previous one ended. */
  ghost predicate Moves(c: Config, w: World, l: Loc, moves: seq<Move>)
    decreases |moves|
  {
    moves == [] ||
    (Edge(c, w, l, false, moves[0].world, moves[0].loc, moves[0].emit) &&
      Moves(c, moves[0].world, moves[0].loc, moves[1..]))
  }

  function Heard(move: Move): seq<Msg>
  {
    if move.emit.Some? then [move.emit.value] else []
  }

  /** What a list of moves emits, in order. */
  function Emitted(moves: seq<Move>): seq<Msg>
  {
    if moves == [] then [] else Heard(moves[0]) + Emitted(moves[1..])
  }

  lemma ThreeMoves(c: Config, w: World, l: Loc, moves: seq<Move>)
    requires |moves| == 3
    requires Edge(c, w, l, false, moves[0].world, moves[0].loc, moves[0].emit)
    requires Edge(c, moves[0].world, moves[0].loc, false, moves[1].world, moves[1].loc, moves[1].emit)
    requires Edge(c, moves[1].world, moves[1].loc, false, moves[2].world, moves[2].loc, moves[2].emit)
    ensures Moves(c, w, l, moves)
    ensures Emitted(moves) == Heard(moves[0]) + Heard(moves[1]) + Heard(moves[2])
  {
    assert moves[1..][1..] == [moves[2]];
    assert Emitted([moves[2]]) == Heard(moves[2]) + Emitted([]);
    assert Moves(c, moves[1].world, moves[1].loc, [moves[2]]);
    assert Emitted(moves[1..]) == Heard(moves[1]) + Emitted(moves[1..][1..]);
  }
}
