/**
 * What the match loop of main.py keeps beyond its invariant: each player's
 * record has distinct boards, as a dictionary's keys are, and no board the
 * game reaches has a full line for both sides, so result() never has to
 * choose between two winners.
 */
module Outcomes {
  import opened Options
  import opened Boards
  import opened Agents
  import opened Games

  /** Each player's record is a dictionary's items: no board is recorded twice. */
  lemma InvDistinct(s: GameState)
    requires Inv(s)
    ensures Distinct(s.o.experience) && Distinct(s.x.experience)
  {
    if s.checking {
      RecordedDistinct(s.o.experience, MarkCount(s.id), s.start == 1);
      RecordedDistinct(s.x.experience, MarkCount(s.id), s.start == -1);
    }
  }

  /** Recorded boards have different numbers of marks, so they are different boards. */
  lemma RecordedDistinct(e: seq<Entry>, n: nat, opener: bool)
    requires Recorded(e, n, opener)
    ensures Distinct(e)
  {
    forall s, t | 0 <= s < t < |e| ensures e[s].board != e[t].board {
      assert MarkCount(e[s].board) != MarkCount(e[t].board);
    }
  }

  // ---------------------------------------------------------------------------
  // At most one side has a line
  // ---------------------------------------------------------------------------

  /** Not both sides have a full line (the case ResultMeaning leaves open). */
  ghost predicate OneWinner(id: Id)
  {
    !(Wins(AsArray(id), -1) && Wins(AsArray(id), 1))
  }

  /** The empty board, where a game starts, has no line at all. */
  lemma EmptyOneWinner()
    ensures OneWinner(EMPTY) && !Wins(AsArray(EMPTY), -1) && !Wins(AsArray(EMPTY), 1)
  {
    EmptyBoard();
    ResultMeaning(EMPTY);
  }

  /**
   * A mark set while result() is None can give a line to the side that set
   * it only: the other side had none and gains none.
   */
  lemma PlacedOneWinner(id: Id, i: Index, j: Index, xo: Mark)
    requires Result(id) == None
    ensures OneWinner(Placed(id, i, j, xo))
  {
    var other: int := if xo == 1 then -1 else 1;
    ResultMeaning(id);
    PlacedPut(id, i, j, xo);
    if Wins(AsArray(Placed(id, i, j, xo)), other) {
      WinsPut(AsArray(id), i, j, xo, other);
    }
  }

  /** No tick leads to a board on which both sides have a line. */
  lemma OneWinnerKept(s: GameState, delay: real, coin: real, draws: seq<Action>, learn: Learner)
    requires CanTick(s, draws) && OneWinner(s.id)
    ensures OneWinner(Ticked(s, delay, coin, draws, learn).id)
  {
    match Result(s.id)
    case None =>
      if !s.thinking {
        if s.turn == 1 {
          var a := Chosen(s.o.net, s.o.epsilon, s.id, coin, draws);
          PlacedOneWinner(s.id, a.row, a.column, 1);
        } else if s.turn == -1 {
          InvertedHits(s.id, draws);
          var a := Chosen(s.x.net, s.x.epsilon, Inverted(s.id), coin, draws);
          PlacedOneWinner(s.id, a.row, a.column, -1);
        }
      }
    case Some(_) =>
      if !s.checking {
        EmptyOneWinner();
      }
  }
}
