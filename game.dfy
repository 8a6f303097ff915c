/**
 * The match loop of main.py (class Main): a timer tick calls step, which lets
 * the player to move think, then move, and once the board shows a result
 * scores the match, trains both players and starts the next one. The O player
 * sees the board as it is; the X player sees it inverted, so both learn to
 * play O. The delay of the speed slider and the random draws of the players
 * are inputs; saving progress to disk is left out.
 *
 * Each method of Game is proved against a function on a snapshot of the
 * game's state; what a whole sequence of ticks keeps (the match invariant) is
 * proved about those functions.
 */
module Games {
  import opened Options
  import opened Boards
  import opened Agents

  /** What a player's panel shows. */
  datatype Status = Ready | Thinking | Waiting | Won | Lost | Tied

  /** Everything a tick reads or changes, as a value. */
  datatype GameState = GameState(
    id: Id, o: Player, x: Player,
    start: int, turn: int, thinking: bool, checking: bool,
    xWins: nat, oWins: nat, ties: nat,
    stateO: Status, stateX: Status)

  // ---------------------------------------------------------------------------
  // One tick, as functions of the state
  // ---------------------------------------------------------------------------

  /** The state Main() starts in: an empty board, fresh players, the random opener to move. */
  function Initial(opener: Mark, netO: Net, netX: Net): GameState
  {
    GameState(EMPTY, Player(netO, 1.0, []), Player(netX, 1.0, []),
              opener, opener, true, true, 0, 0, 0, Ready, Ready)
  }

  /** What a player's panel shows once the match ends with the given result from its own side. */
  function Verdict(result: int): Status
  {
    if result < 0 then Lost else if result > 0 then Won else Tied
  }

  /** The scoring half of _check: the counter of the result's side (or of ties) goes up and the panels say who won. */
  function Counted(s: GameState, result: int): GameState
  {
    s.(xWins := if result < 0 then s.xWins + 1 else s.xWins,
       oWins := if result > 0 then s.oWins + 1 else s.oWins,
       ties := if result == 0 then s.ties + 1 else s.ties,
       stateO := Verdict(result), stateX := Verdict(-result))
  }

  /** _check: the match is counted, then O trains on the result and X on its negation. */
  function Scored(s: GameState, result: int, learn: Learner): GameState
    requires |s.o.experience| > 0 && |s.x.experience| > 0
  {
    var c := Counted(s, result);
    c.(o := AfterTrain(s.o, result, learn), x := AfterTrain(s.x, -result, learn), checking := false)
  }

  /**
   * Scoring adds exactly one to exactly one counter, the one of the result's
   * sign, and the two panels tell opposite stories (or both say tied).
   */
  lemma CountedOnce(s: GameState, result: int)
    ensures var c := Counted(s, result);
      c.xWins + c.oWins + c.ties == s.xWins + s.oWins + s.ties + 1
      && (c.xWins > s.xWins <==> result < 0)
      && (c.oWins > s.oWins <==> result > 0)
      && (c.ties > s.ties <==> result == 0)
      && (c.stateO == Won <==> c.stateX == Lost)
      && (c.stateO == Lost <==> c.stateX == Won)
      && (c.stateO == Tied <==> c.stateX == Tied)
      && c.stateO in {Won, Lost, Tied}
  {
  }

  /**
   * _move: on turn +1 O plays on the board and +1 is placed; on turn -1 X
   * plays on the inverted board and -1 is placed on the real one. The turn
   * passes and the next tick thinks.
   */
  function Played(s: GameState, coin: real, draws: seq<Action>): GameState
    requires Hits(s.id, draws)
  {
    if s.turn == 1 then
      var a := Chosen(s.o.net, s.o.epsilon, s.id, coin, draws);
      s.(id := Placed(s.id, a.row, a.column, 1), o := AfterMove(s.o, s.id, coin, draws),
         turn := -s.turn, thinking := true)
    else if s.turn == -1 then
      InvertedHits(s.id, draws);
      var seen := Inverted(s.id);
      var a := Chosen(s.x.net, s.x.epsilon, seen, coin, draws);
      s.(id := Placed(s.id, a.row, a.column, -1), x := AfterMove(s.x, seen, coin, draws),
         turn := -s.turn, thinking := true)
    else
      s.(turn := -s.turn, thinking := true)
  }

  /** _reset: an empty board, the other player opens, and the next result will be scored. */
  function Restarted(s: GameState): GameState
  {
    s.(id := EMPTY, start := -s.start, turn := -s.start, checking := true)
  }

  /** _think: with a non-zero delay the panels show who is thinking and the next tick moves. */
  function Thought(s: GameState, delay: real): GameState
  {
    if delay == 0.0 then s
    else if s.turn == 1 then s.(stateO := Thinking, stateX := Waiting, thinking := false)
    else s.(stateO := Waiting, stateX := Thinking, thinking := false)
  }

  /** What a tick needs of its inputs: draws that reach an empty cell, and moves to train on. */
  predicate CanTick(s: GameState, draws: seq<Action>)
  {
    (Result(s.id) == None && !s.thinking ==> Hits(s.id, draws))
    && (Result(s.id).Some? && s.checking ==> |s.o.experience| > 0 && |s.x.experience| > 0)
  }

  /**
   * _step: while the game goes on, think or move; once it is over, score the
   * match on the first tick and start the next match on the one after.
   */
  function Ticked(s: GameState, delay: real, coin: real, draws: seq<Action>, learn: Learner): GameState
    requires CanTick(s, draws)
  {
    match Result(s.id)
    case None => if s.thinking then Thought(s, delay) else Played(s, coin, draws)
    case Some(r) => if s.checking then Scored(s, r, learn) else Restarted(s)
  }

  // ---------------------------------------------------------------------------
  // The game object
  // ---------------------------------------------------------------------------

  class Game {
    var board: Board
    var o: VI
    var x: VI
    var start: int
    var turn: int
    var thinking: bool
    var checking: bool
    var xWins: nat
    var oWins: nat
    var ties: nat
    var stateO: Status
    var stateX: Status

    /** The two players are distinct objects. */
    ghost predicate Valid()
      reads this
    {
      o != x
    }

    function State(): GameState
      reads this, board, o, x
    {
      GameState(board.id, o.Snapshot(), x.Snapshot(), start, turn, thinking, checking,
                xWins, oWins, ties, stateO, stateX)
    }

    /** Main(): the opener is the random choice of -1 or +1, the networks are fresh ones. */
    constructor (opener: Mark, netO: Net, netX: Net)
      ensures Valid() && State() == Initial(opener, netO, netX)
      ensures fresh(board) && fresh(o) && fresh(x)
    {
      stateO, stateX := Ready, Ready;
      xWins, oWins, ties := 0, 0, 0;
      board := new Board();
      o := new VI(netO);
      x := new VI(netX);
      start := opener;
      turn := start;
      thinking := true;
      checking := true;
    }

    /** The scoring half of _check. */
    method Count(result: int)
      requires Valid()
      modifies this
      ensures Valid() && board == old(board) && o == old(o) && x == old(x)
      ensures State() == Counted(old(State()), result)
    {
      if result < 0 {
        xWins := xWins + 1;
        stateO, stateX := Lost, Won;
      } else if result > 0 {
        oWins := oWins + 1;
        stateO, stateX := Won, Lost;
      } else {
        ties := ties + 1;
        stateO, stateX := Tied, Tied;
      }
    }

    /** _check. */
    method Check(result: int, learn: Learner)
      requires Valid() && |o.experience| > 0 && |x.experience| > 0
      modifies this, o, x
      ensures Valid() && board == old(board) && o == old(o) && x == old(x)
      ensures State() == Scored(old(State()), result, learn)
    {
      Count(result);
      var _ := o.Train(result, learn);
      var _ := x.Train(-result, learn);
      checking := false;
    }

    /** _move. */
    method Move(coin: real, draws: seq<Action>)
      requires Valid() && Hits(board.id, draws)
      modifies this, board, o, x
      ensures Valid() && board == old(board) && o == old(o) && x == old(x)
      ensures State() == Played(old(State()), coin, draws)
    {
      if turn == 1 {
        var action := o.Move(board.id, coin, draws);
        board.Set(action.row, action.column, 1);
      } else if turn == -1 {
        var seen := board.Invert();
        InvertedHits(board.id, draws);
        var action := x.Move(seen.id, coin, draws);
        board.Set(action.row, action.column, -1);
      }
      turn := -turn;
      thinking := true;
    }

    /** _reset. */
    method Reset()
      requires Valid()
      modifies this, board
      ensures Valid() && board == old(board) && o == old(o) && x == old(x)
      ensures State() == Restarted(old(State()))
    {
      board.Clear();
      start := -start;
      turn := start;
      checking := true;
    }

    /** _think, with delay() as an input. */
    method Think(delay: real)
      requires Valid()
      modifies this
      ensures Valid() && board == old(board) && o == old(o) && x == old(x)
      ensures State() == Thought(old(State()), delay)
    {
      if delay != 0.0 {
        if turn == 1 {
          stateO, stateX := Thinking, Waiting;
        } else {
          stateO, stateX := Waiting, Thinking;
        }
        thinking := false;
      }
    }

    /** _step, one timer tick. */
    method Step(delay: real, coin: real, draws: seq<Action>, learn: Learner)
      requires Valid() && CanTick(State(), draws)
      modifies this, board, o, x
      ensures Valid() && board == old(board) && o == old(o) && x == old(x)
      ensures State() == Ticked(old(State()), delay, coin, draws, learn)
    {
      var result := Result(board.id);
      if result == None {
        if thinking {
          Think(delay);
        } else {
          Move(coin, draws);
        }
      } else {
        if checking {
          Check(result.value, learn);
        } else {
          Reset();
        }
      }
    }
  }

  // ---------------------------------------------------------------------------
  // The match invariant
  // ---------------------------------------------------------------------------

  /**
   * The moves a player has recorded in the current match when the board holds
   * n marks: ceil(n / 2) for the player who opened it, floor(n / 2) for the
   * other, the t-th of them on a board with 2t marks (opener) or 2t + 1 marks.
   */
  ghost predicate Recorded(e: seq<Entry>, n: nat, opener: bool)
  {
    |e| == (if opener then (n + 1) / 2 else n / 2)
    && forall t :: 0 <= t < |e| ==> MarkCount(e[t].board) == 2 * t + (if opener then 0 else 1)
  }

  /**
   * The board part of what every tick keeps: a legal board, an opener of -1
   * or +1, and the player to move given by the opener and the parity of the
   * number of marks.
   */
  ghost predicate Turns(id: Id, start: int, turn: int)
  {
    (start == -1 || start == 1)
    && Valid(id)
    && turn == (if MarkCount(id) % 2 == 0 then start else -start)
  }

  /**
   * What every tick keeps: the board part; until the match is scored, one
   * recorded move per move made by each player; once it is scored, nothing
   * recorded until the next match starts.
   */
  ghost predicate Inv(s: GameState)
  {
    Turns(s.id, s.start, s.turn)
    && (s.checking ==> Recorded(s.o.experience, MarkCount(s.id), s.start == 1)
                       && Recorded(s.x.experience, MarkCount(s.id), s.start == -1))
    && (!s.checking ==> Result(s.id).Some? && s.o.experience == [] && s.x.experience == [])
  }

  /** X sees a cell as empty exactly when it is empty on the real board. */
  lemma InvertedHits(id: Id, draws: seq<Action>)
    requires Hits(id, draws)
    ensures Hits(Inverted(id), draws)
  {
    var k :| 0 <= k < |draws| && Free(id, draws[k]);
    InvertGet(id, draws[k].row, draws[k].column);
    assert Free(Inverted(id), draws[k]);
  }

  /** The game starts in a state that keeps the invariant. */
  lemma InitialInv(opener: Mark, netO: Net, netX: Net)
    ensures Inv(Initial(opener, netO, netX))
  {
    EmptyBoard();
    EmptyCount();
  }

  /**
   * Under the invariant every tick can run: while the game goes on some cell
   * is empty (so a random draw can find one), and once it is over both
   * players have recorded a move, so neither train divides by zero.
   */
  lemma InvCanTick(s: GameState)
    requires Inv(s)
    ensures Result(s.id) == None ==> exists i: Index, j: Index :: Get(s.id, i, j) == 0
    ensures Result(s.id).Some? && s.checking ==> |s.o.experience| > 0 && |s.x.experience| > 0
  {
    if Result(s.id) == None {
      OpenCell(s.id);
    } else {
      FinishedCount(s.id);
    }
  }

  /** A tick keeps the invariant. */
  lemma TickedInv(s: GameState, delay: real, coin: real, draws: seq<Action>, learn: Learner)
    requires Inv(s) && (Result(s.id) == None && !s.thinking ==> Hits(s.id, draws))
    ensures CanTick(s, draws) && Inv(Ticked(s, delay, coin, draws, learn))
  {
    InvCanTick(s);
    match Result(s.id)
    case None =>
      if !s.thinking {
        PlayedInv(s, coin, draws);
      }
    case Some(r) =>
      if s.checking {
        ScoredInv(s, r, learn);
      } else {
        RestartedInv(s);
      }
  }

  /** Scoring a finished match keeps the invariant: the record is emptied for the next one. */
  lemma ScoredInv(s: GameState, result: int, learn: Learner)
    requires Turns(s.id, s.start, s.turn) && Result(s.id).Some?
    requires |s.o.experience| > 0 && |s.x.experience| > 0
    ensures Inv(Scored(s, result, learn))
  {
  }

  /** Starting the next match keeps the invariant: no mark, nothing recorded, the new opener to move. */
  lemma RestartedInv(s: GameState)
    requires (s.start == -1 || s.start == 1) && s.o.experience == [] && s.x.experience == []
    ensures Inv(Restarted(s))
  {
    EmptyBoard();
    EmptyCount();
  }

  /**
   * A move keeps the invariant: the mover's mark lands on an empty cell, the
   * board gains one mark, and the mover's record gains the board it saw as a
   * new last entry.
   */
  lemma PlayedInv(s: GameState, coin: real, draws: seq<Action>)
    requires Inv(s) && Result(s.id) == None && Hits(s.id, draws)
    ensures Inv(Played(s, coin, draws))
  {
    if s.turn == 1 {
      PlayedByO(s, coin, draws);
    } else {
      PlayedByX(s, coin, draws);
    }
  }

  /** O's move: O records the board itself and +1 lands on the cell it chose. */
  lemma PlayedByO(s: GameState, coin: real, draws: seq<Action>)
    requires Inv(s) && s.checking && s.turn == 1 && Hits(s.id, draws)
    ensures Inv(Played(s, coin, draws))
  {
    var a := Chosen(s.o.net, s.o.epsilon, s.id, coin, draws);
    ChosenFree(s.o.net, s.o.epsilon, s.id, coin, draws);
    MoveTurns(s.id, s.start, s.turn, a.row, a.column, 1);
    MoveRecords(s.o.experience, s.x.experience, s.id, a, MarkCount(s.id), s.start == 1);
  }

  /** X's move: X records the inverted board and -1 lands on the cell it chose there. */
  lemma PlayedByX(s: GameState, coin: real, draws: seq<Action>)
    requires Inv(s) && s.checking && s.turn == -1 && Hits(s.id, draws)
    ensures Inv(Played(s, coin, draws))
  {
    InvertedHits(s.id, draws);
    var seen := Inverted(s.id);
    var a := Chosen(s.x.net, s.x.epsilon, seen, coin, draws);
    ChosenFree(s.x.net, s.x.epsilon, seen, coin, draws);
    InvertedCount(s.id);
    InvertGet(s.id, a.row, a.column);
    MoveTurns(s.id, s.start, s.turn, a.row, a.column, -1);
    MoveRecords(s.x.experience, s.o.experience, seen, a, MarkCount(s.id), s.start == -1);
  }

  /** A mark on an empty cell keeps the board legal, adds one mark and passes the turn. */
  lemma MoveTurns(id: Id, start: int, turn: int, i: Index, j: Index, xo: Mark)
    requires Turns(id, start, turn) && Get(id, i, j) == 0
    ensures Turns(Placed(id, i, j, xo), start, -turn)
    ensures MarkCount(Placed(id, i, j, xo)) == MarkCount(id) + 1
  {
    PlacedValid(id, i, j, xo);
    PlacedCount(id, i, j, xo);
    NextParity(MarkCount(id), start, turn);
  }

  /** A legal board stays legal when a mark is placed. */
  lemma PlacedValid(id: Id, i: Index, j: Index, xo: Mark)
    requires Valid(id)
    ensures Valid(Placed(id, i, j, xo))
  {
    SetGet(id, i, j, xo);
  }

  /** One more mark hands the turn to the other player. */
  lemma NextParity(n: nat, start: int, turn: int)
    requires turn == (if n % 2 == 0 then start else -start)
    ensures -turn == (if (n + 1) % 2 == 0 then start else -start)
  {
  }

  /**
   * The mover records the board with n marks it played on as a new last
   * entry; both records then fit a board with n + 1 marks.
   */
  lemma MoveRecords(mover: seq<Entry>, other: seq<Entry>, b: Id, a: Action, n: nat, opens: bool)
    requires Recorded(mover, n, opens) && Recorded(other, n, !opens)
    requires MarkCount(b) == n && n % 2 == (if opens then 0 else 1)
    ensures Recorded(Insert(mover, b, a), n + 1, opens) && Recorded(other, n + 1, !opens)
  {
    NewestBoard(mover, n, opens, b);
    Appended(Insert(mover, b, a), mover, n, opens, b, a);
  }

  /** A board with the next number of marks is not yet recorded. */
  lemma NewestBoard(e: seq<Entry>, n: nat, opener: bool, b: Id)
    requires Recorded(e, n, opener) && MarkCount(b) == n
    ensures Lookup(e, b) == None
  {
    forall t | 0 <= t < |e| ensures e[t].board != b {
    }
    LookupMissing(e, b);
  }

  /** Recording the move made on a board with n marks gives the record for n + 1 marks. */
  lemma Appended(e: seq<Entry>, e0: seq<Entry>, n: nat, opener: bool, b: Id, a: Action)
    requires Recorded(e0, n, opener) && MarkCount(b) == n && Lookup(e0, b) == None
    requires e == Insert(e0, b, a)
    requires n % 2 == (if opener then 0 else 1)
    ensures Recorded(e, n + 1, opener)
  {
    InsertOrder(e0, b, a);
  }
}
