/**
 * The learning player of model.py (class VI) without its neural network. The
 * network is seen only through its predictions (a function from boards to
 * scores) and through the training step, a function from the old network and
 * a batch to the new one; the random draws are inputs. What remains is the
 * choice of a move, the bookkeeping of the moves of a match (an
 * insertion-ordered dictionary from board to action), the reward and the
 * bootstrapped targets built from it, and the decay of the exploration rate.
 */
module Agents {
  import opened Options
  import opened Boards

  /** The three scores one output head gives, one per row (or per column). */
  type Scores = s: seq<real> | |s| == 3 witness [0.0, 0.0, 0.0]

  /** The network's answer for one board: scores for the row and for the column to play. */
  datatype Prediction = Prediction(rows: Scores, columns: Scores)

  /** The network, seen only through its predictions (_predict). */
  type Net = Id -> Prediction

  /** A move: the row and the column of the cell to mark. */
  datatype Action = Action(row: Index, column: Index)

  /** One recorded move: the board the player saw and the action it took. */
  datatype Entry = Entry(board: Id, action: Action)

  /** What _prepare_batch hands to the network: the boards and the targets of each head. */
  datatype Batch = Batch(boards: seq<Grid>, rows: seq<Scores>, columns: seq<Scores>)

  /** train_on_batch: the network after one training step on a batch. */
  type Learner = (Net, Batch) -> Net

  /** The amount train takes off epsilon after every match (1e-4). */
  const DECAY: real := 0.0001

  /** The discount applied to the next move's predicted score (0.9). */
  const DISCOUNT: real := 0.9

  // ---------------------------------------------------------------------------
  // Choosing a move
  // ---------------------------------------------------------------------------

  /** numpy.argmax over three scores: the first index holding the largest one. */
  function Argmax(s: Scores): (k: Index)
    ensures forall t: Index :: s[t] <= s[k]
    ensures forall t: Index :: t < k ==> s[t] < s[k]
  {
    if s[0] >= s[1] && s[0] >= s[2] then 0 else if s[1] >= s[2] then 1 else 2
  }

  /** The greedy action: the best-scored row and the best-scored column. */
  function Greedy(net: Net, board: Id): Action
  {
    Action(Argmax(net(board).rows), Argmax(net(board).columns))
  }

  /** The exploration test of move, `epsilon > 0 and random() < 1 / epsilon`, on the draw coin. */
  predicate Explores(epsilon: real, coin: real)
  {
    epsilon > 0.0 && coin < 1.0 / epsilon
  }

  /** Whether an action points at an empty cell of the board. */
  predicate Free(board: Id, a: Action)
  {
    Get(board, a.row, a.column) == 0
  }

  /** Some draw of the sequence points at an empty cell. */
  predicate Hits(board: Id, draws: seq<Action>)
  {
    exists k :: 0 <= k < |draws| && Free(board, draws[k])
  }

  /** The position of the first draw that points at an empty cell. */
  function FirstHit(board: Id, draws: seq<Action>): (k: nat)
    requires Hits(board, draws)
    ensures k < |draws| && Free(board, draws[k])
    ensures forall t :: 0 <= t < k ==> !Free(board, draws[t])
  {
    if Free(board, draws[0]) then 0
    else
      assert Hits(board, draws[1..]) by {
        var k :| 0 <= k < |draws| && Free(board, draws[k]);
        assert draws[1..][k - 1] == draws[k];
      }
      1 + FirstHit(board, draws[1..])
  }

  /**
   * The action move plays: a random empty cell when the player explores or
   * when the greedy cell is taken, the greedy action otherwise.
   */
  function Chosen(net: Net, epsilon: real, board: Id, coin: real, draws: seq<Action>): Action
    requires Hits(board, draws)
  {
    var greedy := Greedy(net, board);
    if Explores(epsilon, coin) || !Free(board, greedy) then draws[FirstHit(board, draws)] else greedy
  }

  // ---------------------------------------------------------------------------
  // The experience: an insertion-ordered dictionary from board to action
  // ---------------------------------------------------------------------------

  /** The action recorded for a board, if any. */
  function Lookup(e: seq<Entry>, b: Id): Option<Action>
  {
    if |e| == 0 then None
    else if e[0].board == b then Some(e[0].action)
    else Lookup(e[1..], b)
  }

  /** No board is recorded twice. */
  predicate Distinct(e: seq<Entry>)
  {
    forall s, t :: 0 <= s < t < |e| ==> e[s].board != e[t].board
  }

  /** d[b] = a: a recorded board keeps its place and takes the new action, a new one goes last. */
  function Insert(e: seq<Entry>, b: Id, a: Action): (r: seq<Entry>)
  {
    if |e| == 0 then [Entry(b, a)]
    else if e[0].board == b then [Entry(b, a)] + e[1..]
    else [e[0]] + Insert(e[1..], b, a)
  }

  // ---------------------------------------------------------------------------
  // Reward, targets and decay
  // ---------------------------------------------------------------------------

  /** min(1, 3 / n): the reward is scaled down once a match has more than three recorded moves. */
  function Multiplier(n: nat): (m: real)
    requires n > 0
  {
    var q := 3.0 / n as real;
    if q < 1.0 then q else 1.0
  }

  /** The unscaled reward of a result: 0.7 for a tie, 1 for a win, -1 for a loss. */
  function Coefficient(result: int): real
  {
    if result == 0 then 0.7 else if result > 0 then 1.0 else -1.0
  }

  /** _reward: the result's coefficient scaled by min(1, 3 / n) for n recorded moves. */
  function Reward(result: int, n: nat): (r: real)
    requires n > 0
    ensures -1.0 <= r <= 1.0
    ensures r > 0.0 <==> result >= 0
    ensures n <= 3 ==> r == Coefficient(result)
    ensures n >= 3 ==> r * n as real == 3.0 * Coefficient(result)
  {
    MultiplierValue(n);
    if result == 0 then 0.7 * Multiplier(n)
    else if result > 0 then 1.0 * Multiplier(n)
    else -1.0 * Multiplier(n)
  }

  lemma MultiplierValue(n: nat)
    requires n > 0
    ensures 0.0 < Multiplier(n) <= 1.0
    ensures n <= 3 ==> Multiplier(n) == 1.0
    ensures n >= 3 ==> Multiplier(n) * n as real == 3.0
  {
  }

  /**
   * The targets for the t-th recorded move: the network's prediction for its
   * board, with the taken row and column replaced by the discounted prediction
   * for the next recorded move, or by the reward for the last one.
   */
  function Target(net: Net, items: seq<Entry>, t: nat, reward: real): Prediction
    requires t < |items|
  {
    var p := net(items[t].board);
    var a := items[t].action;
    if t + 1 < |items| then
      var q := net(items[t + 1].board);
      var b := items[t + 1].action;
      Prediction(p.rows[a.row := DISCOUNT * q.rows[b.row]], p.columns[a.column := DISCOUNT * q.columns[b.column]])
    else
      Prediction(p.rows[a.row := reward], p.columns[a.column := reward])
  }

  /** The batch for a match: one board and one target pair per recorded move, in order. */
  function BatchOf(net: Net, items: seq<Entry>, result: int): Batch
    requires |items| > 0
  {
    var reward := Reward(result, |items|);
    Batch(seq(|items|, t requires 0 <= t < |items| => AsArray(items[t].board)),
          seq(|items|, t requires 0 <= t < |items| => Target(net, items, t, reward).rows),
          seq(|items|, t requires 0 <= t < |items| => Target(net, items, t, reward).columns))
  }

  /** max(epsilon - 1e-4, 0). */
  function Decay(epsilon: real): real
  {
    if epsilon - DECAY > 0.0 then epsilon - DECAY else 0.0
  }

  /** epsilon after k matches. */
  function Decayed(epsilon: real, k: nat): real
    decreases k
  {
    if k == 0 then epsilon else Decayed(Decay(epsilon), k - 1)
  }

  // ---------------------------------------------------------------------------
  // The player
  // ---------------------------------------------------------------------------

  /** What a VI holds, as a value: its network, epsilon and the moves recorded this match. */
  datatype Player = Player(net: Net, epsilon: real, experience: seq<Entry>)

  /** The player after move on a board: the chosen action is recorded for that board. */
  function AfterMove(p: Player, board: Id, coin: real, draws: seq<Action>): Player
    requires Hits(board, draws)
  {
    p.(experience := Insert(p.experience, board, Chosen(p.net, p.epsilon, board, coin, draws)))
  }

  /** The player after train: one training step on the batch, epsilon decayed, nothing recorded. */
  function AfterTrain(p: Player, result: int, learn: Learner): Player
    requires |p.experience| > 0
  {
    Player(learn(p.net, BatchOf(p.net, p.experience, result)), Decay(p.epsilon), [])
  }

  /** A VI player: its network, its exploration rate and the moves of the current match. */
  class VI {
    var net: Net
    var epsilon: real
    var experience: seq<Entry>

    /** A fresh player: epsilon 1 and nothing recorded (no saved progress is loaded). */
    constructor (net0: Net)
      ensures net == net0 && epsilon == 1.0 && experience == []
    {
      net := net0;
      epsilon := 1.0;
      experience := [];
    }

    /** The player's state as a value. */
    function Snapshot(): Player
      reads this
    {
      Player(net, epsilon, experience)
    }

    /** The recorded boards are distinct, as the keys of a dictionary are. */
    predicate Valid()
      reads this
    {
      Distinct(experience)
    }

    /**
     * move: the chosen action, recorded for the board. The draws stand for
     * the random source: coin for random() and draws for the pairs of
     * randrange(3) that _randomize takes.
     */
    method Move(board: Id, coin: real, draws: seq<Action>) returns (action: Action)
      requires Hits(board, draws)
      modifies this
      ensures old(Valid()) ==> Valid()
      ensures action == Chosen(old(net), old(epsilon), board, coin, draws)
      ensures Free(board, action)
      ensures Snapshot() == AfterMove(old(Snapshot()), board, coin, draws)
    {
      action := Greedy(net, board);
      if Explores(epsilon, coin) || Get(board, action.row, action.column) != 0 {
        action := Randomize(board, draws);
      }
      if Valid() {
        InsertDistinct(experience, board, action);
      }
      experience := Insert(experience, board, action);
    }

    /** _prepare_batch: the batch for the recorded moves; the record is emptied. */
    method PrepareBatch(result: int) returns (batch: Batch)
      requires |experience| > 0
      modifies this
      ensures batch == BatchOf(net, old(experience), result)
      ensures experience == []
      ensures net == old(net) && epsilon == old(epsilon)
    {
      var reward := Reward(result, |experience|);
      var items := experience;
      experience := [];
      var boards := seq(|items|, t requires 0 <= t < |items| => AsArray(items[t].board));
      var y0: seq<Scores> := [];
      var y1: seq<Scores> := [];
      var t := 0;
      while t < |items| - 1
        invariant 0 <= t <= |items| - 1
        invariant |y0| == t && |y1| == t
        invariant forall s :: 0 <= s < t ==> y0[s] == Target(net, items, s, reward).rows
        invariant forall s :: 0 <= s < t ==> y1[s] == Target(net, items, s, reward).columns
      {
        var before, after := items[t], items[t + 1];
        var prediction := net(before.board);
        y0 := y0 + [prediction.rows];
        y1 := y1 + [prediction.columns];
        prediction := net(after.board);
        y0 := y0[t := y0[t][before.action.row := DISCOUNT * prediction.rows[after.action.row]]];
        y1 := y1[t := y1[t][before.action.column := DISCOUNT * prediction.columns[after.action.column]]];
        t := t + 1;
      }
      var last := items[|items| - 1];
      var prediction := net(last.board);
      y0 := y0 + [prediction.rows];
      y1 := y1 + [prediction.columns];
      y0 := y0[t := y0[t][last.action.row := reward]];
      y1 := y1[t := y1[t][last.action.column := reward]];
      batch := Batch(boards, y0, y1);
    }

    /** train: one training step on the match's batch, then epsilon decays. */
    method Train(result: int, learn: Learner) returns (batch: Batch)
      requires |experience| > 0
      modifies this
      ensures batch == BatchOf(old(net), old(experience), result)
      ensures Snapshot() == AfterTrain(old(Snapshot()), result, learn)
      ensures Valid()
    {
      batch := PrepareBatch(result);
      net := learn(net, batch);
      epsilon := Decay(epsilon);
    }
  }

  /** _randomize: the first draw that points at an empty cell. */
  method Randomize(board: Id, draws: seq<Action>) returns (action: Action)
    requires Hits(board, draws)
    ensures action == draws[FirstHit(board, draws)]
  {
    ghost var hit := FirstHit(board, draws);
    var found: Option<Action> := None;
    var k := 0;
    while found.None? || Get(board, found.value.row, found.value.column) != 0
      invariant 0 <= k <= hit + 1
      invariant found == if k == 0 then None else Some(draws[k - 1])
      decreases |draws| - k
    {
      found := Some(draws[k]);
      k := k + 1;
    }
    action := found.value;
  }

  // ---------------------------------------------------------------------------
  // Properties
  // ---------------------------------------------------------------------------

  /** The first largest score is the only index that is largest and beats every earlier one. */
  lemma ArgmaxUnique(s: Scores, k: Index)
    requires forall t: Index :: s[t] <= s[k]
    requires forall t: Index :: t < k ==> s[t] < s[k]
    ensures k == Argmax(s)
  {
  }

  /** move always plays an empty cell, and a random one exactly when the test or the greedy cell says so. */
  lemma ChosenFree(net: Net, epsilon: real, board: Id, coin: real, draws: seq<Action>)
    requires Hits(board, draws)
    ensures Free(board, Chosen(net, epsilon, board, coin, draws))
  {
  }

  /**
   * While 0 < epsilon <= 1, 1 / epsilon >= 1 > random(), so move always
   * takes the random branch, whatever the network says.
   */
  lemma AlwaysExplores(net: Net, epsilon: real, board: Id, coin: real, draws: seq<Action>)
    requires 0.0 < epsilon <= 1.0 && 0.0 <= coin < 1.0 && Hits(board, draws)
    ensures Explores(epsilon, coin)
    ensures Chosen(net, epsilon, board, coin, draws) == draws[FirstHit(board, draws)]
  {
    assert 1.0 / epsilon >= 1.0 by {
      assert (1.0 / epsilon) * epsilon == 1.0;
    }
  }

  /** With epsilon 0 the greedy action is kept exactly when its cell is empty. */
  lemma GreedyWhenSettled(net: Net, board: Id, coin: real, draws: seq<Action>)
    requires Hits(board, draws)
    ensures Chosen(net, 0.0, board, coin, draws) == Greedy(net, board) <==> Free(board, Greedy(net, board))
  {
  }

  /** Looking up a board that is not recorded finds nothing. */
  lemma {:induction false} LookupMissing(e: seq<Entry>, b: Id)
    requires forall t :: 0 <= t < |e| ==> e[t].board != b
    ensures Lookup(e, b) == None
  {
    if |e| > 0 {
      LookupMissing(e[1..], b);
    }
  }

  /** After d[b] = a the dictionary sends b to a and every other board where it sent it before. */
  lemma {:induction false} InsertLookup(e: seq<Entry>, b: Id, a: Action, c: Id)
    ensures Lookup(Insert(e, b, a), c) == if c == b then Some(a) else Lookup(e, c)
  {
    if |e| > 0 && e[0].board != b {
      InsertLookup(e[1..], b, a, c);
    }
  }

  /** A new board goes last; a recorded one keeps every entry's place. */
  lemma {:induction false} InsertOrder(e: seq<Entry>, b: Id, a: Action)
    ensures Lookup(e, b) == None ==> Insert(e, b, a) == e + [Entry(b, a)]
    ensures Lookup(e, b) != None ==> |Insert(e, b, a)| == |e|
    ensures Lookup(e, b) != None ==> forall t :: 0 <= t < |e| ==> Insert(e, b, a)[t].board == e[t].board
  {
    if |e| > 0 && e[0].board != b {
      InsertOrder(e[1..], b, a);
      assert e == [e[0]] + e[1..];
    }
  }

  /** d[b] = a keeps the recorded boards distinct. */
  lemma {:induction false} InsertDistinct(e: seq<Entry>, b: Id, a: Action)
    requires Distinct(e)
    ensures Distinct(Insert(e, b, a))
  {
    if |e| > 0 && e[0].board != b {
      InsertDistinct(e[1..], b, a);
      var r := Insert(e[1..], b, a);
      forall t | 0 <= t < |r| ensures r[t].board != e[0].board {
        InsertKeys(e[1..], b, a, t);
      }
    }
  }

  /** Every board of the dictionary after d[b] = a is b or was recorded before. */
  lemma {:induction false} InsertKeys(e: seq<Entry>, b: Id, a: Action, t: nat)
    requires t < |Insert(e, b, a)|
    ensures Insert(e, b, a)[t].board == b || exists s :: 0 <= s < |e| && e[s].board == Insert(e, b, a)[t].board
  {
    if |e| > 0 && e[0].board != b && t > 0 {
      InsertKeys(e[1..], b, a, t - 1);
      if Insert(e, b, a)[t].board != b {
        var s :| 0 <= s < |e[1..]| && e[1..][s].board == Insert(e, b, a)[t].board;
        assert e[s + 1].board == Insert(e, b, a)[t].board;
      }
    }
  }

  /**
   * The batch has one board and one target pair per recorded move, in
   * order; each target is the prediction for that board except at the taken
   * row and column, which hold the discounted prediction for the next
   * recorded move at its row and column, or the reward for the last move.
   */
  lemma BatchTargets(net: Net, items: seq<Entry>, result: int, t: nat)
    requires t < |items|
    ensures var batch := BatchOf(net, items, result);
      |batch.boards| == |items| && |batch.rows| == |items| && |batch.columns| == |items|
      && batch.boards[t] == AsArray(items[t].board)
      && (forall r: Index :: r != items[t].action.row ==> batch.rows[t][r] == net(items[t].board).rows[r])
      && (forall c: Index :: c != items[t].action.column ==> batch.columns[t][c] == net(items[t].board).columns[c])
      && (t + 1 < |items| ==>
            batch.rows[t][items[t].action.row] == DISCOUNT * net(items[t + 1].board).rows[items[t + 1].action.row]
            && batch.columns[t][items[t].action.column] == DISCOUNT * net(items[t + 1].board).columns[items[t + 1].action.column])
      && (t + 1 == |items| ==>
            batch.rows[t][items[t].action.row] == Reward(result, |items|)
            && batch.columns[t][items[t].action.column] == Reward(result, |items|))
  {
  }

  /** epsilon after k matches from a non-negative start: max(epsilon - k * 1e-4, 0). */
  lemma {:induction false} DecayedValue(epsilon: real, k: nat)
    requires epsilon >= 0.0
    ensures Decayed(epsilon, k) == if epsilon - k as real * DECAY > 0.0 then epsilon - k as real * DECAY else 0.0
    decreases k
  {
    if k > 0 {
      DecayedValue(Decay(epsilon), k - 1);
    }
  }

  /**
   * From the initial epsilon of 1, epsilon stays in (0, 1] until 10000
   * matches have been trained on, so every move of those matches is random,
   * and it is 0 from then on.
   */
  lemma ExplorationPhase(k: nat)
    ensures k < 10000 ==> 0.0 < Decayed(1.0, k) <= 1.0
    ensures k >= 10000 ==> Decayed(1.0, k) == 0.0
  {
    DecayedValue(1.0, k);
  }
}
