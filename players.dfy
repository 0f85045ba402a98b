/**
 * The players of players.py: the score every player starts with and loses
 * per move, and the three kinds of player. A human makes the move it was
 * told to make; the computer player makes the next free move in a fixed
 * order of the cells. The subclasses of Player are modelled by composition:
 * Human and AI each hold a Player with the name, score and penalty.
 */
module Players {
  import opened Wrappers
  import opened Geometry
  import opened Games

  /**
   * round(n, -1) on an integer: the nearest multiple of ten, and on a tie
   * the one whose tens digit is even.
   */
  function RoundToTens(n: int): (r: int)
    ensures r % 10 == 0 && -5 <= n - r <= 5
    ensures (n - r == 5 || n - r == -5) ==> (r / 10) % 2 == 0
  {
    var q, m := n / 10, n % 10;
    if m < 5 || (m == 5 && q % 2 == 0) then 10 * q else 10 * (q + 1)
  }

  /** The contract of RoundToTens leaves no other choice. */
  lemma RoundToTensUnique(n: int, r: int)
    requires r % 10 == 0 && -5 <= n - r <= 5
    requires (n - r == 5 || n - r == -5) ==> (r / 10) % 2 == 0
    ensures r == RoundToTens(n)
  {
    var r0 := RoundToTens(n);
    assert r == 10 * (r / 10) && r0 == 10 * (r0 / 10);
    assert -10 <= r - r0 <= 10;
  }

  /** The score a player starts with on a board of the given size. */
  function InitialScore(size: nat): (r: int)
    ensures r >= 100 && r >= 5 * RoundToTens(size * size)
    ensures r == 100 || r == 5 * RoundToTens(size * size)
  {
    var fromBoard := 5 * RoundToTens(size * size);
    if fromBoard > 100 then fromBoard else 100
  }

  /**
   * Starting scores: 100 below a board of about twenty cells, five times
   * the rounded cell count above it, the rounding taking ties to an even
   * tens digit (225 cells round to 220, 25 to 20, 35 to 40).
   */
  lemma InitialScoreExamples()
    ensures InitialScore(1) == 100 && InitialScore(4) == 100 && InitialScore(5) == 100
    ensures InitialScore(7) == 250 && InitialScore(10) == 500 && InitialScore(15) == 1100
    ensures RoundToTens(35) == 40
  {
  }

  /** take_penalty: the score drops by the penalty, but not below zero. */
  function Penalized(score: int, penalty: int): (r: int)
    ensures r >= 0 && r >= score - penalty
    ensures r == 0 || r == score - penalty
  {
    if score - penalty > 0 then score - penalty else 0
  }

  /** A penalty never raises a score and never leaves it negative. */
  lemma PenaltyLowers(score: int, penalty: int)
    requires score >= 0 && penalty >= 0
    ensures 0 <= Penalized(score, penalty) <= score
  {
  }

  /** Two penalties in a row cost as much as one penalty of their sum. */
  lemma PenaltiesAdd(score: int, a: int, b: int)
    requires a >= 0 && b >= 0
    ensures Penalized(Penalized(score, a), b) == Penalized(score, a + b)
  {
  }

  /** The penalty of take_penalty when none is given. */
  const DefaultPenalty := 11

  /** Player: a name, a score, and the penalty a move costs. */
  class Player {
    const name: Name
    var score: int
    var penalty: int

    /** Player(name, game) on a game of the given size. */
    constructor (name: Name, size: nat)
      ensures this.name == name && score == InitialScore(size) && penalty == DefaultPenalty
    {
      this.name := name;
      score := InitialScore(size);
      penalty := DefaultPenalty;
    }

    /** Player.make_step: a bare player makes no move. */
    method MakeStep(game: Game, sides: map<Name, Stroke>) returns (r: Option<Game>)
      ensures r == None
    {
      r := None;
    }

    /** take_penalty(penalty). */
    method TakePenalty(penalty: int := DefaultPenalty)
      modifies this`score
      ensures score == Penalized(old(score), penalty)
    {
      score := Penalized(score, penalty);
    }
  }

  /** A human player: makes the move last set with SetStep, once. */
  class Human {
    const player: Player
    /** The move waiting to be made, if any. */
    var step: Option<Coord>

    /** Human(name, game): no pending move, and a move costs 10. */
    constructor (name: Name, size: nat)
      ensures fresh(player) && player.name == name && player.score == InitialScore(size) && player.penalty == 10
      ensures step == None
    {
      var p := new Player(name, size);
      p.penalty := 10;
      player := p;
      step := None;
    }

    /** set_step. */
    method SetStep(step: Option<Coord>)
      modifies this`step
      ensures this.step == step
    {
      this.step := step;
    }

    /**
     * Human.make_step: with a pending move on a free cell, that move is
     * made on game with the stroke sides gives this player, the pending
     * move is dropped and the penalty paid; otherwise nothing happens.
     */
    method MakeStep(game: Game, sides: map<Name, Stroke>) returns (r: Option<Game>)
      requires game.Consistent()
      requires step.Some? ==> step.value in game.owner
      requires step.Some? && game.owner[step.value].None? ==> player.name in sides
      modifies this`step, player`score
      ensures old(step).None? || game.owner[old(step).value].Some? ==>
        r == None && step == old(step) && player.score == old(player.score)
      ensures old(step).Some? && game.owner[old(step).value].None? ==>
        r.Some? && fresh(r.value) && r.value.size == game.size && r.value.layout == game.layout &&
        r.value.player1 == game.player2 && r.value.player2 == game.player1 &&
        r.value.State() == Played(game.layout, game.size, game.State(), old(step).value, game.player1, sides[player.name]) &&
        r.value.Consistent() &&
        step == None && player.score == Penalized(old(player.score), player.penalty)
    {
      if step.None? || game.owner[step.value].Some? {
        return None;
      }
      var t := step.value;
      var stroke := sides[player.name];
      Consume();
      var g := game.MakeStep(t.0, t.1, stroke);
      r := Some(g);
    }

    /** The bookkeeping of a move made: no move is pending any more, and the penalty is paid. */
    method Consume()
      modifies this`step, player`score
      ensures step == None && player.score == Penalized(old(player.score), player.penalty)
    {
      step := None;
      player.TakePenalty(player.penalty);
    }
  }

  /** The position i places after start in a cycle of length n, for start and i below n. */
  function Wrap(n: nat, start: nat, i: nat): (r: nat)
    requires start < n && i < n
    ensures r < n && (r == start + i || r == start + i - n)
  {
    if start + i < n then start + i else start + i - n
  }

  /**
   * The first offset j <= r < |order| at which the cycle through order,
   * resumed at position start, meets a free cell: where AI.make_step stops.
   */
  function FirstFree(order: seq<Coord>, owner: map<Coord, Option<Name>>, start: nat, j: nat): (r: Option<nat>)
    requires forall i :: 0 <= i < |order| ==> order[i] in owner
    requires start < |order| || order == []
    requires j <= |order|
    ensures r.Some? ==> j <= r.value < |order| && owner[order[Wrap(|order|, start, r.value)]].None?
    ensures r.Some? ==> forall i :: j <= i < r.value ==> owner[order[Wrap(|order|, start, i)]].Some?
    ensures r.None? ==> forall i :: j <= i < |order| ==> owner[order[Wrap(|order|, start, i)]].Some?
    decreases |order| - j
  {
    if j == |order| then None
    else if owner[order[Wrap(|order|, start, j)]].None? then Some(j)
    else FirstFree(order, owner, start, j + 1)
  }

  /** The cycle stops somewhere as soon as some cell of order is free, wherever it resumes. */
  lemma FirstFreeFinds(order: seq<Coord>, owner: map<Coord, Option<Name>>, start: nat, k: nat)
    requires forall i :: 0 <= i < |order| ==> order[i] in owner
    requires start < |order|
    requires k < |order| && owner[order[k]].None?
    ensures FirstFree(order, owner, start, 0).Some?
  {
    var n := |order|;
    var i := if k >= start then k - start else k + n - start;
    assert Wrap(n, start, i) == k;
  }

  /**
   * The computer player: cycles through a fixed order of the cells (the
   * shuffled cell list of the source) and plays the first free one.
   */
  class AI {
    const player: Player
    const order: seq<Coord>
    /** The position in order where the cycle resumes. */
    var cursor: nat

    /** The cursor points into order. */
    ghost predicate Valid()
      reads this`cursor
    {
      cursor < |order| || (order == [] && cursor == 0)
    }

    /** AI(name, game): the cycle starts at the beginning of order, an ordering of the game's cells. */
    constructor (name: Name, game: Game, order: seq<Coord>)
      requires forall c :: c in order <==> c in game.owner
      requires forall i, j :: 0 <= i < j < |order| ==> order[i] != order[j]
      ensures fresh(player) && player.name == name && player.score == InitialScore(game.size)
      ensures player.penalty == DefaultPenalty
      ensures this.order == order && cursor == 0 && Valid()
    {
      player := new Player(name, game.size);
      this.order := order;
      cursor := 0;
    }

    /**
     * AI.make_step: the cycle resumes at cursor and stops at the first
     * free cell, which is played on game with the stroke sides gives this
     * player, after the default penalty is paid; the cycle then resumes
     * just after that cell. Without a free cell there is no move.
     */
    method MakeStep(game: Game, sides: map<Name, Stroke>) returns (r: Option<Game>)
      requires Valid() && game.Consistent()
      requires forall i :: 0 <= i < |order| ==> order[i] in game.owner
      requires FirstFree(order, game.owner, cursor, 0).Some? ==> player.name in sides
      modifies this`cursor, player`score
      ensures Valid()
      ensures var k := FirstFree(order, game.owner, old(cursor), 0);
        k.None? ==> r == None && cursor == old(cursor) && player.score == old(player.score)
      ensures var k := FirstFree(order, game.owner, old(cursor), 0);
        k.Some? ==>
          var at := Wrap(|order|, old(cursor), k.value);
          r.Some? && fresh(r.value) && r.value.size == game.size && r.value.layout == game.layout &&
          r.value.player1 == game.player2 && r.value.player2 == game.player1 &&
          r.value.State() == Played(game.layout, game.size, game.State(), order[at], game.player1, sides[player.name]) &&
          r.value.Consistent() &&
          cursor == (if at + 1 < |order| then at + 1 else 0) &&
          player.score == Penalized(old(player.score), DefaultPenalty)
    {
      var k := Search(game);
      if k.None? {
        return None;
      }
      var at := Wrap(|order|, cursor, k.value);
      var stroke := sides[player.name];
      Advance(at);
      player.TakePenalty();
      var g := game.MakeStep(order[at].0, order[at].1, stroke);
      r := Some(g);
    }

    /** The cycle moves on to the cell after position at. */
    method Advance(at: nat)
      requires at < |order|
      modifies this`cursor
      ensures cursor == (if at + 1 < |order| then at + 1 else 0) && Valid()
    {
      cursor := if at + 1 < |order| then at + 1 else 0;
    }

    /** The loop of AI.make_step: the offset from cursor of the first free cell of order. */
    method Search(game: Game) returns (k: Option<nat>)
      requires Valid()
      requires forall i :: 0 <= i < |order| ==> order[i] in game.owner
      ensures k == FirstFree(order, game.owner, cursor, 0)
    {
      var n := |order|;
      var j := 0;
      while j < n
        invariant 0 <= j <= n
        invariant FirstFree(order, game.owner, cursor, 0) == FirstFree(order, game.owner, cursor, j)
      {
        if game.owner[order[Wrap(n, cursor, j)]].None? {
          return Some(j);
        }
        j := j + 1;
      }
      return None;
    }
  }

  /** What create_player returns. */
  datatype AnyPlayer = HumanPlayer(human: Human) | ComputerPlayer(ai: AI)

  /** create_player: the computer player exactly for the choice "AI", a human for any other. */
  method CreatePlayer(name: Name, choice: string, game: Game, order: seq<Coord>) returns (p: AnyPlayer)
    requires forall c :: c in order <==> c in game.owner
    requires forall i, j :: 0 <= i < j < |order| ==> order[i] != order[j]
    ensures p.ComputerPlayer? <==> choice == "AI"
    ensures p.HumanPlayer? ==> fresh(p.human) && p.human.player.name == name && p.human.step == None
    ensures p.ComputerPlayer? ==> fresh(p.ai) && p.ai.player.name == name && p.ai.order == order && p.ai.cursor == 0
  {
    if choice == "AI" {
      var ai := new AI(name, game, order);
      p := ComputerPlayer(ai);
    } else {
      var human := new Human(name, game.size);
      p := HumanPlayer(human);
    }
  }
}
