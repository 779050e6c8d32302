/**
 * The game screen's state and its event handlers. A Game holds what the
 * screen keeps between renders (the level index, the program, the shown
 * game state, the shared cancel flag) and the variables of the run that is
 * going on (position, score, stars left). The interpreter walks the program
 * with nested loops and recursive calls that update these fields in place;
 * each method is proved to compute the matching function of Semantics.
 *
 * A timed pause is where other handlers may run. Whether a Reset arrives
 * during each pause, and the stars it draws, is given by `requests`: one
 * entry per pause, in order.
 */
module App {
  import opened Types
  import opened Board
  import opened Levels
  import opened Editor
  import opened Semantics

  class Game {
    var levelIdx: nat
    var blocks: seq<Block>
    var gameState: GameState
    var cancelRequested: bool
    /** For each coming pause of a run, whether a Reset arrives during it, with the stars it draws. */
    var requests: seq<Request>
    // the current run's own variables, shared by the nested walkers
    var curX: int
    var curY: int
    var curScore: int
    var starsLeft: seq<Star>

    predicate Valid()
      reads this
    {
      levelIdx < |LEVELS|
    }

    function CurrentLevel(): Level
      reads this
      requires Valid()
    {
      LEVELS[levelIdx]
    }

    /** The fields a run reads and writes, as the Machine of Semantics. */
    function State(): Machine
      reads this
    {
      Machine(gameState, blocks, curX, curY, curScore, starsLeft, cancelRequested, requests)
    }

    /**
     * The first screen: level 1 at its start with an empty program and the
     * stars of the first render; then the effect that runs once the screen
     * is mounted resets the level, which sets the flag and draws new stars.
     */
    constructor(first: seq<Star>, stars: seq<Star>, schedule: seq<Request>)
      ensures Valid() && levelIdx == 0 && blocks == []
      ensures gameState == StartState(LEVELS[0], stars)
      ensures cancelRequested && requests == schedule
    {
      levelIdx := 0;
      blocks := [];
      gameState := StartState(LEVELS[0], first);
      cancelRequested := false;
      requests := schedule;
      curX, curY, curScore, starsLeft := LEVELS[0].initialX, LEVELS[0].initialY, 0, first;
      new;
      ResetGame(stars);
    }

    // ---------------------------------------------------------------- level control

    /** Stop any run, put the current level back at its start with fresh stars, and clear the program. */
    method ResetGame(stars: seq<Star>)
      requires Valid()
      modifies this`cancelRequested, this`gameState, this`blocks
      ensures cancelRequested
      ensures gameState == StartState(CurrentLevel(), stars)
      ensures blocks == []
    {
      cancelRequested := true;
      gameState := StartState(CurrentLevel(), stars);
      blocks := [];
    }

    /** Go to the next level (after the last, the first), which then starts afresh. */
    method NextLevel(stars: seq<Star>)
      requires Valid()
      modifies this`levelIdx, this`cancelRequested, this`gameState, this`blocks
      ensures Valid() && levelIdx == NextLevelIndex(old(levelIdx))
      ensures cancelRequested
      ensures gameState == StartState(LEVELS[levelIdx], stars)
      ensures blocks == []
    {
      levelIdx := NextLevelIndex(levelIdx);
      ResetGame(stars);
    }

    // ---------------------------------------------------------------- editing

    /** Edits keep every REPEAT count numeric, so the program stays runnable. */
    method AddBlockToWorkspace(kind: BlockType, parentId: Option<string>, id: string)
      modifies this`blocks
      ensures blocks == AddBlock(old(blocks), kind, parentId, id)
      ensures NumericCounts(old(blocks)) ==> NumericCounts(blocks)
    {
      if NumericCounts(blocks) {
        AddKeepsNumeric(blocks, kind, parentId, id);
      }
      blocks := AddBlock(blocks, kind, parentId, id);
    }

    /** The editor sends a number for a REPEAT count and a string for every other field. */
    method UpdateBlockValue(id: string, v: Value)
      modifies this`blocks
      ensures blocks == UpdateValue(old(blocks), id, v)
      ensures NumericCounts(old(blocks)) && (v.Str? ==> NoRepeatWithId(old(blocks), id)) ==> NumericCounts(blocks)
    {
      if NumericCounts(blocks) && (v.Str? ==> NoRepeatWithId(blocks, id)) {
        UpdateKeepsNumeric(blocks, id, v);
      }
      blocks := UpdateValue(blocks, id, v);
    }

    method RemoveBlock(id: string)
      modifies this`blocks
      ensures blocks == Remove(old(blocks), id)
      ensures NumericCounts(old(blocks)) ==> NumericCounts(blocks)
    {
      if NumericCounts(blocks) {
        RemoveKeepsNumeric(blocks, id);
      }
      blocks := Remove(blocks, id);
    }

    // ---------------------------------------------------------------- running

    /** Run the program, unless a run is already going on. */
    method ExecuteCode()
      requires Valid() && NumericCounts(blocks)
      modifies this`gameState, this`blocks, this`cancelRequested, this`requests
      modifies this`curX, this`curY, this`curScore, this`starsLeft
      ensures State() == Execute(CurrentLevel(), old(State()))
    {
      if gameState.isRunning {
        return;
      }
      cancelRequested := false;
      gameState := gameState.(isRunning := true, message := None, isGameOver := false);
      curX, curY, curScore, starsLeft := gameState.x, gameState.y, 0, gameState.starPositions;
      var _ := RunSequence(blocks);
      gameState := gameState.(isRunning := false);
    }

    /** Walk the blocks in order; answer true when the whole run must stop. */
    method RunSequence(bs: seq<Block>) returns (stop: bool)
      requires Valid() && NumericCounts(bs)
      modifies this`gameState, this`blocks, this`cancelRequested, this`requests
      modifies this`curX, this`curY, this`curScore, this`starsLeft
      ensures State() == RunSeq(CurrentLevel(), old(State()), bs).m
      ensures stop == RunSeq(CurrentLevel(), old(State()), bs).stop
      decreases bs, 0
    {
      ghost var m0 := State();
      var i := 0;
      while i < |bs|
        invariant 0 <= i <= |bs|
        invariant State() == RunSeq(CurrentLevel(), m0, bs[..i]).m
        invariant !RunSeq(CurrentLevel(), m0, bs[..i]).stop
      {
        assert bs[..i + 1][..i] == bs[..i];
        stop := RunBlockOnce(bs[i]);
        if stop {
          RunSeqStopped(CurrentLevel(), m0, bs, i + 1);
          return;
        }
        i := i + 1;
      }
      assert bs[..i] == bs;
      stop := false;
    }

    /** One pass of the walker's loop body for block b. */
    method RunBlockOnce(b: Block) returns (stop: bool)
      requires Valid() && NumericCount(b)
      modifies this`gameState, this`blocks, this`cancelRequested, this`requests
      modifies this`curX, this`curY, this`curScore, this`starsLeft
      ensures State() == RunBlock(CurrentLevel(), old(State()), b).m
      ensures stop == RunBlock(CurrentLevel(), old(State()), b).stop
      decreases b, 0
    {
      if cancelRequested {
        return true;
      }
      if IsMove(b.kind) {
        stop := MoveBlock(b.kind);
      } else if b.kind == Speak {
        stop := SpeakBlock(b.value);
      } else if b.kind == Repeat {
        stop := RepeatBody(b.children, Iterations(b.value));
        if !stop {
          stop := cancelRequested;
        }
      } else if b.kind == IfEdge {
        if EdgeMet(b.value, curX, curY) {
          stop := RunSequence(b.children);
          if stop {
            return;
          }
        }
        stop := cancelRequested;
      } else {
        Sleep();
        stop := cancelRequested;
      }
    }

    /** The loop of a REPEAT block: n rounds of the body, each after a check of the flag. */
    method RepeatBody(body: seq<Block>, n: nat) returns (stop: bool)
      requires Valid() && NumericCounts(body)
      modifies this`gameState, this`blocks, this`cancelRequested, this`requests
      modifies this`curX, this`curY, this`curScore, this`starsLeft
      ensures State() == RunRepeat(CurrentLevel(), old(State()), body, n).m
      ensures stop == RunRepeat(CurrentLevel(), old(State()), body, n).stop
      decreases body, 1
    {
      ghost var m0 := State();
      var i := 0;
      while i < n
        invariant 0 <= i <= n
        invariant State() == RunRepeat(CurrentLevel(), m0, body, i).m
        invariant !RunRepeat(CurrentLevel(), m0, body, i).stop
      {
        if cancelRequested {
          RepeatStopped(CurrentLevel(), m0, body, i + 1, n);
          return true;
        }
        stop := RunSequence(body);
        if stop {
          RepeatStopped(CurrentLevel(), m0, body, i + 1, n);
          return;
        }
        i := i + 1;
      }
      stop := false;
    }

    /**
     * MOVE_RIGHT, MOVE_LEFT, MOVE_UP, MOVE_DOWN: a step of 10 along the axis,
     * clamped to the board; collect, publish, then win and stop, or pause if
     * the position changed.
     */
    method MoveBlock(kind: BlockType) returns (stop: bool)
      requires Valid() && IsMove(kind)
      modifies this`gameState, this`blocks, this`cancelRequested, this`requests
      modifies this`curX, this`curY, this`curScore, this`starsLeft
      ensures State() == MoveBy(CurrentLevel(), old(State()), kind).m
      ensures stop == MoveBy(CurrentLevel(), old(State()), kind).stop
    {
      var oldX, oldY := curX, curY;
      Step(kind);
      stop := SettleMove(oldX, oldY);
    }

    /** The step along the axis, then the arrival at the clamped position. */
    method Step(kind: BlockType)
      requires IsMove(kind)
      modifies this`gameState, this`curX, this`curY, this`curScore, this`starsLeft
      ensures State() == Arrive(old(State()), Clamp(old(curX) + Delta(kind).0), Clamp(old(curY) + Delta(kind).1))
    {
      if kind == MoveRight {
        curX := curX + StepSize;
      } else if kind == MoveLeft {
        curX := curX - StepSize;
      } else if kind == MoveUp {
        curY := curY + StepSize;
      } else {
        curY := curY - StepSize;
      }
      ArriveHere();
    }

    /** Clamp the position to the board, collect the stars within reach and publish. */
    method ArriveHere()
      modifies this`gameState, this`curX, this`curY, this`curScore, this`starsLeft
      ensures State() == Arrive(old(State()), Clamp(old(curX)), Clamp(old(curY)))
    {
      curX := Clamp(curX);
      curY := Clamp(curY);
      var initialCount := |starsLeft|;
      starsLeft := Uncollected(starsLeft, curX, curY);
      if |starsLeft| < initialCount {
        curScore := curScore + (initialCount - |starsLeft|);
      }
      gameState := gameState.(x := curX, y := curY, score := curScore, starPositions := starsLeft);
    }

    /** The end of a move that started at (oldX, oldY): the win check, then the pause. */
    method SettleMove(oldX: int, oldY: int) returns (stop: bool)
      requires Valid()
      modifies this`gameState, this`blocks, this`cancelRequested, this`requests
      ensures State() == Settle(CurrentLevel(), old(State()), !(old(curX) == oldX && old(curY) == oldY)).m
      ensures stop == Settle(CurrentLevel(), old(State()), !(old(curX) == oldX && old(curY) == oldY)).stop
    {
      if Won(CurrentLevel(), curX, curY, starsLeft) {
        cancelRequested := true;
        gameState := gameState.(isGameOver := true, isRunning := false);
        return true;
      }
      if !(curX == oldX && curY == oldY) && !cancelRequested {
        Sleep();
      }
      stop := cancelRequested;
    }

    /** SPEAK: show the text during a pause; stop if cancelled meanwhile, otherwise clear it. */
    method SpeakBlock(v: Value) returns (stop: bool)
      requires Valid()
      modifies this`gameState, this`blocks, this`cancelRequested, this`requests
      ensures State() == Say(CurrentLevel(), old(State()), v).m
      ensures stop == Say(CurrentLevel(), old(State()), v).stop
    {
      gameState := gameState.(message := Some(SpeechText(v)));
      Sleep();
      if cancelRequested {
        return true;
      }
      gameState := gameState.(message := None);
      stop := cancelRequested;
    }

    /** A timed pause: the Reset handler may run meanwhile. */
    method Sleep()
      requires Valid()
      modifies this`gameState, this`blocks, this`cancelRequested, this`requests
      ensures State() == Pause(CurrentLevel(), old(State()))
    {
      if requests != [] {
        var request := requests[0];
        requests := requests[1..];
        if request.Reset? {
          ResetGame(request.newStars);
        }
      }
    }
  }

  // ---------------------------------------------------------------- what the editor keeps

  /** Adding a block, or setting a numeric value, keeps every REPEAT count numeric; so does removing. */
  lemma {:induction false} AddKeepsNumeric(list: seq<Block>, kind: BlockType, parentId: Option<string>, id: string)
    requires NumericCounts(list)
    ensures NumericCounts(AddBlock(list, kind, parentId, id))
  {
    var nb := NewBlock(kind, id);
    if !(parentId == None || parentId == Some("")) {
      AddChildKeepsNumeric(list, parentId.value, nb);
    }
  }

  lemma {:induction false} AddChildKeepsNumeric(list: seq<Block>, parentId: string, nb: Block)
    requires NumericCounts(list) && NumericCount(nb)
    ensures NumericCounts(AddChild(list, parentId, nb))
  {
    if list != [] {
      var b := list[0];
      assert NumericCount(b);
      AddChildKeepsNumeric(list[1..], parentId, nb);
      if b.id != parentId {
        AddChildKeepsNumeric(b.children, parentId, nb);
      }
    }
  }

  /** No node with the id, at any depth, is a REPEAT. */
  predicate NoRepeatWithId(list: seq<Block>, id: string) {
    forall b | b in list :: (b.id == id ==> b.kind != Repeat) && NoRepeatWithId(b.children, id)
  }

  /**
   * Setting a value keeps every REPEAT count numeric when the value is a
   * number or nothing, or when it is a string and the block it is for is no
   * REPEAT: the editor's REPEAT field always sends a number.
   */
  lemma {:induction false} UpdateKeepsNumeric(list: seq<Block>, id: string, v: Value)
    requires NumericCounts(list)
    requires v.Str? ==> NoRepeatWithId(list, id)
    ensures NumericCounts(UpdateValue(list, id, v))
  {
    if list != [] {
      var b := list[0];
      assert NumericCount(b) && b in list;
      UpdateKeepsNumeric(list[1..], id, v);
      UpdateKeepsNumeric(b.children, id, v);
    }
  }

  lemma {:induction false} RemoveKeepsNumeric(list: seq<Block>, id: string)
    requires NumericCounts(list)
    ensures NumericCounts(Remove(list, id))
  {
    if list != [] {
      var b := list[0];
      assert NumericCount(b);
      RemoveKeepsNumeric(list[1..], id);
      RemoveKeepsNumeric(b.children, id);
    }
  }
}
