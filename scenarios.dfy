/**
 * Whole runs of small programs on the first level, worked out in full.
 */
module Scenarios {
  import opened Types
  import opened Board
  import opened Levels
  import opened Semantics

  /** The first level's start screen with the given program and no Reset to come. */
  function FirstLevelIdle(program: seq<Block>): Machine {
    Machine(StartState(LEVELS[0], []), program, 55, 55, 0, [], false, [])
  }

  /** A REPEAT with the default count around one MOVE_RIGHT. */
  function Flight(): seq<Block> {
    [Block("r", Repeat, Absent, [Right("m")])]
  }

  function Right(id: string): Block {
    Block(id, MoveRight, Num(10), [])
  }

  /** The flight's machine with the agent at (x, 55). */
  function Flying(x: int): Machine {
    var m := Start(FirstLevelIdle(Flight()));
    m.(x := x, view := m.view.(x := x))
  }

  /** Short of the edge, one pass of the body moves one cell right and goes on. */
  lemma FlightStep(x: int)
    requires x == 55 || x == 65 || x == 75
    ensures RunSeq(LEVELS[0], Flying(x), [Right("m")]) == Outcome(Flying(x + 10), false)
  {
    assert RunBlock(LEVELS[0], Flying(x), Right("m")) == Outcome(Flying(x + 10), false);
  }

  /** From 85 the body reaches the right edge, which wins the first level. */
  lemma FlightLands()
    ensures RunSeq(LEVELS[0], Flying(85), [Right("m")]) == Outcome(EndGame(Flying(95)), true)
  {
    assert RunBlock(LEVELS[0], Flying(85), Right("m")) == Outcome(EndGame(Flying(95)), true);
  }

  /**
   * On the first level, a REPEAT with the default count around one
   * MOVE_RIGHT flies from (55, 55) to the right edge and wins there.
   */
  lemma FlyToRightEdge()
    ensures var e := Execute(LEVELS[0], FirstLevelIdle(Flight()));
      e.x == 95 && e.y == 55 && e.view.isGameOver && !e.view.isRunning && e.cancel
  {
    assert Flying(55) == Start(FirstLevelIdle(Flight()));
    FlightRuns();
  }

  /** The program's one block is the REPEAT, which runs four rounds by default. */
  lemma FlightRuns()
    ensures RunSeq(LEVELS[0], Flying(55), Flight()) == Outcome(EndGame(Flying(95)), true)
  {
    FlightBlock();
    assert Flight()[..0] == [];
  }

  lemma FlightBlock()
    ensures RunBlock(LEVELS[0], Flying(55), Flight()[0]) == Outcome(EndGame(Flying(95)), true)
  {
    FlightRepeats();
    assert Iterations(Absent) == 4;
  }

  /** The four rounds of the REPEAT: three steps, then the landing. */
  lemma FlightRepeats()
    ensures RunRepeat(LEVELS[0], Flying(55), [Right("m")], 4) == Outcome(EndGame(Flying(95)), true)
  {
    var lv, body := LEVELS[0], [Right("m")];
    FlightStep(55);
    assert RunRepeat(lv, Flying(55), body, 1) == Outcome(Flying(65), false);
    FlightStep(65);
    assert RunRepeat(lv, Flying(55), body, 2) == Outcome(Flying(75), false);
    FlightStep(75);
    assert RunRepeat(lv, Flying(55), body, 3) == Outcome(Flying(85), false);
    FlightLands();
  }

  /**
   * The same program with a Reset arriving during the first pause: the run
   * stops after one step, short of the edge; the screen shows the level's
   * start with the new stars, the workspace is empty, and the game is not won.
   */
  lemma ResetStopsFlight(newStars: seq<Star>)
    ensures var e := Execute(LEVELS[0], FirstLevelIdle(Flight()).(interrupts := [Reset(newStars)]));
      && e.x == 65 && e.cancel && e.interrupts == []
      && e.view == StartState(LEVELS[0], newStars) && e.program == []
      && !e.view.isGameOver && !e.view.isRunning
  {
    var lv, m := LEVELS[0], Start(FirstLevelIdle(Flight()).(interrupts := [Reset(newStars)]));
    var body := [Right("m")];
    var rep := Block("r", Repeat, Absent, body);
    var p1 := m.(x := 65, view := StartState(lv, newStars), program := [], cancel := true, interrupts := []);
    assert RunSeq(lv, m, body) == Outcome(p1, true);
    assert RunRepeat(lv, m, body, 1) == Outcome(p1, true);
    RepeatStopped(lv, m, body, 1, 4);
    assert RunSeq(lv, m, [rep]) == Outcome(p1, true);
  }
}
