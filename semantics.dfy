/**
 * The meaning of running a block program, as pure functions. A run walks
 * the program depth first and updates a Machine: the state the screen
 * shows, the program in the workspace, the run's own position, score and
 * remaining stars, the shared cancel flag, and the Resets that arrive while
 * the run is paused.
 *
 * The imperative interpreter in module App is proved to compute exactly
 * these functions; the lemmas below say what every run does.
 */
module Semantics {
  import opened Types
  import opened Board
  import opened Levels

  // ---------------------------------------------------------------- block values

  /** Every REPEAT node, at any depth, holds a number or nothing (the editor's count field parses to an integer). */
  predicate NumericCount(b: Block) {
    && (b.kind == Repeat ==> !b.value.Str?)
    && forall c | c in b.children :: NumericCount(c)
  }

  predicate NumericCounts(bs: seq<Block>) {
    forall b | b in bs :: NumericCount(b)
  }

  /** Number(value ?? 4), as the number of iterations `for (i = 0; i < n; i++)` performs. */
  function Iterations(v: Value): (k: nat)
    requires !v.Str?
    ensures v == Absent ==> k == 4
    ensures v.Num? && v.n <= 0 ==> k == 0
    ensures v.Num? && v.n > 0 ==> k == v.n
  {
    match v
    case Absent => 4
    case Num(n) => if n > 0 then n else 0
  }

  function Digit(d: int): char
    requires 0 <= d < 10
  {
    ('0' as int + d) as char
  }

  predicate IsDigit(c: char) {
    '0' <= c <= '9'
  }

  /** The number a string of decimal digits denotes, most significant digit first. */
  function DigitsValue(s: string): nat
    requires forall i :: 0 <= i < |s| ==> IsDigit(s[i])
  {
    if s == [] then 0
    else
      assert IsDigit(s[|s| - 1]);
      10 * DigitsValue(s[..|s| - 1]) + (s[|s| - 1] as int - '0' as int)
  }

  /** The decimal digits of n, without leading zeros. */
  function NatString(n: nat): (r: string)
    ensures r != [] && (r[0] == '0' ==> n == 0 && |r| == 1)
    ensures forall i :: 0 <= i < |r| ==> IsDigit(r[i])
    ensures DigitsValue(r) == n
  {
    if n < 10 then [Digit(n)]
    else
      var r := NatString(n / 10) + [Digit(n % 10)];
      assert r[..|r| - 1] == NatString(n / 10);
      r
  }

  /** String(n) for an integer n: a minus sign for a negative n, then the digits of |n|. */
  function DecimalString(n: int): (r: string)
    ensures r != [] && (n < 0 <==> r[0] == '-')
    ensures var digits := if n < 0 then r[1..] else r;
      && digits != [] && (digits[0] == '0' ==> n == 0 && |digits| == 1)
      && (forall i :: 0 <= i < |digits| ==> IsDigit(digits[i]))
      && DigitsValue(digits) == if n < 0 then -n else n
  {
    if n < 0 then "-" + NatString(-n) else NatString(n)
  }

  /** String(value || "Hello!"): a missing, zero or empty value shows the greeting, any other value itself. */
  function SpeechText(v: Value): (text: string)
    ensures text != ""
    ensures v == Absent || v == Num(0) || v == Str("") ==> text == "Hello!"
    ensures v.Str? && v.s != "" ==> text == v.s
    ensures v.Num? && v.n != 0 ==> text == DecimalString(v.n)
  {
    match v
    case Absent => "Hello!"
    case Num(n) => if n == 0 then "Hello!" else DecimalString(n)
    case Str(s) => if s == "" then "Hello!" else s
  }

  // ---------------------------------------------------------------- the machine

  /** What arrives during one pause of a run: nothing, or a click on Reset, which draws fresh stars. */
  datatype Request = Nothing | Reset(newStars: seq<Star>)

  /**
   * view: the published game state. program: the blocks in the workspace.
   * x, y, score, stars: the run's own position, score and remaining stars,
   * published after every move. cancel: the shared cancel flag.
   * interrupts: what arrives during each pause of the run, in order.
   */
  datatype Machine = Machine(
    view: GameState,
    program: seq<Block>,
    x: int,
    y: int,
    score: int,
    stars: seq<Star>,
    cancel: bool,
    interrupts: seq<Request>)

  /** The machine after a step, and whether the walker is told to stop. */
  datatype Outcome = Outcome(m: Machine, stop: bool)

  /** The next pause brings a Reset. */
  predicate ResetNext(q: seq<Request>) {
    q != [] && q[0].Reset?
  }

  /** No pause of the schedule brings a Reset. */
  predicate NoResets(q: seq<Request>) {
    q == [] || (q[0] == Nothing && NoResets(q[1..]))
  }

  /**
   * A timed pause. A Reset arriving meanwhile does all that the Reset
   * handler does: it sets the flag, shows the level's start state with the
   * fresh stars and empties the workspace.
   */
  function Pause(lv: Level, m: Machine): (m': Machine)
    ensures m'.x == m.x && m'.y == m.y && m'.score == m.score && m'.stars == m.stars
    ensures ResetNext(m.interrupts) ==>
      m'.cancel && m'.view == StartState(lv, m.interrupts[0].newStars) && m'.program == []
    ensures !ResetNext(m.interrupts) ==> m' == m.(interrupts := m'.interrupts)
    ensures m'.interrupts == if m.interrupts == [] then [] else m.interrupts[1..]
  {
    if m.interrupts == [] then m
    else match m.interrupts[0]
      case Nothing => m.(interrupts := m.interrupts[1..])
      case Reset(newStars) =>
        m.(cancel := true, view := StartState(lv, newStars), program := [], interrupts := m.interrupts[1..])
  }

  /** The check after every block: stop when the flag is set. */
  function Finish(m: Machine): Outcome {
    Outcome(m, m.cancel)
  }

  /**
   * Arriving at (cx, cy): the stars within reach are removed and counted,
   * and the new position, score and stars are published.
   */
  function Arrive(m: Machine, cx: int, cy: int): (m': Machine)
    ensures m'.x == cx && m'.y == cy && m'.stars == Uncollected(m.stars, cx, cy)
    ensures m'.score == m.score + (|m.stars| - |m'.stars|)
    ensures Published(m') && m'.view.score == m'.score
    ensures m'.cancel == m.cancel && m'.interrupts == m.interrupts
  {
    var left := Uncollected(m.stars, cx, cy);
    var score := if |left| < |m.stars| then m.score + (|m.stars| - |left|) else m.score;
    m.(view := m.view.(x := cx, y := cy, score := score, starPositions := left),
       x := cx, y := cy, score := score, stars := left)
  }

  /** A win: the flag is set and the game is over and no longer running. */
  function EndGame(m: Machine): Machine {
    m.(cancel := true, view := m.view.(isGameOver := true, isRunning := false))
  }

  /**
   * A move towards (nx, ny): clamp both coordinates, arrive, then either
   * win and stop, or pause if the position changed.
   */
  function MoveTo(lv: Level, m: Machine, nx: int, ny: int): Outcome {
    var m1 := Arrive(m, Clamp(nx), Clamp(ny));
    Settle(lv, m1, !(m1.x == m.x && m1.y == m.y))
  }

  /** After arriving: win and stop, or pause if the position changed and the flag is clear. */
  function Settle(lv: Level, m1: Machine, moved: bool): Outcome {
    if Won(lv, m1.x, m1.y, m1.stars) then Outcome(EndGame(m1), true)
    else Finish(if moved && !m1.cancel then Pause(lv, m1) else m1)
  }

  /** SPEAK: show the text, pause, stop if cancelled meanwhile, otherwise clear the text. */
  function Say(lv: Level, m: Machine, v: Value): Outcome {
    var m1 := Pause(lv, m.(view := m.view.(message := Some(SpeechText(v)))));
    if m1.cancel then Outcome(m1, true)
    else Finish(m1.(view := m1.view.(message := None)))
  }

  /** MOVE_RIGHT adds 10 to x, MOVE_LEFT subtracts 10; MOVE_UP adds 10 to y, MOVE_DOWN subtracts 10. */
  function Delta(kind: BlockType): (d: (int, int))
    requires IsMove(kind)
    ensures kind == MoveRight ==> d == (StepSize, 0)
    ensures kind == MoveLeft ==> d == (-StepSize, 0)
    ensures kind == MoveUp ==> d == (0, StepSize)
    ensures kind == MoveDown ==> d == (0, -StepSize)
  {
    match kind
    case MoveRight => (StepSize, 0)
    case MoveLeft => (-StepSize, 0)
    case MoveUp => (0, StepSize)
    case MoveDown => (0, -StepSize)
  }

  /** A MOVE_RIGHT, MOVE_LEFT, MOVE_UP or MOVE_DOWN block: a move one step along its axis. */
  function MoveBy(lv: Level, m: Machine, kind: BlockType): Outcome
    requires IsMove(kind)
  {
    MoveTo(lv, m, m.x + Delta(kind).0, m.y + Delta(kind).1)
  }

  /** One pass of the walker's loop body for block b. */
  function RunBlock(lv: Level, m: Machine, b: Block): Outcome
    requires NumericCount(b)
    decreases b, 0
  {
    if m.cancel then Outcome(m, true)
    else if IsMove(b.kind) then MoveBy(lv, m, b.kind)
    else match b.kind
      case Speak => Say(lv, m, b.value)
      case Repeat =>
        var r := RunRepeat(lv, m, b.children, Iterations(b.value));
        if r.stop then r else Finish(r.m)
      case IfEdge =>
        if EdgeMet(b.value, m.x, m.y) then
          var r := RunSeq(lv, m, b.children);
          if r.stop then r else Finish(r.m)
        else Finish(m)
      // IF_ELSE_TOUCHING and MOVE_FORWARD only wait
      case _ => Finish(Pause(lv, m))
  }

  /** The walker over a sequence: the blocks in order until one says stop. */
  function RunSeq(lv: Level, m: Machine, bs: seq<Block>): Outcome
    requires NumericCounts(bs)
    decreases bs, 0
  {
    if bs == [] then Outcome(m, false)
    else
      var r := RunSeq(lv, m, bs[..|bs| - 1]);
      if r.stop then r else RunBlock(lv, r.m, bs[|bs| - 1])
  }

  /** k iterations of a REPEAT body, each preceded by a check of the flag. */
  function RunRepeat(lv: Level, m: Machine, body: seq<Block>, k: nat): Outcome
    requires NumericCounts(body)
    decreases body, k + 1
  {
    if k == 0 then Outcome(m, false)
    else
      var r := RunRepeat(lv, m, body, k - 1);
      if r.stop then r
      else if r.m.cancel then Outcome(r.m, true)
      else RunSeq(lv, r.m, body)
  }

  /**
   * A click on Run: ignored while a run is going on; otherwise clear the
   * flag, mark the game running, start from the shown position and stars
   * with a score of 0, walk the workspace's program as it was at the click
   * and mark the game not running.
   */
  function Execute(lv: Level, m: Machine): Machine
    requires NumericCounts(m.program)
  {
    if m.view.isRunning then m
    else
      var r := RunSeq(lv, Start(m), m.program);
      r.m.(view := r.m.view.(isRunning := false))
  }

  function Start(m: Machine): Machine {
    Machine(m.view.(isRunning := true, message := None, isGameOver := false), m.program,
            m.view.x, m.view.y, 0, m.view.starPositions, false, m.interrupts)
  }

  // ---------------------------------------------------------------- what a run may do

  predicate InBounds(m: Machine) {
    MinPos <= m.x <= MaxPos && MinPos <= m.y <= MaxPos
  }

  /** The shown position and stars are the run's own. */
  predicate Published(m: Machine) {
    m.view.x == m.x && m.view.y == m.y && m.view.starPositions == m.stars
  }

  /** A Reset has stopped the run: the flag is set, the level's start is shown and the workspace is empty. */
  predicate ResetShown(lv: Level, m: Machine) {
    m.cancel && m.view == StartState(lv, m.view.starPositions) && m.program == []
  }

  /** Everything any part of a run can do to the machine. */
  predicate Evolves(lv: Level, m: Machine, m': Machine) {
    // once the flag is set nothing changes any more
    && (m.cancel ==> m' == m)
    // stars are only removed, and each one removed adds one to the score
    && m'.score + |m'.stars| == m.score + |m.stars|
    && m.score <= m'.score
    && SubStars(m'.stars, m.stars)
    // the position stays on the board and on the cell centres
    && (InBounds(m) ==> InBounds(m'))
    && (Cell(m.x) && Cell(m.y) ==> Cell(m'.x) && Cell(m'.y))
    // the screen follows the run, unless a Reset has put the level's start back;
    // with no Reset in the schedule it always follows the run
    && (ResetShown(lv, m') || Follows(lv, m, m'))
    && (NoResets(m.interrupts) ==> NoResets(m'.interrupts) && Follows(lv, m, m'))
  }

  /** What the screen shows while the run is in control of it. */
  predicate Follows(lv: Level, m: Machine, m': Machine) {
    && m'.program == m.program
    && (Published(m) ==> Published(m'))
    && (m.view.score == m.score ==> m'.view.score == m'.score)
    && m'.view.level == m.view.level
    // a game ends only when won, and then the run is stopped
    && (m.view.isGameOver ==> m'.view.isGameOver)
    && (!m.view.isGameOver && m'.view.isGameOver ==>
          m'.cancel && !m'.view.isRunning && Won(lv, m'.x, m'.y, m'.stars))
    && (m'.view.isRunning != m.view.isRunning ==> !m'.view.isRunning && m'.view.isGameOver)
    // a speech bubble is cleared again
    && (m.view.message == None ==> m'.view.message == None)
  }

  lemma EvolvesTrans(lv: Level, a: Machine, b: Machine, c: Machine)
    requires Evolves(lv, a, b) && Evolves(lv, b, c)
    ensures Evolves(lv, a, c)
  {
    SubStarsTrans(c.stars, b.stars, a.stars);
  }

  lemma PauseEvolves(lv: Level, m: Machine)
    requires !m.cancel
    ensures Evolves(lv, m, Pause(lv, m))
  {
  }

  /**
   * A move sets each coordinate to its clamped target, removes exactly the
   * touched stars and counts them, ends the game exactly when the level's
   * goal is reached, and pauses only when the position changed. The move is
   * shown, unless a Reset arriving in the pause stops the run and puts the
   * level's start back.
   */
  lemma MoveStep(lv: Level, m: Machine, kind: BlockType)
    requires IsMove(kind) && !m.cancel && !m.view.isGameOver
    ensures var r := MoveBy(lv, m, kind);
      && r.m.x == Clamp(m.x + Delta(kind).0) && r.m.y == Clamp(m.y + Delta(kind).1) && InBounds(r.m)
      && r.m.stars == Uncollected(m.stars, r.m.x, r.m.y)
      && r.m.score == m.score + (|m.stars| - |r.m.stars|)
      && (r.m.view.isGameOver <==> Won(lv, r.m.x, r.m.y, r.m.stars))
      && (r.m.cancel ==> r.m.view.isGameOver || ResetNext(m.interrupts))
      && (r.m.cancel && !r.m.view.isGameOver ==>
            r.m.view == StartState(lv, m.interrupts[0].newStars) && r.m.program == [])
      && (!r.m.cancel || r.m.view.isGameOver ==>
            Published(r.m) && r.m.view.score == r.m.score && r.m.program == m.program)
      && (r.m.view.isGameOver ==> r.stop)
      && (r.m.x == m.x && r.m.y == m.y ==> r.m.interrupts == m.interrupts)
      && r.stop == r.m.cancel
      && Evolves(lv, m, r.m)
  {
    MoveByEvolves(lv, m, kind);
  }

  /** With stars and agent on distinct cell centres, a move collects at most one star. */
  lemma MoveCollectsAtMostOne(lv: Level, m: Machine, nx: int, ny: int)
    requires DistinctCells(m.stars) && Cell(Clamp(nx)) && Cell(Clamp(ny))
    ensures m.score <= MoveTo(lv, m, nx, ny).m.score <= m.score + 1
  {
    AtMostOneCollected(m.stars, Clamp(nx), Clamp(ny));
  }

  /**
   * One pass of the loop body keeps the run invariants and says stop exactly
   * when it leaves the flag set. (Evolves is named as a whole here, so that
   * each case below hands it on in one piece.)
   */
  lemma {:induction false} RunBlockEvolves(lv: Level, m: Machine, b: Block)
    requires NumericCount(b)
    ensures var r := RunBlock(lv, m, b); var ok := Evolves(lv, m, r.m); ok && r.stop == r.m.cancel
    decreases b, 1
  {
    if m.cancel {
      CancelledEvolves(lv, m, b);
    } else if IsMove(b.kind) {
      MoveByEvolves(lv, m, b.kind);
    } else if b.kind in {Speak, IfElseTouching, MoveForward} {
      QuietBlockEvolves(lv, m, b);
    } else if b.kind == Repeat {
      RepeatBlockEvolves(lv, m, b);
    } else {
      IfEdgeBlockEvolves(lv, m, b);
    }
  }

  /** With the flag set a block does nothing and says stop. */
  lemma CancelledEvolves(lv: Level, m: Machine, b: Block)
    requires NumericCount(b) && m.cancel
    ensures var r := RunBlock(lv, m, b); var ok := Evolves(lv, m, r.m); ok && r.stop == r.m.cancel
  {
    assert RunBlock(lv, m, b) == Outcome(m, true);
    assert Follows(lv, m, m);
  }

  /** A REPEAT block, through the invariants of its rounds. */
  lemma {:induction false} RepeatBlockEvolves(lv: Level, m: Machine, b: Block)
    requires NumericCount(b) && b.kind == Repeat && !m.cancel
    ensures var r := RunBlock(lv, m, b); var ok := Evolves(lv, m, r.m); ok && r.stop == r.m.cancel
    decreases b, 0
  {
    var r := RunRepeat(lv, m, b.children, Iterations(b.value));
    assert RunBlock(lv, m, b) == if r.stop then r else Finish(r.m);
    RunRepeatEvolves(lv, m, b.children, Iterations(b.value));
  }

  /** An IF_EDGE block, through the invariants of its body when the edge is met. */
  lemma {:induction false} IfEdgeBlockEvolves(lv: Level, m: Machine, b: Block)
    requires NumericCount(b) && b.kind == IfEdge && !m.cancel
    ensures var r := RunBlock(lv, m, b); var ok := Evolves(lv, m, r.m); ok && r.stop == r.m.cancel
    decreases b, 0
  {
    if EdgeMet(b.value, m.x, m.y) {
      var r := RunSeq(lv, m, b.children);
      assert RunBlock(lv, m, b) == if r.stop then r else Finish(r.m);
      RunSeqEvolves(lv, m, b.children);
    }
  }

  /** SPEAK and the tags that only wait. */
  lemma QuietBlockEvolves(lv: Level, m: Machine, b: Block)
    requires NumericCount(b) && !m.cancel
    requires b.kind in {Speak, IfElseTouching, MoveForward}
    ensures var r := RunBlock(lv, m, b); var ok := Evolves(lv, m, r.m); ok && r.stop == r.m.cancel
  {
    if b.kind == Speak {
      var o := Say(lv, m, b.value);
      assert RunBlock(lv, m, b) == o;
      assert Evolves(lv, m, o.m) && o.stop == o.m.cancel by {
        SayEvolves(lv, m, b.value);
      }
    } else {
      var o := Finish(Pause(lv, m));
      assert RunBlock(lv, m, b) == o;
      assert Evolves(lv, m, o.m) && o.stop == o.m.cancel by {
        PauseEvolves(lv, m);
      }
    }
  }

  lemma ArriveEvolves(lv: Level, m: Machine, cx: int, cy: int)
    requires !m.cancel
    requires MinPos <= cx <= MaxPos && MinPos <= cy <= MaxPos
    requires Cell(m.x) && Cell(m.y) ==> Cell(cx) && Cell(cy)
    ensures Evolves(lv, m, Arrive(m, cx, cy))
  {
    UncollectedSpec(m.stars, cx, cy);
  }

  lemma EndGameEvolves(lv: Level, m: Machine)
    requires !m.cancel && Won(lv, m.x, m.y, m.stars)
    ensures Evolves(lv, m, EndGame(m))
  {
  }

  lemma SayEvolves(lv: Level, m: Machine, v: Value)
    requires !m.cancel
    ensures var r := Say(lv, m, v); Evolves(lv, m, r.m) && r.stop == r.m.cancel
  {
  }

  /** A move block keeps the invariants of Evolves and says stop exactly when it leaves the flag set. */
  lemma MoveByEvolves(lv: Level, m: Machine, kind: BlockType)
    requires IsMove(kind) && !m.cancel
    ensures var r := MoveBy(lv, m, kind); var ok := Evolves(lv, m, r.m); ok && r.stop == r.m.cancel
  {
    MoveStepEvolves(lv, m, Delta(kind).0, Delta(kind).1);
  }

  /** So does every step of 10 along one axis. */
  lemma MoveStepEvolves(lv: Level, m: Machine, dx: int, dy: int)
    requires !m.cancel
    requires (dx == 0 && (dy == StepSize || dy == -StepSize)) || (dy == 0 && (dx == StepSize || dx == -StepSize))
    ensures var r := MoveTo(lv, m, m.x + dx, m.y + dy); Evolves(lv, m, r.m) && r.stop == r.m.cancel
  {
    var cx, cy := Clamp(m.x + dx), Clamp(m.y + dy);
    if Cell(m.x) && Cell(m.y) {
      if dx == 0 { MoveKeepsCell(m.y, dy); } else { MoveKeepsCell(m.x, dx); }
    }
    var m1 := Arrive(m, cx, cy);
    ArriveEvolves(lv, m, cx, cy);
    if Won(lv, m1.x, m1.y, m1.stars) {
      EndGameEvolves(lv, m1);
      EvolvesTrans(lv, m, m1, EndGame(m1));
    } else if !(m1.x == m.x && m1.y == m.y) {
      PauseEvolves(lv, m1);
      EvolvesTrans(lv, m, m1, Pause(lv, m1));
    }
  }

  /**
   * Every run of a sequence keeps the invariants of Evolves; when it says
   * stop the flag is set, and when it does not the flag is as it was.
   */
  lemma {:induction false} RunSeqEvolves(lv: Level, m: Machine, bs: seq<Block>)
    requires NumericCounts(bs)
    ensures var r := RunSeq(lv, m, bs);
      && Evolves(lv, m, r.m)
      && (r.stop ==> r.m.cancel)
      && (!r.stop ==> r.m.cancel == m.cancel)
    decreases bs, 0
  {
    if bs != [] {
      var r := RunSeq(lv, m, bs[..|bs| - 1]);
      RunSeqEvolves(lv, m, bs[..|bs| - 1]);
      if !r.stop {
        RunBlockEvolves(lv, r.m, bs[|bs| - 1]);
        EvolvesTrans(lv, m, r.m, RunBlock(lv, r.m, bs[|bs| - 1]).m);
      }
    }
  }

  lemma {:induction false} RunRepeatEvolves(lv: Level, m: Machine, body: seq<Block>, k: nat)
    requires NumericCounts(body)
    ensures var r := RunRepeat(lv, m, body, k);
      && Evolves(lv, m, r.m)
      && (r.stop ==> r.m.cancel)
      && (!r.stop ==> r.m.cancel == m.cancel)
    decreases body, k + 1
  {
    if k > 0 {
      var r := RunRepeat(lv, m, body, k - 1);
      RunRepeatEvolves(lv, m, body, k - 1);
      if !r.stop && !r.m.cancel {
        RunSeqEvolves(lv, r.m, body);
        EvolvesTrans(lv, m, r.m, RunSeq(lv, r.m, body).m);
      }
    }
  }

  // ---------------------------------------------------------------- cancellation

  /** With the flag set a run changes nothing, and stops unless there is nothing to run. */
  lemma {:induction false} CancelledIsInert(lv: Level, m: Machine, bs: seq<Block>)
    requires NumericCounts(bs)
    requires m.cancel
    ensures RunSeq(lv, m, bs) == Outcome(m, bs != [])
  {
    if bs != [] {
      CancelledIsInert(lv, m, bs[..|bs| - 1]);
    }
  }

  /** A non-empty sequence says stop exactly when it leaves the flag set. */
  lemma StopIffCancelled(lv: Level, m: Machine, bs: seq<Block>)
    requires NumericCounts(bs)
    requires bs != []
    ensures RunSeq(lv, m, bs).stop <==> RunSeq(lv, m, bs).m.cancel
  {
    RunSeqEvolves(lv, m, bs);
    if m.cancel {
      CancelledIsInert(lv, m, bs);
    }
  }

  /**
   * A win stops the whole walk: the game is over only where the goal is
   * reached, and the run says stop, so no later block runs, even inside an
   * enclosing REPEAT.
   */
  lemma WinHalts(lv: Level, m: Machine, bs: seq<Block>)
    requires NumericCounts(bs)
    requires !m.view.isGameOver
    ensures var r := RunSeq(lv, m, bs);
      r.m.view.isGameOver ==>
        && r.stop && r.m.cancel && !r.m.view.isRunning
        && Won(lv, r.m.x, r.m.y, r.m.stars)
        && RunSeq(lv, r.m, bs) == Outcome(r.m, true)
  {
    var r := RunSeq(lv, m, bs);
    RunSeqEvolves(lv, m, bs);
    if r.m.view.isGameOver {
      assert bs != [];
      StopIffCancelled(lv, m, bs);
      CancelledIsInert(lv, r.m, bs);
    }
  }

  // ---------------------------------------------------------------- sequencing, REPEAT and IF_EDGE

  /** Running a + b is running a and then, unless told to stop, b. */
  lemma {:induction false} RunSeqAppend(lv: Level, m: Machine, a: seq<Block>, b: seq<Block>)
    requires NumericCounts(a) && NumericCounts(b)
    ensures NumericCounts(a + b)
    ensures RunSeq(lv, m, a + b) ==
      var r := RunSeq(lv, m, a); if r.stop then r else RunSeq(lv, r.m, b)
    decreases b
  {
    if b == [] {
      assert a + b == a;
    } else {
      var ab := a + b;
      assert ab[..|ab| - 1] == a + b[..|b| - 1];
      assert ab[|ab| - 1] == b[|b| - 1];
      RunSeqAppend(lv, m, a, b[..|b| - 1]);
    }
  }

  /** A walk that stops after the first k blocks stops there for the whole sequence. */
  lemma RunSeqStopped(lv: Level, m: Machine, bs: seq<Block>, k: nat)
    requires NumericCounts(bs) && k <= |bs|
    requires RunSeq(lv, m, bs[..k]).stop
    ensures RunSeq(lv, m, bs) == RunSeq(lv, m, bs[..k])
  {
    assert bs[..k] + bs[k..] == bs;
    RunSeqAppend(lv, m, bs[..k], bs[k..]);
  }

  /** A REPEAT that stops in round j stops there for any larger count. */
  lemma {:induction false} RepeatStopped(lv: Level, m: Machine, body: seq<Block>, j: nat, k: nat)
    requires NumericCounts(body) && j <= k
    requires RunRepeat(lv, m, body, j).stop
    ensures RunRepeat(lv, m, body, k) == RunRepeat(lv, m, body, j)
    decreases k
  {
    if j < k {
      RepeatStopped(lv, m, body, j, k - 1);
    }
  }

  /** The body repeated k times, one copy after another. */
  function Times(body: seq<Block>, k: nat): (r: seq<Block>)
    ensures |r| == k * |body|
  {
    if k == 0 then [] else Times(body, k - 1) + body
  }

  lemma {:induction false} TimesNumeric(body: seq<Block>, k: nat)
    requires NumericCounts(body)
    ensures NumericCounts(Times(body, k))
  {
    if k > 0 {
      TimesNumeric(body, k - 1);
    }
  }

  /** k iterations of a REPEAT run its body k times in order, as if written out k times. */
  lemma {:induction false} RepeatUnrolls(lv: Level, m: Machine, body: seq<Block>, k: nat)
    requires NumericCounts(body)
    requires !m.cancel || body != []
    ensures NumericCounts(Times(body, k))
    ensures RunRepeat(lv, m, body, k) == RunSeq(lv, m, Times(body, k))
  {
    TimesNumeric(body, k);
    if k > 0 {
      RepeatUnrolls(lv, m, body, k - 1);
      TimesNumeric(body, k - 1);
      RunSeqAppend(lv, m, Times(body, k - 1), body);
      var r := RunRepeat(lv, m, body, k - 1);
      RunRepeatEvolves(lv, m, body, k - 1);
      if !r.stop && r.m.cancel {
        CancelledIsInert(lv, r.m, body);
      }
    }
  }

  /**
   * A REPEAT block runs its body Number(value ?? 4) times (none for a count
   * of 0 or less), exactly like the body written out that many times.
   */
  lemma RepeatBlockRunsBody(lv: Level, m: Machine, b: Block)
    requires NumericCount(b) && b.kind == Repeat && !m.cancel
    ensures NumericCounts(Times(b.children, Iterations(b.value)))
    ensures RunBlock(lv, m, b) == Finish(RunSeq(lv, m, Times(b.children, Iterations(b.value))).m)
    ensures (b.value.Num? && b.value.n <= 0) ==> RunBlock(lv, m, b) == Outcome(m, false)
  {
    var k := Iterations(b.value);
    RepeatUnrolls(lv, m, b.children, k);
    var r := RunSeq(lv, m, Times(b.children, k));
    RunSeqEvolves(lv, m, Times(b.children, k));
  }

  /**
   * IF_EDGE is decided where the walker meets it: with the test unmet it
   * does nothing; with it met it is its body run in place.
   */
  lemma IfEdgeInPlace(lv: Level, m: Machine, b: Block)
    requires NumericCount(b) && b.kind == IfEdge && !m.cancel
    ensures NumericCounts(b.children)
    ensures !EdgeMet(b.value, m.x, m.y) ==> RunBlock(lv, m, b) == Outcome(m, false)
    ensures EdgeMet(b.value, m.x, m.y) ==> RunBlock(lv, m, b).m == RunSeq(lv, m, b.children).m
    ensures EdgeMet(b.value, m.x, m.y) && b.children != [] ==> RunBlock(lv, m, b) == RunSeq(lv, m, b.children)
  {
    RunSeqEvolves(lv, m, b.children);
    if b.children != [] {
      StopIffCancelled(lv, m, b.children);
    }
  }

  /**
   * SPEAK shows its text during the pause and then clears it, and nothing
   * else of the world changes; a Reset in the pause stops the run, and then
   * the level's start is shown instead.
   */
  lemma SpeakLeavesWorld(lv: Level, m: Machine, b: Block)
    requires NumericCount(b) && b.kind == Speak && !m.cancel
    ensures var r := RunBlock(lv, m, b);
      && r.m.x == m.x && r.m.y == m.y && r.m.score == m.score && r.m.stars == m.stars
      && r.m.interrupts == (if m.interrupts == [] then [] else m.interrupts[1..])
      && r.stop == r.m.cancel
      && (r.stop <==> ResetNext(m.interrupts))
      && (r.stop ==> r.m.view == StartState(lv, m.interrupts[0].newStars) && r.m.program == [])
      && (!r.stop ==> r.m.view == m.view.(message := None) && r.m.program == m.program)
  {
  }

  /**
   * IF_ELSE_TOUCHING and MOVE_FORWARD only pause: nothing shown and nothing
   * of the world changes, unless a Reset in the pause stops the run.
   */
  lemma WaitLeavesWorld(lv: Level, m: Machine, b: Block)
    requires NumericCount(b) && b.kind in {IfElseTouching, MoveForward} && !m.cancel
    ensures var r := RunBlock(lv, m, b);
      && r.m.x == m.x && r.m.y == m.y && r.m.score == m.score && r.m.stars == m.stars
      && r.m.interrupts == (if m.interrupts == [] then [] else m.interrupts[1..])
      && r.stop == r.m.cancel
      && (r.stop <==> ResetNext(m.interrupts))
      && (r.stop ==> r.m.view == StartState(lv, m.interrupts[0].newStars) && r.m.program == [])
      && (!r.stop ==> r.m.view == m.view && r.m.program == m.program)
  {
  }

  // ---------------------------------------------------------------- a whole run

  /**
   * A click on Run while idle always ends not running; the score of the run
   * plus the stars left is the number of stars shown at the start; stars
   * only disappear; the position stays on the board; the game is over only
   * when the level's goal is met. What is shown at the end is the run's
   * state with no speech bubble and the same program, unless a Reset
   * stopped the run, and then it is the level's start with an empty
   * workspace; with no Reset in the schedule it is always the former.
   */
  lemma ExecuteSummary(lv: Level, m: Machine)
    requires NumericCounts(m.program)
    requires !m.view.isRunning
    ensures var e := Execute(lv, m);
      && !e.view.isRunning
      && e.score + |e.stars| == |m.view.starPositions|
      && SubStars(e.stars, m.view.starPositions)
      && (MinPos <= m.view.x <= MaxPos && MinPos <= m.view.y <= MaxPos ==> InBounds(e))
      && (Cell(m.view.x) && Cell(m.view.y) ==> Cell(e.x) && Cell(e.y))
      && (e.view.isGameOver ==> e.cancel && Won(lv, e.x, e.y, e.stars))
      && (ResetShown(lv, e) || (Published(e) && e.view.message == None && e.program == m.program))
      && (NoResets(m.interrupts) ==> Published(e) && e.view.message == None && e.program == m.program)
  {
    RunSeqEvolves(lv, Start(m), m.program);
  }

  /** A click on Run during a run changes nothing. */
  lemma ExecuteWhileRunning(lv: Level, m: Machine)
    requires NumericCounts(m.program)
    requires m.view.isRunning
    ensures Execute(lv, m) == m
  {
  }
}
