# CodeQuestJr block interpreter, in Dafny

CodeQuestJr is a coding game for children. The player snaps instruction
blocks together: moves, REPEAT, IF_EDGE and SPEAK. The game then runs the
program against a 100 x 100 board. The agent moves in steps of 10 and
collects stars, and each level has a goal: reach the edge, or collect all
stars.

This project models the game's core in `App.tsx`:

- the interpreter `executeCode` / `runSequence`;
- the win rule `checkWinCondition`;
- the three editor operations on the block forest;
- `resetGame` and `handleNextLevel`.

It proves what a run does and what the edits do.

Layout, one module per file:

- `types.dfy` (`Types`): blocks, block values, stars, levels and the shown
  game state.
- `board.dfy` (`Board`): the clamp to [5, 95], the star-touch filter, the
  IF_EDGE selectors and the win rule.
- `levels.dfy` (`Levels`): the level catalogue, the level order and the
  start state of a level.
- `editor.dfy` (`Editor`): adding, updating and removing blocks. These are
  pure recursive maps and filters over the forest.
- `semantics.dfy` (`Semantics`): a run as pure functions over a `Machine`:
  - the shown state;
  - the program in the workspace;
  - the run's own position, score and stars;
  - the shared cancel flag;
  - the Resets that arrive during pauses.

  Its lemmas state what every run does.
- `game.dfy` (`App`): class `Game`. Its fields are the screen's state and
  the run's variables. Its methods are the event handlers and the
  interpreter, written with loops and recursive calls that update the
  fields in place. Each interpreter method is proved to compute the
  matching function of `Semantics`.
- `scenarios.dfy` (`Scenarios`): two whole runs on the first level,
  worked out in full.

Timed pauses (`setTimeout`) are the only places where another handler can
run during a run. The handler modelled there is Reset (`resetGame`,
App.tsx:120-134). Each pause consumes one entry of a schedule of requests
(`Game.requests`, `Machine.interrupts`). An entry is either `Nothing` or
`Reset(newStars)`, with the stars that the Reset draws. A Reset in a pause
does all that `resetGame` does:

- it sets the cancel flag;
- it shows the current level's start state with the new stars;
- it empties the workspace.

The run holds its own copy of the program, so emptying the workspace does
not change what it walks. It stops at its next check of the flag, which
comes right after the pause. Its last write clears `isRunning`, which the
start state has already cleared.

Where descriptions of this game differ from the code, the model follows
the code:

- There is no sensor registry and no re-entrancy guard. IF_EDGE is
  evaluated where the walker meets it (`App.tsx:246-257`).
- IF_ELSE_TOUCHING and MOVE_FORWARD only wait (`App.tsx:283-285`).
- Positions are clamped to [5, 95], not [0, 100].
- Stars are collected before the pause, not after it.
- A REPEAT count is `Number(value ?? 4)`: only a missing count means 4.
- SPEAK shows "Hello!" for any falsy value: missing, `0` or `""`.

## Model

| member | source | states |
|---|---|---|
| Board.Clamp | App.tsx:261-262 | the clamped coordinate lies in [5, 95]; it is the input when that is in range, 5 below it, 95 above it |
| Board.Touches | App.tsx:267 | a star is touched when it lies strictly within 5 of the agent on both axes; `Board.TouchMeansSameCell` and `Board.UncollectedSpec` state what that means for a move |
| Board.Uncollected | App.tsx:266-267 | the filter keeps at most the stars it was given |
| Board.UncollectedSpec | App.tsx:267 | a star stays exactly when it was there and is not within 5 of the agent on both axes; the stars left are the old ones with some left out, in their order |
| Board.UncollectedCounts | App.tsx:267 | each star occurs in the result as often as in the input when untouched, and not at all when touched |
| Board.SubStarsTrans | App.tsx:267 | leaving stars out of a list and then out of the result is leaving them out of the first list, so the stars left after many moves are still the first ones in order |
| Board.EdgeMet | App.tsx:246-254 | the IF_EDGE test: a missing value means "any", each named selector tests one side, a number or an unknown selector is never met; `Board.EdgeSelectorsCoverAny` relates them |
| Board.EdgeSelectorsCoverAny | App.tsx:248-254 | every selector that is met implies the "any" edge test; a missing selector is "any"; "any" holds iff one of left, right, top, bottom holds |
| Board.Won | App.tsx:209-215 | the win rule: level 1 at the edge, a level with stars when none is left, otherwise never; `Levels.LevelsStartInPlay`, `Semantics.MoveStep` and `Semantics.WinHalts` state what it means for a run |
| Board.MoveKeepsCell | App.tsx:228-231 | a clamped step of ±10 from a cell centre lands on a cell centre, either one step away or where it was |
| Board.TouchMeansSameCell | App.tsx:267 | with the agent and a star on cell centres, touching means standing on the star's cell |
| Board.AtMostOneCollected | App.tsx:266-271 | with stars on distinct cell centres, one move removes at most one star, and exactly one iff a star lies on the agent's cell |
| Board.NoneTouchedKeepsAll | App.tsx:267 | when no star is within reach the filter returns the list unchanged |
| Levels.NextLevelIndex | App.tsx:137-143 | the next index stays within the catalogue and is the current index plus one, wrapping after the last level to 0 |
| Levels.AlignedStars | App.tsx:88-102 | what the star generator guarantees: as many stars as the level asks for, on distinct cell centres, none on the start cell |
| Levels.StartState | App.tsx:123-133 | a reset shows the level's start position, no message, score 0, not running, not over, the level's id and the given stars |
| Levels.LevelsStartInPlay | constants.tsx:6-34 | every level of the catalogue starts on a cell centre away from the edge and not already won, and every level after the first has stars |
| Editor.DefaultValue | App.tsx:146-152 | a new block's value is 4 for REPEAT, 10 for a move, "Hello! 🚀" for SPEAK, "any" for IF_EDGE, and absent otherwise |
| Editor.NewBlock | App.tsx:154-159 | a new block has the given id and type, the type's default value and no children; `Editor.AddThenRemove` and `App.AddKeepsNumeric` state what adding it does |
| Editor.AddBlock | App.tsx:161-172 | with no parent (or an empty one) the new block goes last at the top level, otherwise under the parent; `Editor.AddThenRemove`, `Editor.AddChildFind` and `Editor.AddChildAtTop` state its effect |
| Editor.AddChild | App.tsx:164-170 | adding under a parent keeps the number of top-level nodes |
| Editor.AddChildAtTop | App.tsx:164-170 | a top-level node with the parent id gets the new block appended last to its children; other top-level nodes keep their id, tag and value |
| Editor.AddChildFind | App.tsx:164-170 | at any depth, the first node with the parent id is the node it was with the new block appended last to its children; with no such node there is none after |
| Editor.AddChildAbsent | App.tsx:164-170 | adding under a parent id the forest does not hold changes nothing |
| Editor.AddChildPlaces | App.tsx:164-170 | adding under a parent id the forest holds puts the new block into the forest |
| Editor.AddChildThenRemove | App.tsx:164-170 | removing a fresh leaf, just added under a parent, gives back the forest it was added to |
| Editor.AddThenRemove | App.tsx:145-196 | adding a block with a fresh id, at the top level or under a parent, and then removing it is the identity |
| Editor.UpdateValue | App.tsx:177-183 | sets the value of the nodes with the id that are not below another such node; `Editor.UpdateThenFind`, `Editor.UpdateKeepsOthers`, `Editor.UpdateKeepsShape` and `Editor.UpdateAbsent` state its effect |
| Editor.UpdateKeepsShape | App.tsx:176-184 | an update changes values only: ids, tags, nesting and order stay the same |
| Editor.UpdateAbsent | App.tsx:176-184 | updating an id the forest does not hold changes nothing |
| Editor.UpdateThenFind | App.tsx:176-184 | after an update, the first node with the id is the node it was, now carrying the new value |
| Editor.UpdateKeepsOthers | App.tsx:176-184 | after an update every other id is still found exactly when it was before, and the node found keeps its tag and value |
| Editor.Remove | App.tsx:188-193 | drops the nodes with the id, at any depth, with their subtrees; `Editor.RemoveKeepsOthers`, `Editor.RemoveErases` and `Editor.RemoveCommutes` state its effect |
| Editor.RemoveErases | App.tsx:187-194 | after removal no node with the id is left at any depth |
| Editor.RemoveAbsent | App.tsx:187-194 | removing an id the forest does not hold changes nothing |
| Editor.RemoveIdempotent | App.tsx:187-194 | removing twice is the same as removing once |
| Editor.RemoveKeepsOthers | App.tsx:187-194 | an id is in the forest after removal exactly when some node with it lies outside every removed subtree; removal never grows the forest, and it shrinks it iff the id was present |
| Editor.RemoveCommutes | App.tsx:187-194 | removing two ids in either order gives the same forest |
| Editor.RemoveAppend | App.tsx:189 | removal from two forests placed one after the other is removal from each |
| Semantics.Iterations | App.tsx:240-241 | a REPEAT loops 4 times with no count, the count's times when it is positive, and never when it is 0 or less |
| Semantics.SpeechText | App.tsx:233 | the text shown is never empty; a missing, zero or empty value shows "Hello!", a non-empty string shows itself and a non-zero number its decimal form |
| Semantics.NatString | App.tsx:233 | the digits of a natural number: decimal digits only, no leading zero, and they denote the number |
| Semantics.DecimalString | App.tsx:233 | `String(n)` for an integer: a minus sign exactly when n is negative, then the digits of its absolute value without a leading zero, which denote it |
| Semantics.Pause | App.tsx:120-134 | a pause leaves the run's own position, score and stars alone and consumes one request; a Reset sets the flag, shows the level's start with the new stars and empties the workspace; otherwise nothing else changes |
| Semantics.Delta | App.tsx:228-231 | MOVE_RIGHT adds 10 to x, MOVE_LEFT takes 10 from x, MOVE_UP adds 10 to y, MOVE_DOWN takes 10 from y |
| Semantics.Arrive | App.tsx:259-273 | after a move, position and stars are the clamped point and the filtered list; the score grows by the number of stars removed; the new state is published |
| Semantics.MoveBy | App.tsx:228-231 | a move block is a move to the neighbouring point in its direction; `Semantics.MoveStep` states its effect |
| Semantics.MoveTo | App.tsx:259-282 | arrive at the clamped point, then settle; `Semantics.MoveStep` and `Semantics.MoveCollectsAtMostOne` state its effect |
| Semantics.Settle | App.tsx:275-282 | after arriving: a win sets the flag and ends the game, otherwise a pause only if the position changed and the flag is clear; `Semantics.MoveStep` states its effect |
| Semantics.Say | App.tsx:232-237 | SPEAK shows the text, pauses, stops if the flag is set, otherwise clears the text; `Semantics.SpeakLeavesWorld` states its effect |
| Semantics.RunBlock | App.tsx:218-286 | one pass of the loop body, branch for branch; `Semantics.RunBlockEvolves` states what every pass keeps |
| Semantics.RunSeq | App.tsx:217-289 | the for-of loop over a sequence, stopping at the first block that says stop; `Semantics.RunSeqEvolves`, `Semantics.StopIffCancelled` and `Semantics.RunSeqAppend` state its effect |
| Semantics.RunRepeat | App.tsx:241-245 | the rounds of REPEAT, each after a check of the flag; `Semantics.RepeatUnrolls` and `Semantics.RunRepeatEvolves` state its effect |
| Semantics.Start | App.tsx:199-207 | the start of a run: running, no message, not over, the flag clear, the run's position and stars taken from the screen, score 0 |
| Semantics.Execute | App.tsx:198-294 | a click on Run; `Semantics.ExecuteSummary` and `Semantics.ExecuteWhileRunning` state its effect |
| Semantics.MoveStep | App.tsx:228-282 | a move sets each coordinate to its clamped target on the board. It removes exactly the touched stars and adds their number to the score. The game ends iff the goal is reached, and then the run stops. The flag is set only by a win or by a Reset in the pause; after a Reset the level's start and an empty workspace are shown, otherwise the move is published. A move that leaves the position unchanged does not pause. It keeps all run invariants |
| Semantics.MoveByEvolves | App.tsx:228-282 | a move block keeps the run invariants from any uncancelled state and says stop exactly when it leaves the flag set |
| Semantics.MoveStepEvolves | App.tsx:259-282 | a step of 10 along one axis keeps the run invariants from any uncancelled state, also after the game is over, and says stop exactly when it leaves the flag set |
| Semantics.MoveCollectsAtMostOne | App.tsx:266-271 | with stars on distinct cell centres, one move adds 0 or 1 to the score |
| Semantics.RunBlockEvolves | App.tsx:218-286 | one pass of the loop body keeps the run invariants (`Evolves`) and says stop exactly when it leaves the flag set |
| Semantics.CancelledEvolves | App.tsx:219 | with the flag set a block changes nothing and says stop |
| Semantics.RepeatBlockEvolves | App.tsx:238-245 | a REPEAT block keeps the run invariants and says stop exactly when it leaves the flag set |
| Semantics.IfEdgeBlockEvolves | App.tsx:246-257 | an IF_EDGE block keeps the run invariants and says stop exactly when it leaves the flag set |
| Semantics.QuietBlockEvolves | App.tsx:232-285 | SPEAK, IF_ELSE_TOUCHING and MOVE_FORWARD keep the run invariants and say stop exactly when they leave the flag set |
| Semantics.RunSeqEvolves | App.tsx:217-289 | walking a sequence keeps the run invariants. Score plus stars left is constant, and stars only go, the rest in order. Position stays on the board and on cell centres. Once the flag is set nothing changes. While the run is in control of the screen, the shown state is the run's, the game ends only when won and then stops the run, a speech bubble is cleared again and the workspace is unchanged; a Reset instead shows the level's start with the flag set and an empty workspace; with no Reset in the schedule the former always holds. A stop means the flag is set; no stop means the flag is as before |
| Semantics.RunRepeatEvolves | App.tsx:238-245 | the rounds of a REPEAT keep the same invariants and the same stop/flag relation |
| Semantics.CancelledIsInert | App.tsx:218-219 | with the flag set, a walk changes nothing and returns true, unless the sequence is empty |
| Semantics.StopIffCancelled | App.tsx:286-288 | a non-empty sequence returns true exactly when it leaves the flag set |
| Semantics.WinHalts | App.tsx:275-281 | when a walk ends the game, the goal is met and the flag is set. The walk is no longer running and it said stop, so running anything more changes nothing |
| Semantics.RunSeqAppend | App.tsx:218 | walking a + b is walking a and then, unless told to stop, walking b |
| Semantics.RunSeqStopped | App.tsx:218-219 | a walk that stops within a prefix stops there for the whole sequence |
| Semantics.RepeatStopped | App.tsx:241-244 | a REPEAT that stops in some round gives the same result for any larger count |
| Semantics.RepeatUnrolls | App.tsx:238-245 | k rounds of a body are the body written out k times in a row |
| Semantics.RepeatBlockRunsBody | App.tsx:238-245 | a REPEAT block runs its body exactly `Number(value ?? 4)` times in order; a count of 0 or less does nothing |
| Semantics.IfEdgeInPlace | App.tsx:246-257 | IF_EDGE is decided with the position at the moment it is reached: unmet, it does nothing; met, it is its body run in place |
| Semantics.SpeakLeavesWorld | App.tsx:232-237 | SPEAK leaves position, score and stars alone and consumes one request. It stops exactly when a Reset arrives in its pause, and then the level's start and an empty workspace are shown; otherwise the screen is as before with the message cleared and the workspace unchanged |
| Semantics.WaitLeavesWorld | App.tsx:283-285 | IF_ELSE_TOUCHING and MOVE_FORWARD leave position, score and stars alone and consume one request. They stop exactly when a Reset arrives in the pause, and then the level's start and an empty workspace are shown; otherwise nothing shown changes |
| Semantics.ExecuteSummary | App.tsx:198-294 | a run started while idle always ends not running. Its score plus the stars left equals the stars shown at the start, and stars only go. Position stays on the board. The game is over only when won. At the end either a Reset has put the level's start and an empty workspace on screen, or the shown state is the run's with no message and the same program; with no Reset in the schedule always the latter |
| Semantics.ExecuteWhileRunning | App.tsx:199 | clicking Run during a run changes nothing |
| App.Game.constructor | App.tsx:79-118 | the first render is level 1 at its start with an empty program; the effect that runs after it resets the level, so the game starts with the flag set, the start state with the stars of that reset and an empty program |
| App.Game.ResetGame | App.tsx:120-135 | a reset sets the cancel flag, restores the current level's start state with new stars and empties the program |
| App.Game.NextLevel | App.tsx:137-143 | the level index advances with wrap-around, and the new level starts afresh (the effect at App.tsx:116-118) |
| App.Game.AddBlockToWorkspace | App.tsx:145-174 | the program becomes `Editor.AddBlock` of the old program, and REPEAT counts stay numeric |
| App.Game.UpdateBlockValue | App.tsx:176-185 | the program becomes `Editor.UpdateValue` of the old program; REPEAT counts stay numeric when a string goes to a block that is no REPEAT |
| App.Game.RemoveBlock | App.tsx:187-196 | the program becomes `Editor.Remove` of the old program, and REPEAT counts stay numeric |
| App.Game.ExecuteCode | App.tsx:198-294 | the new state is `Semantics.Execute` of the old state, whose program is the one the run walks |
| App.Game.RunSequence | App.tsx:217-289 | the for-of loop over the blocks computes `Semantics.RunSeq`: same final state, same answer |
| App.Game.RunBlockOnce | App.tsx:218-286 | one loop body computes `Semantics.RunBlock` |
| App.Game.RepeatBody | App.tsx:241-245 | the counting loop of REPEAT computes `Semantics.RunRepeat` |
| App.Game.MoveBlock | App.tsx:228-282 | a move block computes `Semantics.MoveBy`: step, clamp, collect, publish, then win and stop, or pause |
| App.Game.Step | App.tsx:228-273 | the step along the axis followed by the arrival computes `Semantics.Arrive` at the clamped point one step away |
| App.Game.ArriveHere | App.tsx:259-273 | clamping, collecting and publishing compute `Semantics.Arrive` at the clamped point |
| App.Game.SettleMove | App.tsx:263-282 | the win check and the pause after a move compute `Semantics.Settle` |
| App.Game.SpeakBlock | App.tsx:232-237 | SPEAK computes `Semantics.Say` |
| App.Game.Sleep | App.tsx:120-134 | a pause consumes one scheduled request; a Reset request runs `ResetGame` with its stars, as `Semantics.Pause` states |
| App.AddKeepsNumeric | App.tsx:145-171 | adding a block keeps every REPEAT count numeric |
| App.UpdateKeepsNumeric | components/BlockItem.tsx:27-33 | setting a value keeps every REPEAT count numeric when it is a number, or when it is a string and no block with the id is a REPEAT, as the editor sends it |
| App.RemoveKeepsNumeric | App.tsx:187-194 | removing a block keeps every REPEAT count numeric |
| Scenarios.FlightStep | App.tsx:228-282 | on level 1, short of the edge, MOVE_RIGHT moves one cell right and the run goes on |
| Scenarios.FlightLands | App.tsx:228-281 | on level 1, MOVE_RIGHT from x = 85 reaches the edge, wins and stops |
| Scenarios.FlightRepeats | App.tsx:238-245 | four rounds of the body: three steps, then the landing |
| Scenarios.FlightBlock | App.tsx:238-245 | the REPEAT with no count runs four rounds |
| Scenarios.FlightRuns | App.tsx:217-289 | the program of one REPEAT ends in the win |
| Scenarios.FlyToRightEdge | App.tsx:198-294 | on level 1, REPEAT with the default count around MOVE_RIGHT goes from (55, 55) to (95, 55) and wins there |
| Scenarios.ResetStopsFlight | App.tsx:120-134 | the same program with a Reset during the first pause stops after one step; the screen shows level 1's start with the new stars, the workspace is empty, the game is not won and not running |

## Left out

- Sound (`playSound`, App.tsx:9-77) is Web Audio output with no effect on the game's state.
- Star placement (`generateAlignedStars`, App.tsx:88-102) uses `Math.random` and `Date.now`. The stars are a parameter of the constructor, `ResetGame` and `NextLevel`. `Levels.AlignedStars` states what the generator guarantees.
- Block ids come from `Math.random`; they are a parameter of `AddBlockToWorkspace`.
- Pause lengths (350 ms, 1200 ms) are left out; a pause is modelled only by the Reset that may arrive during it.
- The highlighted block (`setActiveBlockId`) and the `rotation` field affect display only.
- React plumbing: state setters are plain field writes. The level-change effect is part of `NextLevel`, and its first run after mount is part of the constructor.
- A run resumed after a Reset then Run during one of its pauses is not modelled. Run clears the flag, so the old run would resume. This needs two runs interleaved, and the model has one run at a time.
- The Prev and Next Level buttons (App.tsx:325-326) can be clicked during a pause too. They cancel the run as Reset does and also change the level. The schedule of a pause holds only Resets.
- Edits during a pause are not in the schedule. The run walks the program it was started with, so an edit changes only the workspace.
- The Run button is disabled while the workspace is empty (App.tsx:370). `Semantics.Execute` models the handler, which with an empty program only clears the message and the game-over mark.
- App.Game.ExecuteCode requires every REPEAT count to be absent or a number, and so do Semantics.Execute, Semantics.RunSeq, Semantics.RunBlock and Semantics.RunRepeat. The editor's input parses counts to integers, but `Number` of an arbitrary string is not modelled, and a count such as "Infinity" would loop forever. `App.AddKeepsNumeric`, `App.UpdateKeepsNumeric` and `App.RemoveKeepsNumeric` show that the edits keep counts numeric.
- Optional `children` are modelled as the empty sequence; the editor always creates `children: []`, and `removeBlock` normalises a missing list to `[]`.
- `elseChildren` is never read by the code.
- Rendering (the JSX, `GameStage`, `BlockItem`) and the hint service (`geminiService.ts`) are not part of this model.
